/** The table names each platform is configured with, which is why one record of tables for
    each platform is a faithful state: no two platforms share a table. */
module PlatformConfig {
  import opened AuthorizationTables

  datatype Config = Config(
    roleTable: string, permissionTable: string, rolePermissionTable: string,
    assignmentTable: string, subjectTable: string)
  {
    function Names(): seq<string> {
      [roleTable, permissionTable, rolePermissionTable, assignmentTable, subjectTable]
    }
  }

  function ConfigOf(p: Platform): Config {
    match p
    case Marketplace =>
      Config("tbl_marketplace_role", "tbl_marketplace_permission", "tbl_marketplace_role_permission",
             "tbl_customer_role_assignment", "tbl_customer_account")
    case Provider =>
      Config("tbl_provider_role", "tbl_provider_permission", "tbl_provider_role_permission",
             "tbl_provider_membership_role", "tbl_provider_membership")
    case Administration =>
      Config("tbl_administration_role", "tbl_administration_permission", "tbl_administration_role_permission",
             "tbl_administrator_role_assignment", "tbl_administrator_account")
  }

  /** The letters that can follow the common prefix of a platform's table names. */
  function Initials(p: Platform): set<char> {
    match p
    case Marketplace => {'m', 'c'}
    case Provider => {'p'}
    case Administration => {'a'}
  }

  lemma MarketplaceInitial(i: nat)
    requires i < 5
    ensures |ConfigOf(Marketplace).Names()[i]| > 4 && ConfigOf(Marketplace).Names()[i][4] in {'m', 'c'}
  {
  }

  lemma ProviderInitial(i: nat)
    requires i < 5
    ensures |ConfigOf(Platform.Provider).Names()[i]| > 4 && ConfigOf(Platform.Provider).Names()[i][4] == 'p'
  {
  }

  lemma AdministrationInitial(i: nat)
    requires i < 5
    ensures |ConfigOf(Administration).Names()[i]| > 4 && ConfigOf(Administration).Names()[i][4] == 'a'
  {
  }

  lemma NameInitial(p: Platform, i: nat)
    requires i < 5
    ensures |ConfigOf(p).Names()[i]| > 4 && ConfigOf(p).Names()[i][4] in Initials(p)
  {
    match p
    case Marketplace => MarketplaceInitial(i);
    case Provider => ProviderInitial(i);
    case Administration => AdministrationInitial(i);
  }

  /** The names of different platforms differ right after the common prefix. */
  lemma AcrossPlatforms(p: Platform, q: Platform, i: nat, j: nat)
    requires i < 5 && j < 5 && p != q
    ensures ConfigOf(p).Names()[i] != ConfigOf(q).Names()[j]
  {
    NameInitial(p, i);
    NameInitial(q, j);
    assert Initials(p) !! Initials(q);
  }

  lemma WithinPlatform(p: Platform, i: nat, j: nat)
    requires i < j < 5
    ensures ConfigOf(p).Names()[i] != ConfigOf(p).Names()[j]
  {
    var a, b := ConfigOf(p).Names()[i], ConfigOf(p).Names()[j];
    assert |a| > 13 && |b| > 13;
    assert |a| != |b| || a[4] != b[4] || a[13] != b[13];
  }

  /** Any two configured tables, of one platform or of two, are different tables. */
  lemma TablesDisjoint(p: Platform, q: Platform, i: nat, j: nat)
    requires i < 5 && j < 5 && (p, i) != (q, j)
    ensures ConfigOf(p).Names()[i] != ConfigOf(q).Names()[j]
  {
    if p != q {
      AcrossPlatforms(p, q, i, j);
    } else if i < j {
      WithinPlatform(p, i, j);
    } else {
      WithinPlatform(p, j, i);
    }
  }
}
