/**
 * The database service-account provisioner: a handler that makes sure a
 * Postgres login role exists with a fresh password and a reset set of
 * privileges, and stores its connection string in the parameter store.
 *
 * The database is reduced to what the handler can observe through its
 * cursor: the set of existing role names, a log of every statement issued,
 * and a set of statements the server would reject (an abstract failure
 * oracle). Privilege semantics are not modelled: the model says which
 * statements are issued and in which order, not what the role can do after.
 */
module ServiceAccount {
  import opened Wrappers
  import Decimal
  import Ssm

  // ---------------------------------------------------------------------
  // Statements issued through the cursor
  // ---------------------------------------------------------------------

  datatype Stmt =
    | RoleQuery(user: string)                                        // look the role up in pg_roles
    | CreateUser(user: string, password: string)                     // CREATE USER ... WITH PASSWORD
    | AlterPassword(user: string, password: string)                  // ALTER USER ... PASSWORD
    | RevokeAllTables(user: string)                                  // every privilege on every table of schema public
    | RevokeDefaultPrivileges(user: string)                          // the default privileges of schema public
    | RevokeSchema(permission: string, user: string)                 // one permission on schema public
    | RevokeOption(user: string, privilege: string)                  // ALTER USER with role option NO<privilege>
    | GrantOption(user: string, privilege: string)                   // ALTER USER with a requested role option
    | GrantSchema(permission: string, user: string)                  // one permission on schema public
    | GrantOnTable(permission: string, table: string, user: string)  // one permission on one named table
    | GrantAllTables(permission: string, user: string)               // one permission on every current table
    | GrantDefaultPrivileges(permission: string, user: string)       // one permission on every future table
  {
    predicate IsRevoke() {
      RevokeAllTables? || RevokeDefaultPrivileges? || RevokeSchema? || RevokeOption?
    }

    predicate IsGrant() {
      GrantOption? || GrantSchema? || GrantOnTable? || GrantAllTables? || GrantDefaultPrivileges?
    }
  }

  /** A statement of the reset, and whether its failure is swallowed (a `try ... except: pass`). */
  datatype Step = Step(stmt: Stmt, tolerated: bool)

  datatype Failure =
    | StoreUnavailable(parameter: string)   // get_parameter failed with something other than ParameterNotFound
    | NoSuchRole(user: string)              // grant_permissions on a role that does not exist
    | StatementFailed(stmt: Stmt)           // an uncaught statement error
    | PutRejected(parameter: string)        // put_parameter failed

  // ---------------------------------------------------------------------
  // The reset plan of grant_permissions
  // ---------------------------------------------------------------------

  const ResetSchemaPermissions: seq<string> := ["USAGE", "CREATE", "ALTER", "DROP"]
  const ResetPrivileges: seq<string> := ["CREATEDB", "CREATEROLE", "CREATEUSER", "SUPERUSER", "INHERIT", "LOGIN"]

  /** Whether the reset takes a privilege away; LOGIN is kept, so that the account can still log in. */
  predicate ResetTakesAway(privilege: string) {
    if privilege in ["CREATEDB", "CREATEROLE", "CREATEUSER", "SUPERUSER"] then true
    else privilege == "INHERIT"
  }

  function TableRevokes(user: string): seq<Step> {
    [Step(RevokeAllTables(user), false), Step(RevokeDefaultPrivileges(user), false)]
  }

  function SchemaRevokes(user: string, permissions: seq<string>): seq<Step> {
    if permissions == [] then []
    else [Step(RevokeSchema(permissions[0], user), true)] + SchemaRevokes(user, permissions[1..])
  }

  function PrivilegeRevokes(user: string, privileges: seq<string>): seq<Step> {
    if privileges == [] then []
    else
      var head := if ResetTakesAway(privileges[0]) then [Step(RevokeOption(user, privileges[0]), true)] else [];
      head + PrivilegeRevokes(user, privileges[1..])
  }

  /** Everything taken away before anything is granted. */
  function ResetPhase(user: string): seq<Step> {
    TableRevokes(user) + SchemaRevokes(user, ResetSchemaPermissions) + PrivilegeRevokes(user, ResetPrivileges)
  }

  function PrivilegeGrants(user: string, privileges: seq<string>): seq<Step> {
    if privileges == [] then []
    else [Step(GrantOption(user, privileges[0]), false)] + PrivilegeGrants(user, privileges[1..])
  }

  function SchemaGrants(user: string, permissions: seq<string>): seq<Step> {
    if permissions == [] then []
    else [Step(GrantSchema(permissions[0], user), false)] + SchemaGrants(user, permissions[1..])
  }

  /** A non-empty table list without the wildcard names the tables to grant on. */
  predicate SpecificTables(tables: seq<string>) {
    |tables| > 0 && "*" !in tables
  }

  function PerTableGrants(user: string, permission: string, tables: seq<string>): seq<Step> {
    if tables == [] then []
    else [Step(GrantOnTable(permission, tables[0], user), false)] + PerTableGrants(user, permission, tables[1..])
  }

  function PermissionGrants(user: string, permission: string, tables: seq<string>): seq<Step> {
    if SpecificTables(tables) then PerTableGrants(user, permission, tables)
    else [Step(GrantAllTables(permission, user), false), Step(GrantDefaultPrivileges(permission, user), false)]
  }

  function TableGrants(user: string, permissions: seq<string>, tables: seq<string>): seq<Step> {
    if permissions == [] then []
    else PermissionGrants(user, permissions[0], tables) + TableGrants(user, permissions[1..], tables)
  }

  function GrantPhase(user: string, permissions: seq<string>, tables: seq<string>,
                      schemaPermissions: seq<string>, databasePrivileges: seq<string>): seq<Step>
  {
    PrivilegeGrants(user, databasePrivileges) + SchemaGrants(user, schemaPermissions) + TableGrants(user, permissions, tables)
  }

  /** Every statement grant_permissions issues after the role check, in order. */
  function Plan(user: string, permissions: seq<string>, tables: seq<string>,
                schemaPermissions: seq<string>, databasePrivileges: seq<string>): seq<Step>
  {
    ResetPhase(user) + GrantPhase(user, permissions, tables, schemaPermissions, databasePrivileges)
  }

  // ---------------------------------------------------------------------
  // Running a plan: errors of tolerated steps are swallowed, any other error ends the run
  // ---------------------------------------------------------------------

  predicate Survives(s: Step, rejected: set<Stmt>) {
    s.tolerated || s.stmt !in rejected
  }

  predicate AllSurvive(steps: seq<Step>, rejected: set<Stmt>) {
    forall k :: 0 <= k < |steps| ==> Survives(steps[k], rejected)
  }

  function Stmts(steps: seq<Step>): seq<Stmt> {
    seq(|steps|, k requires 0 <= k < |steps| => steps[k].stmt)
  }

  /** The statements issued, and whether the run got to the end without an uncaught error. */
  datatype Trace = Trace(issued: seq<Stmt>, completed: bool)

  function Run(plan: seq<Step>, rejected: set<Stmt>): (r: Trace)
    ensures |r.issued| <= |plan|
    ensures r.completed ==> |r.issued| == |plan|
    ensures !r.completed ==> |r.issued| > 0
  {
    if plan == [] then Trace([], true)
    else if !Survives(plan[0], rejected) then Trace([plan[0].stmt], false)
    else
      var rest := Run(plan[1..], rejected);
      Trace([plan[0].stmt] + rest.issued, rest.completed)
  }

  /** A run completes exactly when no step dies, and then it issues the whole plan. */
  lemma {:induction false} RunCompletes(plan: seq<Step>, rejected: set<Stmt>)
    ensures Run(plan, rejected).completed <==> AllSurvive(plan, rejected)
    ensures Run(plan, rejected).completed ==> Run(plan, rejected).issued == Stmts(plan)
  {
    if plan != [] {
      RunCompletes(plan[1..], rejected);
      if Survives(plan[0], rejected) {
        assert forall k :: 1 <= k < |plan| ==> plan[k] == plan[1..][k - 1];
        assert Stmts(plan) == [plan[0].stmt] + Stmts(plan[1..]);
      }
    }
  }

  /**
   * A run issues a prefix of the plan's statements; every step before the
   * last one issued survived, and a run that did not complete ends on a step
   * that died.
   */
  lemma {:induction false} RunIssuesPrefix(plan: seq<Step>, rejected: set<Stmt>)
    ensures var t := Run(plan, rejected);
      && (forall k :: 0 <= k < |t.issued| ==> t.issued[k] == plan[k].stmt)
      && (forall k :: 0 <= k < |t.issued| - 1 ==> Survives(plan[k], rejected))
      && (!t.completed ==> !Survives(plan[|t.issued| - 1], rejected))
  {
    if plan != [] && Survives(plan[0], rejected) {
      RunIssuesPrefix(plan[1..], rejected);
    }
  }

  /** A run stops right after the first step that dies, having issued everything before it. */
  lemma {:induction false} RunStopsAt(plan: seq<Step>, done: seq<Step>, s: Step, rest: seq<Step>, rejected: set<Stmt>)
    requires plan == done + [s] + rest
    requires AllSurvive(done, rejected)
    requires !Survives(s, rejected)
    ensures Run(plan, rejected) == Trace(Stmts(done) + [s.stmt], false)
    decreases |done|
  {
    if done != [] {
      assert plan[0] == done[0];
      assert plan[1..] == done[1..] + [s] + rest;
      RunStopsAt(plan[1..], done[1..], s, rest, rejected);
      assert Stmts(done) == [done[0].stmt] + Stmts(done[1..]);
    }
  }

  // ---------------------------------------------------------------------
  // Properties of the plan
  // ---------------------------------------------------------------------

  /**
   * The reset phase, spelled out: table privileges and default privileges,
   * then the schema permissions USAGE, CREATE, ALTER, DROP, then the role
   * options NOCREATEDB, NOCREATEROLE, NOCREATEUSER, NOSUPERUSER, NOINHERIT
   * (a `RevokeOption` names the privilege its NO... option takes away).
   * Only the first two are not tolerated.
   */
  lemma ResetPhaseSpelledOut(user: string)
    ensures ResetPhase(user) == [
      Step(RevokeAllTables(user), false),
      Step(RevokeDefaultPrivileges(user), false),
      Step(RevokeSchema("USAGE", user), true),
      Step(RevokeSchema("CREATE", user), true),
      Step(RevokeSchema("ALTER", user), true),
      Step(RevokeSchema("DROP", user), true),
      Step(RevokeOption(user, "CREATEDB"), true),
      Step(RevokeOption(user, "CREATEROLE"), true),
      Step(RevokeOption(user, "CREATEUSER"), true),
      Step(RevokeOption(user, "SUPERUSER"), true),
      Step(RevokeOption(user, "INHERIT"), true)]
  {
    var ps := ResetSchemaPermissions;
    assert SchemaRevokes(user, ps[3..]) == [Step(RevokeSchema("DROP", user), true)];
    assert SchemaRevokes(user, ps[2..]) == [Step(RevokeSchema("ALTER", user), true)] + SchemaRevokes(user, ps[3..]);
    assert SchemaRevokes(user, ps[1..]) == [Step(RevokeSchema("CREATE", user), true)] + SchemaRevokes(user, ps[2..]);
    var qs := ResetPrivileges;
    assert PrivilegeRevokes(user, qs[5..]) == [] by {
      assert qs[5..][1..] == [];
    }
    assert PrivilegeRevokes(user, qs[4..]) == [Step(RevokeOption(user, "INHERIT"), true)] + PrivilegeRevokes(user, qs[5..]) by {
      assert qs[4..][1..] == qs[5..];
    }
    assert PrivilegeRevokes(user, qs[3..]) == [Step(RevokeOption(user, "SUPERUSER"), true)] + PrivilegeRevokes(user, qs[4..]) by {
      assert qs[3..][1..] == qs[4..];
    }
    assert PrivilegeRevokes(user, qs[2..]) == [Step(RevokeOption(user, "CREATEUSER"), true)] + PrivilegeRevokes(user, qs[3..]) by {
      assert qs[2..][1..] == qs[3..];
    }
    assert PrivilegeRevokes(user, qs[1..]) == [Step(RevokeOption(user, "CREATEROLE"), true)] + PrivilegeRevokes(user, qs[2..]) by {
      assert qs[1..][1..] == qs[2..];
    }
    assert PrivilegeRevokes(user, qs) == [Step(RevokeOption(user, "CREATEDB"), true)] + PrivilegeRevokes(user, qs[1..]);
  }

  /** The reset never takes LOGIN away. */
  lemma ResetKeepsLogin(user: string)
    ensures forall k :: 0 <= k < |ResetPhase(user)| ==> ResetPhase(user)[k].stmt != RevokeOption(user, "LOGIN")
  {
    ResetPhaseSpelledOut(user);
  }

  lemma {:induction false} SchemaRevokesAreTolerated(user: string, permissions: seq<string>)
    ensures forall k :: 0 <= k < |SchemaRevokes(user, permissions)| ==>
      SchemaRevokes(user, permissions)[k].stmt.RevokeSchema? && SchemaRevokes(user, permissions)[k].tolerated
  {
    if permissions != [] {
      SchemaRevokesAreTolerated(user, permissions[1..]);
    }
  }

  lemma {:induction false} PrivilegeRevokesAreTolerated(user: string, privileges: seq<string>)
    ensures forall k :: 0 <= k < |PrivilegeRevokes(user, privileges)| ==>
      PrivilegeRevokes(user, privileges)[k].stmt.RevokeOption? && PrivilegeRevokes(user, privileges)[k].tolerated
  {
    if privileges != [] {
      PrivilegeRevokesAreTolerated(user, privileges[1..]);
    }
  }

  /** Every step of the reset phase revokes; only the two table revokes are not tolerated. */
  lemma ResetPhaseRevokes(user: string)
    ensures forall k :: 0 <= k < |ResetPhase(user)| ==> ResetPhase(user)[k].stmt.IsRevoke()
    ensures forall k :: 2 <= k < |ResetPhase(user)| ==> ResetPhase(user)[k].tolerated
  {
    SchemaRevokesAreTolerated(user, ResetSchemaPermissions);
    PrivilegeRevokesAreTolerated(user, ResetPrivileges);
  }

  lemma {:induction false} PrivilegeGrantsGrant(user: string, privileges: seq<string>)
    ensures forall k :: 0 <= k < |PrivilegeGrants(user, privileges)| ==>
      PrivilegeGrants(user, privileges)[k].stmt.IsGrant() && !PrivilegeGrants(user, privileges)[k].tolerated
  {
    if privileges != [] {
      PrivilegeGrantsGrant(user, privileges[1..]);
    }
  }

  lemma {:induction false} SchemaGrantsGrant(user: string, permissions: seq<string>)
    ensures forall k :: 0 <= k < |SchemaGrants(user, permissions)| ==>
      SchemaGrants(user, permissions)[k].stmt.IsGrant() && !SchemaGrants(user, permissions)[k].tolerated
  {
    if permissions != [] {
      SchemaGrantsGrant(user, permissions[1..]);
    }
  }

  /** One ALTER USER per requested role option, in the order requested. */
  lemma {:induction false} PrivilegeGrantsAt(user: string, privileges: seq<string>)
    ensures |PrivilegeGrants(user, privileges)| == |privileges|
    ensures forall i :: 0 <= i < |privileges| ==>
      PrivilegeGrants(user, privileges)[i] == Step(GrantOption(user, privileges[i]), false)
  {
    if privileges != [] {
      PrivilegeGrantsAt(user, privileges[1..]);
    }
  }

  /** One GRANT ... ON SCHEMA per requested schema permission, in the order requested. */
  lemma {:induction false} SchemaGrantsAt(user: string, permissions: seq<string>)
    ensures |SchemaGrants(user, permissions)| == |permissions|
    ensures forall i :: 0 <= i < |permissions| ==>
      SchemaGrants(user, permissions)[i] == Step(GrantSchema(permissions[i], user), false)
  {
    if permissions != [] {
      SchemaGrantsAt(user, permissions[1..]);
    }
  }

  lemma {:induction false} PerTableGrantsGrant(user: string, permission: string, tables: seq<string>)
    ensures forall k :: 0 <= k < |PerTableGrants(user, permission, tables)| ==>
      PerTableGrants(user, permission, tables)[k].stmt.IsGrant() && !PerTableGrants(user, permission, tables)[k].tolerated
  {
    if tables != [] {
      PerTableGrantsGrant(user, permission, tables[1..]);
    }
  }

  lemma {:induction false} TableGrantsGrant(user: string, permissions: seq<string>, tables: seq<string>)
    ensures forall k :: 0 <= k < |TableGrants(user, permissions, tables)| ==>
      TableGrants(user, permissions, tables)[k].stmt.IsGrant() && !TableGrants(user, permissions, tables)[k].tolerated
  {
    if permissions != [] {
      PerTableGrantsGrant(user, permissions[0], tables);
      TableGrantsGrant(user, permissions[1..], tables);
    }
  }

  /** Every step of the grant phase grants, and none of their errors is swallowed. */
  lemma GrantPhaseGrants(user: string, permissions: seq<string>, tables: seq<string>,
                         schemaPermissions: seq<string>, databasePrivileges: seq<string>)
    ensures var g := GrantPhase(user, permissions, tables, schemaPermissions, databasePrivileges);
      forall k :: 0 <= k < |g| ==> g[k].stmt.IsGrant() && !g[k].tolerated
  {
    PrivilegeGrantsGrant(user, databasePrivileges);
    SchemaGrantsGrant(user, schemaPermissions);
    TableGrantsGrant(user, permissions, tables);
  }

  /** No revoke is issued after a grant. */
  lemma RevokesPrecedeGrants(user: string, permissions: seq<string>, tables: seq<string>,
                             schemaPermissions: seq<string>, databasePrivileges: seq<string>)
    ensures var p := Plan(user, permissions, tables, schemaPermissions, databasePrivileges);
      forall i, j :: 0 <= i < j < |p| ==> !(p[i].stmt.IsGrant() && p[j].stmt.IsRevoke())
  {
    ResetPhaseRevokes(user);
    GrantPhaseGrants(user, permissions, tables, schemaPermissions, databasePrivileges);
  }

  /** Failing schema or role-option revokes are swallowed: the whole plan is issued. */
  lemma RevokeErrorsSwallowed(user: string, permissions: seq<string>, tables: seq<string>,
                              schemaPermissions: seq<string>, databasePrivileges: seq<string>, rejected: set<Stmt>)
    requires forall s :: s in rejected ==> s.RevokeSchema? || s.RevokeOption?
    ensures var p := Plan(user, permissions, tables, schemaPermissions, databasePrivileges);
      Run(p, rejected) == Trace(Stmts(p), true)
  {
    var p := Plan(user, permissions, tables, schemaPermissions, databasePrivileges);
    ResetPhaseRevokes(user);
    ResetPhaseSpelledOut(user);
    GrantPhaseGrants(user, permissions, tables, schemaPermissions, databasePrivileges);
    RunCompletes(p, rejected);
  }

  /** A failing grant is not caught: the run stops with that grant as the last statement. */
  lemma GrantErrorAborts(user: string, permissions: seq<string>, tables: seq<string>,
                         schemaPermissions: seq<string>, databasePrivileges: seq<string>, rejected: set<Stmt>, k: nat)
    requires var g := GrantPhase(user, permissions, tables, schemaPermissions, databasePrivileges);
      k < |g| && g[k].stmt in rejected
    ensures !Run(Plan(user, permissions, tables, schemaPermissions, databasePrivileges), rejected).completed
  {
    var p := Plan(user, permissions, tables, schemaPermissions, databasePrivileges);
    GrantPhaseGrants(user, permissions, tables, schemaPermissions, databasePrivileges);
    assert p[|ResetPhase(user)| + k] == GrantPhase(user, permissions, tables, schemaPermissions, databasePrivileges)[k];
    RunCompletes(p, rejected);
  }

  lemma {:induction false} PerTableGrantsAt(user: string, permission: string, tables: seq<string>)
    ensures |PerTableGrants(user, permission, tables)| == |tables|
    ensures forall j :: 0 <= j < |tables| ==>
      PerTableGrants(user, permission, tables)[j] == Step(GrantOnTable(permission, tables[j], user), false)
  {
    if tables != [] {
      PerTableGrantsAt(user, permission, tables[1..]);
    }
  }

  /** Where row i starts in a row-major layout with rows of length n. */
  function RowStart(i: nat, n: nat): nat {
    if i == 0 then 0 else RowStart(i - 1, n) + n
  }

  lemma {:induction false} RowStartIsProduct(i: nat, n: nat)
    ensures RowStart(i, n) == i * n
  {
    if i > 0 {
      RowStartIsProduct(i - 1, n);
      assert (i - 1) * n + n == i * n;
    }
  }

  lemma {:induction false} TableGrantsRows(user: string, permissions: seq<string>, tables: seq<string>, i: nat, j: nat)
    requires SpecificTables(tables)
    requires i < |permissions| && j < |tables|
    ensures |TableGrants(user, permissions, tables)| == RowStart(|permissions|, |tables|)
    ensures RowStart(i, |tables|) + j < |TableGrants(user, permissions, tables)|
    ensures TableGrants(user, permissions, tables)[RowStart(i, |tables|) + j] == Step(GrantOnTable(permissions[i], tables[j], user), false)
    decreases i
  {
    var n := |tables|;
    var head := PerTableGrants(user, permissions[0], tables);
    var tail := TableGrants(user, permissions[1..], tables);
    assert PermissionGrants(user, permissions[0], tables) == head;
    assert TableGrants(user, permissions, tables) == head + tail;
    PerTableGrantsAt(user, permissions[0], tables);
    if i == 0 {
      TableGrantsCount(user, permissions[1..], tables);
      assert (head + tail)[j] == head[j];
    } else {
      TableGrantsRows(user, permissions[1..], tables, i - 1, j);
      var x := RowStart(i - 1, n) + j;
      assert (head + tail)[n + x] == tail[x];
      assert permissions[1..][i - 1] == permissions[i];
    }
  }

  lemma {:induction false} TableGrantsCount(user: string, permissions: seq<string>, tables: seq<string>)
    requires SpecificTables(tables)
    ensures |TableGrants(user, permissions, tables)| == RowStart(|permissions|, |tables|)
    decreases |permissions|
  {
    if permissions != [] {
      PerTableGrantsAt(user, permissions[0], tables);
      TableGrantsCount(user, permissions[1..], tables);
    }
  }

  /**
   * With named tables there are |permissions| * |tables| table grants, and
   * grant number i * |tables| + j is permission i on table j: one GRANT per
   * pair, permission-major.
   */
  lemma TableGrantsNamed(user: string, permissions: seq<string>, tables: seq<string>, i: nat, j: nat)
    requires SpecificTables(tables)
    requires i < |permissions| && j < |tables|
    ensures |TableGrants(user, permissions, tables)| == |permissions| * |tables|
    ensures i * |tables| + j < |TableGrants(user, permissions, tables)|
    ensures TableGrants(user, permissions, tables)[i * |tables| + j] == Step(GrantOnTable(permissions[i], tables[j], user), false)
  {
    TableGrantsRows(user, permissions, tables, i, j);
    RowStartIsProduct(i, |tables|);
    RowStartIsProduct(|permissions|, |tables|);
  }

  /** With no table list or a wildcard: per permission, all current tables and then the default privileges. */
  lemma {:induction false} TableGrantsAll(user: string, permissions: seq<string>, tables: seq<string>)
    requires !SpecificTables(tables)
    ensures |TableGrants(user, permissions, tables)| == 2 * |permissions|
    ensures forall i :: 0 <= i < |permissions| ==>
      && TableGrants(user, permissions, tables)[2 * i] == Step(GrantAllTables(permissions[i], user), false)
      && TableGrants(user, permissions, tables)[2 * i + 1] == Step(GrantDefaultPrivileges(permissions[i], user), false)
  {
    if permissions != [] {
      var head := [Step(GrantAllTables(permissions[0], user), false), Step(GrantDefaultPrivileges(permissions[0], user), false)];
      var tail := TableGrants(user, permissions[1..], tables);
      assert PermissionGrants(user, permissions[0], tables) == head;
      TableGrantsAll(user, permissions[1..], tables);
      forall i | 1 <= i < |permissions|
        ensures (head + tail)[2 * i] == Step(GrantAllTables(permissions[i], user), false)
        ensures (head + tail)[2 * i + 1] == Step(GrantDefaultPrivileges(permissions[i], user), false)
      {
        assert permissions[i] == permissions[1..][i - 1];
        assert (head + tail)[2 * i] == tail[2 * (i - 1)];
        assert (head + tail)[2 * i + 1] == tail[2 * (i - 1) + 1];
      }
    }
  }

  // ---------------------------------------------------------------------
  // The database, as the cursor sees it
  // ---------------------------------------------------------------------

  class Database {
    var roles: set<string>
    var rejected: set<Stmt>
    var log: seq<Stmt>
    var open: bool
    var connections: nat

    constructor (roles: set<string>, rejected: set<Stmt>)
      ensures this.roles == roles && this.rejected == rejected
      ensures log == [] && !open && connections == 0
    {
      this.roles := roles;
      this.rejected := rejected;
      log := [];
      open := false;
      connections := 0;
    }

    method Connect()
      modifies this`open, this`connections
      ensures open && connections == old(connections) + 1
    {
      open := true;
      connections := connections + 1;
    }

    method Close()
      modifies this`open
      ensures !open
    {
      open := false;
    }

    /** The pg_roles lookup; `ok` is false where the query itself raises. */
    method RoleExists(user: string) returns (ok: bool, found: bool)
      requires open
      modifies this`log
      ensures ok == (RoleQuery(user) !in rejected)
      ensures found == (ok && user in roles)
      ensures log == old(log) + [RoleQuery(user)]
    {
      log := log + [RoleQuery(user)];
      ok := RoleQuery(user) !in rejected;
      found := ok && user in roles;
    }

    /** Runs a statement that leaves the role table as it is; `ok` is false where it raises. */
    method Execute(s: Stmt) returns (ok: bool)
      requires open && !s.CreateUser?
      modifies this`log
      ensures ok == (s !in rejected)
      ensures log == old(log) + [s]
    {
      log := log + [s];
      ok := s !in rejected;
    }

    method CreateRole(user: string, password: string) returns (ok: bool)
      requires open
      modifies this`log, this`roles
      ensures ok == (CreateUser(user, password) !in rejected)
      ensures log == old(log) + [CreateUser(user, password)]
      ensures roles == if ok then old(roles) + {user} else old(roles)
    {
      log := log + [CreateUser(user, password)];
      ok := CreateUser(user, password) !in rejected;
      if ok {
        roles := roles + {user};
      }
    }
  }

  /** `done` has been issued, in order, and none of its errors was uncaught. */
  ghost predicate Progress(log: seq<Stmt>, rejected: set<Stmt>, base: seq<Stmt>, done: seq<Step>) {
    log == base + Stmts(done) && AllSurvive(done, rejected)
  }

  /** The run of `plan` stopped at the uncaught error of `failed`, and `log` shows that run. */
  ghost predicate Stopped(log: seq<Stmt>, rejected: set<Stmt>, base: seq<Stmt>, plan: seq<Step>, failed: Stmt) {
    var t := Run(plan, rejected);
    !t.completed && log == base + t.issued && |t.issued| > 0 && t.issued[|t.issued| - 1] == failed
  }

  /**
   * Issues the next step of `plan`: `done` has been issued without an
   * uncaught error and `rest` is still to come. `fatal` says that the step
   * raised an error that is not swallowed.
   */
  method Issue(db: Database, s: Step, ghost plan: seq<Step>, ghost done: seq<Step>, ghost rest: seq<Step>, ghost base: seq<Stmt>)
    returns (fatal: bool)
    requires db.open && !s.stmt.CreateUser?
    requires plan == done + [s] + rest
    requires Progress(db.log, db.rejected, base, done)
    modifies db`log
    ensures fatal == !Survives(s, db.rejected)
    ensures !fatal ==> Progress(db.log, db.rejected, base, done + [s])
    ensures fatal ==> Stopped(db.log, db.rejected, base, plan, s.stmt)
  {
    var ok := db.Execute(s.stmt);
    fatal := !ok && !s.tolerated;
    if fatal {
      RunStopsAt(plan, done, s, rest, db.rejected);
    } else {
      assert Stmts(done + [s]) == Stmts(done) + [s.stmt];
    }
  }

  /** The schema-permission revokes of grant_permissions; their errors are swallowed. */
  method RevokeSchemaPermissions(db: Database, user: string, permissions: seq<string>, ghost done: seq<Step>, ghost base: seq<Stmt>)
    requires db.open
    requires Progress(db.log, db.rejected, base, done)
    modifies db`log
    ensures Progress(db.log, db.rejected, base, done + SchemaRevokes(user, permissions))
  {
    ghost var d := done;
    for i := 0 to |permissions|
      invariant d + SchemaRevokes(user, permissions[i..]) == done + SchemaRevokes(user, permissions)
      invariant Progress(db.log, db.rejected, base, d)
    {
      var permission := permissions[i];
      assert permissions[i..][1..] == permissions[i + 1..];
      var s := Step(RevokeSchema(permission, user), true);
      var _ := Issue(db, s, d + [s], d, [], base);
      d := d + [s];
    }
  }

  /** The role-option revokes of grant_permissions; their errors are swallowed, and LOGIN is left alone. */
  method RevokeRoleOptions(db: Database, user: string, privileges: seq<string>, ghost done: seq<Step>, ghost base: seq<Stmt>)
    requires db.open
    requires Progress(db.log, db.rejected, base, done)
    modifies db`log
    ensures Progress(db.log, db.rejected, base, done + PrivilegeRevokes(user, privileges))
  {
    ghost var d := done;
    for i := 0 to |privileges|
      invariant d + PrivilegeRevokes(user, privileges[i..]) == done + PrivilegeRevokes(user, privileges)
      invariant Progress(db.log, db.rejected, base, d)
    {
      var privilege := privileges[i];
      assert privileges[i..][1..] == privileges[i + 1..];
      assert PrivilegeRevokes(user, privileges[i..]) ==
        (if ResetTakesAway(privilege) then [Step(RevokeOption(user, privilege), true)] else [])
        + PrivilegeRevokes(user, privileges[i + 1..]);
      if privilege in ["CREATEDB", "CREATEROLE", "CREATEUSER", "SUPERUSER"] {
        var s := Step(RevokeOption(user, privilege), true);
        var _ := Issue(db, s, d + [s], d, [], base);
        d := d + [s];
      } else if privilege == "INHERIT" {
        var s := Step(RevokeOption(user, "INHERIT"), true);
        var _ := Issue(db, s, d + [s], d, [], base);
        d := d + [s];
      }
    }
  }

  /** The revoke phase of grant_permissions: errors of the two table revokes are not caught, the rest are swallowed. */
  method RevokeEverything(db: Database, user: string, ghost plan: seq<Step>, ghost rest: seq<Step>, ghost base: seq<Stmt>)
    returns (failed: Option<Stmt>)
    requires db.open
    requires plan == ResetPhase(user) + rest
    requires db.log == base
    modifies db`log
    ensures failed.None? ==> Progress(db.log, db.rejected, base, ResetPhase(user))
    ensures failed.Some? ==> Stopped(db.log, db.rejected, base, plan, failed.value)
  {
    var reset := TableRevokes(user) + SchemaRevokes(user, ResetSchemaPermissions) + PrivilegeRevokes(user, ResetPrivileges);
    assert Progress(db.log, db.rejected, base, []);
    var s := Step(RevokeAllTables(user), false);
    var fatal := Issue(db, s, plan, [], reset[1..] + rest, base);
    if fatal {
      return Some(s.stmt);
    }
    s := Step(RevokeDefaultPrivileges(user), false);
    fatal := Issue(db, s, plan, reset[..1], reset[2..] + rest, base);
    if fatal {
      return Some(s.stmt);
    }
    assert reset[..1] + [s] == TableRevokes(user);
    RevokeSchemaPermissions(db, user, ResetSchemaPermissions, TableRevokes(user), base);
    RevokeRoleOptions(db, user, ResetPrivileges, TableRevokes(user) + SchemaRevokes(user, ResetSchemaPermissions), base);
    return None;
  }

  /** The requested role options; an error is not caught. */
  method GrantRoleOptions(db: Database, user: string, privileges: seq<string>,
                          ghost plan: seq<Step>, ghost done: seq<Step>, ghost rest: seq<Step>, ghost base: seq<Stmt>)
    returns (failed: Option<Stmt>)
    requires db.open
    requires plan == done + PrivilegeGrants(user, privileges) + rest
    requires Progress(db.log, db.rejected, base, done)
    modifies db`log
    ensures failed.None? ==> Progress(db.log, db.rejected, base, done + PrivilegeGrants(user, privileges))
    ensures failed.Some? ==> Stopped(db.log, db.rejected, base, plan, failed.value)
  {
    ghost var d := done;
    for i := 0 to |privileges|
      invariant d + PrivilegeGrants(user, privileges[i..]) == done + PrivilegeGrants(user, privileges)
      invariant Progress(db.log, db.rejected, base, d)
    {
      assert privileges[i..][1..] == privileges[i + 1..];
      var s := Step(GrantOption(user, privileges[i]), false);
      var fatal := Issue(db, s, plan, d, PrivilegeGrants(user, privileges[i + 1..]) + rest, base);
      if fatal {
        return Some(s.stmt);
      }
      d := d + [s];
    }
    return None;
  }

  /** The requested schema permissions; an error is not caught. */
  method GrantSchemaPermissions(db: Database, user: string, permissions: seq<string>,
                                ghost plan: seq<Step>, ghost done: seq<Step>, ghost rest: seq<Step>, ghost base: seq<Stmt>)
    returns (failed: Option<Stmt>)
    requires db.open
    requires plan == done + SchemaGrants(user, permissions) + rest
    requires Progress(db.log, db.rejected, base, done)
    modifies db`log
    ensures failed.None? ==> Progress(db.log, db.rejected, base, done + SchemaGrants(user, permissions))
    ensures failed.Some? ==> Stopped(db.log, db.rejected, base, plan, failed.value)
  {
    ghost var d := done;
    for i := 0 to |permissions|
      invariant d + SchemaGrants(user, permissions[i..]) == done + SchemaGrants(user, permissions)
      invariant Progress(db.log, db.rejected, base, d)
    {
      assert permissions[i..][1..] == permissions[i + 1..];
      var s := Step(GrantSchema(permissions[i], user), false);
      var fatal := Issue(db, s, plan, d, SchemaGrants(user, permissions[i + 1..]) + rest, base);
      if fatal {
        return Some(s.stmt);
      }
      d := d + [s];
    }
    return None;
  }

  /** One permission on each named table; an error is not caught. */
  method GrantOnTables(db: Database, user: string, permission: string, tables: seq<string>,
                       ghost plan: seq<Step>, ghost done: seq<Step>, ghost rest: seq<Step>, ghost base: seq<Stmt>)
    returns (failed: Option<Stmt>)
    requires db.open
    requires plan == done + PerTableGrants(user, permission, tables) + rest
    requires Progress(db.log, db.rejected, base, done)
    modifies db`log
    ensures failed.None? ==> Progress(db.log, db.rejected, base, done + PerTableGrants(user, permission, tables))
    ensures failed.Some? ==> Stopped(db.log, db.rejected, base, plan, failed.value)
  {
    ghost var d := done;
    for j := 0 to |tables|
      invariant d + PerTableGrants(user, permission, tables[j..]) == done + PerTableGrants(user, permission, tables)
      invariant Progress(db.log, db.rejected, base, d)
    {
      assert tables[j..][1..] == tables[j + 1..];
      var s := Step(GrantOnTable(permission, tables[j], user), false);
      var fatal := Issue(db, s, plan, d, PerTableGrants(user, permission, tables[j + 1..]) + rest, base);
      if fatal {
        return Some(s.stmt);
      }
      d := d + [s];
    }
    return None;
  }

  /** The requested table permissions: on the named tables, or on all current and future tables. */
  method GrantTablePermissions(db: Database, user: string, permissions: seq<string>, tables: seq<string>,
                               ghost plan: seq<Step>, ghost done: seq<Step>, ghost base: seq<Stmt>)
    returns (failed: Option<Stmt>)
    requires db.open
    requires plan == done + TableGrants(user, permissions, tables)
    requires Progress(db.log, db.rejected, base, done)
    modifies db`log
    ensures failed.None? ==> Progress(db.log, db.rejected, base, plan)
    ensures failed.Some? ==> Stopped(db.log, db.rejected, base, plan, failed.value)
  {
    ghost var d := done;
    for i := 0 to |permissions|
      invariant d + TableGrants(user, permissions[i..], tables) == plan
      invariant Progress(db.log, db.rejected, base, d)
    {
      var permission := permissions[i];
      assert permissions[i..][1..] == permissions[i + 1..];
      ghost var later := TableGrants(user, permissions[i + 1..], tables);
      if |tables| > 0 && "*" !in tables {
        failed := GrantOnTables(db, user, permission, tables, plan, d, later, base);
        if failed.Some? {
          return;
        }
        d := d + PerTableGrants(user, permission, tables);
      } else {
        var s := Step(GrantAllTables(permission, user), false);
        var fatal := Issue(db, s, plan, d, [Step(GrantDefaultPrivileges(permission, user), false)] + later, base);
        if fatal {
          return Some(s.stmt);
        }
        d := d + [s];
        s := Step(GrantDefaultPrivileges(permission, user), false);
        fatal := Issue(db, s, plan, d, later, base);
        if fatal {
          return Some(s.stmt);
        }
        d := d + [s];
      }
    }
    return None;
  }

  /** Everything grant_permissions issues after the role check, stopping at the first uncaught error. */
  method IssuePlan(db: Database, user: string, permissions: seq<string>, tables: seq<string>,
                   schemaPermissions: seq<string>, databasePrivileges: seq<string>)
    returns (failed: Option<Stmt>)
    requires db.open
    modifies db`log
    ensures var plan := Plan(user, permissions, tables, schemaPermissions, databasePrivileges);
      failed.None? ==> Progress(db.log, db.rejected, old(db.log), plan)
    ensures var plan := Plan(user, permissions, tables, schemaPermissions, databasePrivileges);
      failed.Some? ==> Stopped(db.log, db.rejected, old(db.log), plan, failed.value)
  {
    ghost var plan := Plan(user, permissions, tables, schemaPermissions, databasePrivileges);
    ghost var base := db.log;
    ghost var reset := ResetPhase(user);
    ghost var privilegeGrants := PrivilegeGrants(user, databasePrivileges);
    ghost var schemaGrants := SchemaGrants(user, schemaPermissions);
    ghost var tableGrants := TableGrants(user, permissions, tables);
    assert plan == reset + (privilegeGrants + schemaGrants + tableGrants);
    assert plan == reset + privilegeGrants + (schemaGrants + tableGrants);
    assert plan == reset + privilegeGrants + schemaGrants + tableGrants;

    failed := RevokeEverything(db, user, plan, privilegeGrants + schemaGrants + tableGrants, base);
    if failed.Some? {
      return;
    }
    failed := GrantRoleOptions(db, user, databasePrivileges, plan, reset, schemaGrants + tableGrants, base);
    if failed.Some? {
      return;
    }
    failed := GrantSchemaPermissions(db, user, schemaPermissions, plan, reset + privilegeGrants, tableGrants, base);
    if failed.Some? {
      return;
    }
    failed := GrantTablePermissions(db, user, permissions, tables, plan, reset + privilegeGrants + schemaGrants, base);
  }

  /**
   * grant_permissions: checks that the role exists, revokes everything,
   * then grants what was asked for, exactly as `Plan` lists it.
   */
  method GrantPermissions(db: Database, user: string, permissions: seq<string>, tables: seq<string>,
                          schemaPermissions: seq<string>, databasePrivileges: seq<string>)
    returns (outcome: Outcome<Failure>)
    requires db.open
    modifies db`log
    ensures RoleQuery(user) in db.rejected ==>
      outcome == Fail(StatementFailed(RoleQuery(user))) && db.log == old(db.log) + [RoleQuery(user)]
    ensures RoleQuery(user) !in db.rejected && user !in db.roles ==>
      outcome == Fail(NoSuchRole(user)) && db.log == old(db.log) + [RoleQuery(user)]
    ensures RoleQuery(user) !in db.rejected && user in db.roles ==>
      var t := Run(Plan(user, permissions, tables, schemaPermissions, databasePrivileges), db.rejected);
      && db.log == old(db.log) + [RoleQuery(user)] + t.issued
      && (outcome.Pass? <==> t.completed)
      && (outcome.Fail? ==> |t.issued| > 0 && outcome == Fail(StatementFailed(t.issued[|t.issued| - 1])))
  {
    var ok, found := db.RoleExists(user);
    if !ok {
      return Fail(StatementFailed(RoleQuery(user)));
    }
    if !found {
      return Fail(NoSuchRole(user));
    }
    var failed := IssuePlan(db, user, permissions, tables, schemaPermissions, databasePrivileges);
    if failed.Some? {
      return Fail(StatementFailed(failed.value));
    }
    RunCompletes(Plan(user, permissions, tables, schemaPermissions, databasePrivileges), db.rejected);
    outcome := Pass;
  }

  // ---------------------------------------------------------------------
  // The password
  // ---------------------------------------------------------------------

  const PasswordLength: nat := 32

  /** "abcdefghijklmnopqrstuvwxyz", "ABCDEFGHIJKLMNOPQRSTUVWXYZ" and "0123456789". */
  const AsciiLowercase: string := seq(26, i requires 0 <= i < 26 => ('a' as int + i) as char)
  const AsciiUppercase: string := seq(26, i requires 0 <= i < 26 => ('A' as int + i) as char)
  const Digits: string := seq(10, i requires 0 <= i < 10 => ('0' as int + i) as char)

  /** ASCII letters, digits and the one special character "_". */
  const PasswordAlphabet: string := AsciiLowercase + AsciiUppercase + Digits + "_"

  predicate IsPasswordChar(c: char) {
    'a' <= c <= 'z' || 'A' <= c <= 'Z' || '0' <= c <= '9' || c == '_'
  }

  /** The alphabet holds exactly the password characters: 63 of them. */
  lemma PasswordAlphabetMembers(c: char)
    ensures |PasswordAlphabet| == 63
    ensures c in PasswordAlphabet <==> IsPasswordChar(c)
  {
    var a := PasswordAlphabet;
    assert forall k :: 0 <= k < 26 ==> a[k] == AsciiLowercase[k];
    assert forall k :: 26 <= k < 52 ==> a[k] == AsciiUppercase[k - 26];
    assert forall k :: 52 <= k < 62 ==> a[k] == Digits[k - 52];
    assert a[62] == '_';
    if 'a' <= c <= 'z' {
      assert a[c as int - 'a' as int] == c;
    } else if 'A' <= c <= 'Z' {
      assert a[26 + (c as int - 'A' as int)] == c;
    } else if '0' <= c <= '9' {
      assert a[52 + (c as int - '0' as int)] == c;
    }
    if c in a {
      var k :| 0 <= k < |a| && a[k] == c;
      assert IsPasswordChar(a[k]);
    }
  }

  /**
   * The password that `secrets.choice` draws when its i-th draw picks the
   * alphabet position `draw(i)` (taken modulo the alphabet size).
   */
  function PasswordFrom(draw: nat -> nat): string {
    seq(PasswordLength, i requires 0 <= i < PasswordLength => PasswordAlphabet[draw(i) % |PasswordAlphabet|])
  }

  /** Joins 32 characters drawn from the alphabet. */
  method GeneratePassword(draw: nat -> nat) returns (password: string)
    ensures password == PasswordFrom(draw)
    ensures |password| == PasswordLength
    ensures forall k :: 0 <= k < |password| ==> IsPasswordChar(password[k])
  {
    PasswordAlphabetMembers('_');
    password := "";
    for i := 0 to PasswordLength
      invariant |password| == i
      invariant forall k :: 0 <= k < i ==> password[k] == PasswordAlphabet[draw(k) % |PasswordAlphabet|]
    {
      password := password + [PasswordAlphabet[draw(i) % |PasswordAlphabet|]];
    }
    forall k | 0 <= k < |password|
      ensures IsPasswordChar(password[k])
    {
      PasswordAlphabetMembers(password[k]);
    }
  }

  // ---------------------------------------------------------------------
  // The handler
  // ---------------------------------------------------------------------

  /** The port used when the request names none. */
  const DefaultPort: nat := 5432

  /**
   * The request fields the handler reads; absent optional lists are [], an
   * absent update flag is false, an absent port is None.
   */
  datatype Event = Event(
    serviceAccountName: string,
    databaseName: string,
    permissions: seq<string>,
    tables: seq<string>,
    schemaPermissions: seq<string>,
    databasePrivileges: seq<string>,
    updatePermissions: bool,
    auroraEndpoint: string,
    auroraPort: Option<nat>,
    ssmParameterName: string)

  datatype Body =
    | AlreadyProvisioned(serviceAccount: string, ssmParameter: string)
    | Provisioned(serviceAccount: string, ssmParameter: string,
                  userCreated: bool, passwordUpdated: bool, permissionsUpdated: bool)

  datatype Response = Response(statusCode: int, body: Body)

  /** The parameter exists and no update is asked for: nothing to do. */
  predicate AlreadyDone(ssmExists: bool, update: bool) {
    ssmExists && !update
  }

  predicate MustGeneratePassword(update: bool, userExists: bool, ssmExists: bool) {
    update || !userExists || !ssmExists
  }

  predicate MustResetGrants(userExists: bool, update: bool) {
    !userExists || update
  }

  /** Past the early return a password is always generated, whether or not the role exists. */
  lemma PastEarlyReturnPasswordGenerated(ssmExists: bool, update: bool, userExists: bool)
    requires !AlreadyDone(ssmExists, update)
    ensures MustGeneratePassword(update, userExists, ssmExists)
  {
  }

  function EventPlan(ev: Event): seq<Step> {
    Plan(ev.serviceAccountName, ev.permissions, ev.tables, ev.schemaPermissions, ev.databasePrivileges)
  }

  /** How Python formats an optional password inside an f-string. */
  function PasswordText(password: Option<string>): string {
    password.GetOr("None")
  }

  function ConnectionString(ev: Event, password: Option<string>): string {
    "postgres://" + ev.serviceAccountName + ":" + PasswordText(password) + "@" + ev.auroraEndpoint
      + ":" + Decimal.NatToString(ev.auroraPort.GetOr(DefaultPort)) + "/" + ev.databaseName
  }

  /** The stored connection string carries the new password right after "postgres://<user>:". */
  lemma ConnectionStringCarriesPassword(ev: Event, password: string)
    ensures var c := ConnectionString(ev, Some(password));
      var k := |"postgres://"| + |ev.serviceAccountName| + 1;
      && c[..k] == "postgres://" + ev.serviceAccountName + ":"
      && k + |password| < |c|
      && c[k..k + |password|] == password
      && c[k + |password|] == '@'
  {
    var head := "postgres://" + ev.serviceAccountName + ":";
    var rest := "@" + ev.auroraEndpoint + ":" + Decimal.NatToString(ev.auroraPort.GetOr(DefaultPort)) + "/" + ev.databaseName;
    var c := ConnectionString(ev, Some(password));
    assert c == head + password + rest;
    assert (head + password + rest)[..|head|] == head;
    assert (head + password + rest)[|head|..|head| + |password|] == password;
    assert (head + password + rest)[|head| + |password|] == rest[0];
  }

  function CredentialsDescription(user: string): string {
    "Database service account credentials for " + user
  }

  function CredentialTags(user: string, environment: Option<string>): seq<Ssm.Tag> {
    [Ssm.Tag("ServiceAccount", user), Ssm.Tag("ManagedBy", "terraform"), Ssm.Tag("Environment", environment.GetOr("unknown"))]
  }

  /** The password statement: ALTER for an existing role, CREATE otherwise. */
  function PasswordStatement(user: string, userExists: bool, password: string): Stmt {
    if userExists then AlterPassword(user, password) else CreateUser(user, password)
  }

  /**
   * Builds the put_parameter arguments: Overwrite only when the parameter
   * already exists, Tags only when it does not, so never both.
   */
  method PrepareParameterWrite(ev: Event, connectionString: string, ssmExists: bool, environment: Option<string>)
    returns (req: Ssm.PutRequest)
    ensures req.name == ev.ssmParameterName && req.value == connectionString
    ensures req.kind == Ssm.SecureString && req.description == CredentialsDescription(ev.serviceAccountName)
    ensures req.overwrite == ssmExists
    ensures req.tags.Some? <==> !ssmExists
    ensures !(req.overwrite && req.tags.Some?)
    ensures req.tags.Some? ==> req.tags.value == CredentialTags(ev.serviceAccountName, environment)
  {
    req := Ssm.PutRequest(ev.ssmParameterName, CredentialsDescription(ev.serviceAccountName), connectionString,
                          Ssm.SecureString, ssmExists, None);
    if !ssmExists {
      req := req.(tags := Some(CredentialTags(ev.serviceAccountName, environment)));
    }
  }

  /** The parameter could be read and the early return is not taken. */
  predicate Reconciles(ev: Event, params: map<string, Ssm.Parameter>, getFails: set<string>) {
    ev.ssmParameterName !in getFails && !AlreadyDone(ev.ssmParameterName in params, ev.updatePermissions)
  }

  /** The stored credential after a successful run: overwritten values keep their tags. */
  function StoredCredential(ev: Event, params: map<string, Ssm.Parameter>, password: Option<string>, environment: Option<string>)
    : Ssm.Parameter
  {
    var name := ev.ssmParameterName;
    Ssm.Parameter(ConnectionString(ev, password), Ssm.SecureString, CredentialsDescription(ev.serviceAccountName),
                  if name in params then params[name].tags else CredentialTags(ev.serviceAccountName, environment))
  }

  /**
   * The parameter write at the end of the handler: done when a password was
   * set or an update was asked for on an existing parameter; `ok` is false
   * where put_parameter raises.
   */
  method SaveCredential(ev: Event, store: Ssm.ParameterStore, servicePassword: Option<string>, ssmExists: bool,
                        environment: Option<string>) returns (ok: bool)
    requires ssmExists == (ev.ssmParameterName in store.params)
    modifies store`params
    ensures
      var write := (servicePassword.Some? && servicePassword.value != "") || (ev.updatePermissions && ssmExists);
      && ok == (!write || ev.ssmParameterName !in store.putFails)
      && store.params == if write && ok
                         then old(store.params)[ev.ssmParameterName := StoredCredential(ev, old(store.params), servicePassword, environment)]
                         else old(store.params)
  {
    ok := true;
    if (servicePassword.Some? && servicePassword.value != "") || (ev.updatePermissions && ssmExists) {
      var connectionString := ConnectionString(ev, servicePassword);
      var req := PrepareParameterWrite(ev, connectionString, ssmExists, environment);
      ok := store.PutParameter(req);
    }
  }

  /**
   * The end of a provisioning run whose database work succeeded with a newly
   * generated password: save the connection string and report what was done.
   */
  method SaveAndReport(ev: Event, store: Ssm.ParameterStore, userExists: bool, password: string, ssmExists: bool,
                       environment: Option<string>) returns (r: Result<Response, Failure>)
    requires password != ""
    requires ssmExists == (ev.ssmParameterName in store.params)
    modifies store`params
    ensures ev.ssmParameterName in store.putFails ==>
      && store.params == old(store.params)
      && r == Failure(PutRejected(ev.ssmParameterName))
    ensures ev.ssmParameterName !in store.putFails ==>
      && store.params == old(store.params)[ev.ssmParameterName := StoredCredential(ev, old(store.params), Some(password), environment)]
      && r == Success(Response(200, Provisioned(ev.serviceAccountName, ev.ssmParameterName,
                                                !userExists, true, MustResetGrants(userExists, ev.updatePermissions))))
  {
    var stored := SaveCredential(ev, store, Some(password), ssmExists, environment);
    if !stored {
      return Failure(PutRejected(ev.ssmParameterName));
    }
    r := Success(Response(200, Provisioned(ev.serviceAccountName, ev.ssmParameterName,
                                           !userExists, true, !userExists || ev.updatePermissions)));
  }

  /** The password statement issued, if a password was generated. */
  function PasswordStmts(user: string, userExists: bool, servicePassword: Option<string>): seq<Stmt> {
    if servicePassword.Some? then [PasswordStatement(user, userExists, servicePassword.value)] else []
  }

  /** No password statement was issued, or the server accepted it. */
  predicate PasswordAccepted(user: string, userExists: bool, servicePassword: Option<string>, rejected: set<Stmt>) {
    servicePassword.None? || PasswordStatement(user, userExists, servicePassword.value) !in rejected
  }

  /**
   * The database half of the handler, on an open connection: look the role
   * up, set a fresh password when one is due, then reset the grants when the
   * role is new or an update is asked for.
   */
  method ReconcileRole(ev: Event, db: Database, ssmExists: bool, draw: nat -> nat)
    returns (userExists: bool, servicePassword: Option<string>, failure: Option<Failure>)
    requires db.open
    modifies db`log, db`roles
    ensures db.open
    ensures userExists == (RoleQuery(ev.serviceAccountName) !in db.rejected && ev.serviceAccountName in old(db.roles))
    // The role query raised: nothing more is issued.
    ensures RoleQuery(ev.serviceAccountName) in db.rejected ==>
      && failure == Some(StatementFailed(RoleQuery(ev.serviceAccountName)))
      && db.log == old(db.log) + [RoleQuery(ev.serviceAccountName)]
    ensures RoleQuery(ev.serviceAccountName) !in db.rejected ==>
      servicePassword == if MustGeneratePassword(ev.updatePermissions, userExists, ssmExists)
                         then Some(PasswordFrom(draw)) else None
    // CREATE USER or ALTER USER raised: nothing more is issued.
    ensures
      var user := ev.serviceAccountName;
      RoleQuery(user) !in db.rejected && servicePassword.Some?
        && PasswordStatement(user, userExists, servicePassword.value) in db.rejected ==>
      && failure == Some(StatementFailed(PasswordStatement(user, userExists, servicePassword.value)))
      && db.log == old(db.log) + [RoleQuery(user), PasswordStatement(user, userExists, servicePassword.value)]
    // grant_permissions raised: the run of the plan up to the failing statement.
    ensures
      var user := ev.serviceAccountName;
      var t := Run(EventPlan(ev), db.rejected);
      RoleQuery(user) !in db.rejected && PasswordAccepted(user, userExists, servicePassword, db.rejected)
        && MustResetGrants(userExists, ev.updatePermissions) && !t.completed ==>
      && failure == Some(StatementFailed(t.issued[|t.issued| - 1]))
      && db.log == old(db.log) + [RoleQuery(user)] + PasswordStmts(user, userExists, servicePassword) + [RoleQuery(user)] + t.issued
    // Everything went through.
    ensures
      var user := ev.serviceAccountName;
      var reset := MustResetGrants(userExists, ev.updatePermissions);
      RoleQuery(user) !in db.rejected && PasswordAccepted(user, userExists, servicePassword, db.rejected)
        && (reset ==> Run(EventPlan(ev), db.rejected).completed) ==>
      && failure.None?
      && user in db.roles
      && db.log == old(db.log) + [RoleQuery(user)] + PasswordStmts(user, userExists, servicePassword)
                   + (if reset then [RoleQuery(user)] + Stmts(EventPlan(ev)) else [])
  {
    var user := ev.serviceAccountName;
    var queried: bool;
    queried, userExists := db.RoleExists(user);
    servicePassword := None;
    failure := None;
    if !queried {
      return userExists, servicePassword, Some(StatementFailed(RoleQuery(user)));
    }
    var shouldGeneratePassword := ev.updatePermissions || !userExists || !ssmExists;

    if shouldGeneratePassword {
      var password := GeneratePassword(draw);
      servicePassword := Some(password);
      var ok: bool;
      if userExists {
        ok := db.Execute(AlterPassword(user, password));
      } else {
        ok := db.CreateRole(user, password);
      }
      if !ok {
        return userExists, servicePassword, Some(StatementFailed(PasswordStatement(user, userExists, password)));
      }
    }
    assert db.log == old(db.log) + [RoleQuery(user)] + PasswordStmts(user, userExists, servicePassword);

    if !userExists || ev.updatePermissions {
      var outcome := GrantPermissions(db, user, ev.permissions, ev.tables, ev.schemaPermissions, ev.databasePrivileges);
      if outcome.Fail? {
        return userExists, servicePassword, Some(outcome.error);
      }
      RunCompletes(EventPlan(ev), db.rejected);
    }
  }

  /**
   * ReconcileRole past the handler's early return, where a password is
   * always generated: the role lookup, CREATE or ALTER with the new password,
   * and grant_permissions when the grants are reset; the first error ends the run.
   */
  method ReconcileWithPassword(ev: Event, db: Database, ssmExists: bool, draw: nat -> nat)
    returns (userExists: bool, failure: Option<Failure>)
    requires db.open
    requires !AlreadyDone(ssmExists, ev.updatePermissions)
    modifies db`log, db`roles
    ensures db.open
    ensures userExists == (RoleQuery(ev.serviceAccountName) !in db.rejected && ev.serviceAccountName in old(db.roles))
    // The role query raised: nothing more is issued.
    ensures RoleQuery(ev.serviceAccountName) in db.rejected ==>
      && db.log == old(db.log) + [RoleQuery(ev.serviceAccountName)]
      && failure == Some(StatementFailed(RoleQuery(ev.serviceAccountName)))
    // CREATE USER or ALTER USER raised: nothing more is issued.
    ensures
      var user := ev.serviceAccountName;
      var pw := PasswordStatement(user, user in old(db.roles), PasswordFrom(draw));
      RoleQuery(user) !in db.rejected && pw in db.rejected ==>
      && db.log == old(db.log) + [RoleQuery(user)] + [pw]
      && failure == Some(StatementFailed(pw))
    // grant_permissions raised: the run of the plan up to the failing statement.
    ensures
      var user := ev.serviceAccountName;
      var pw := PasswordStatement(user, user in old(db.roles), PasswordFrom(draw));
      var t := Run(EventPlan(ev), db.rejected);
      RoleQuery(user) !in db.rejected && pw !in db.rejected
        && MustResetGrants(user in old(db.roles), ev.updatePermissions) && !t.completed ==>
      && db.log == old(db.log) + [RoleQuery(user)] + [pw] + [RoleQuery(user)] + t.issued
      && failure == Some(StatementFailed(t.issued[|t.issued| - 1]))
    // Everything went through.
    ensures
      var user := ev.serviceAccountName;
      var pw := PasswordStatement(user, user in old(db.roles), PasswordFrom(draw));
      var reset := MustResetGrants(user in old(db.roles), ev.updatePermissions);
      RoleQuery(user) !in db.rejected && pw !in db.rejected && (reset ==> Run(EventPlan(ev), db.rejected).completed) ==>
      && failure.None?
      && user in db.roles
      && db.log == old(db.log) + [RoleQuery(user)] + [pw] + (if reset then [RoleQuery(user)] + Stmts(EventPlan(ev)) else [])
  {
    ghost var log0 := db.log;
    var servicePassword;
    userExists, servicePassword, failure := ReconcileRole(ev, db, ssmExists, draw);
    var user := ev.serviceAccountName;
    if RoleQuery(user) in db.rejected {
      assert db.log == log0 + [RoleQuery(user)];
      return;
    }
    PastEarlyReturnPasswordGenerated(ssmExists, ev.updatePermissions, userExists);
    assert userExists == (user in old(db.roles));
    assert servicePassword == Some(PasswordFrom(draw));
    ghost var pw := PasswordStatement(user, userExists, PasswordFrom(draw));
    assert PasswordStmts(user, userExists, servicePassword) == [pw];
    assert PasswordAccepted(user, userExists, servicePassword, db.rejected) == (pw !in db.rejected);
  }

  /**
   * The handler past its early return, on the open connection: the role
   * lookup, a new password by CREATE or ALTER, grant_permissions when the
   * grants are reset, and the parameter write; the first error ends the run.
   */
  method ProvisionRole(ev: Event, db: Database, store: Ssm.ParameterStore, ssmExists: bool,
                       environment: Option<string>, draw: nat -> nat)
    returns (r: Result<Response, Failure>)
    requires db.open
    requires ssmExists == (ev.ssmParameterName in store.params)
    requires !AlreadyDone(ssmExists, ev.updatePermissions)
    modifies db`log, db`roles, store`params
    ensures db.open
    ensures r.Failure? ==> store.params == old(store.params)
    // The role query raised: nothing more is issued.
    ensures RoleQuery(ev.serviceAccountName) in db.rejected ==>
      && db.log == old(db.log) + [RoleQuery(ev.serviceAccountName)]
      && r == Failure(StatementFailed(RoleQuery(ev.serviceAccountName)))
    // CREATE USER or ALTER USER raised: nothing more is issued.
    ensures
      var user := ev.serviceAccountName;
      var pw := PasswordStatement(user, user in old(db.roles), PasswordFrom(draw));
      RoleQuery(user) !in db.rejected && pw in db.rejected ==>
      && db.log == old(db.log) + [RoleQuery(user)] + [pw]
      && r == Failure(StatementFailed(pw))
    // grant_permissions raised: the run of the plan up to the failing statement.
    ensures
      var user := ev.serviceAccountName;
      var pw := PasswordStatement(user, user in old(db.roles), PasswordFrom(draw));
      var t := Run(EventPlan(ev), db.rejected);
      RoleQuery(user) !in db.rejected && pw !in db.rejected
        && MustResetGrants(user in old(db.roles), ev.updatePermissions) && !t.completed ==>
      && db.log == old(db.log) + [RoleQuery(user)] + [pw] + [RoleQuery(user)] + t.issued
      && r == Failure(StatementFailed(t.issued[|t.issued| - 1]))
    // The database work succeeded: the parameter write decides the outcome.
    ensures
      var user := ev.serviceAccountName;
      var userExists := user in old(db.roles);
      var pw := PasswordStatement(user, userExists, PasswordFrom(draw));
      var reset := MustResetGrants(userExists, ev.updatePermissions);
      RoleQuery(user) !in db.rejected && pw !in db.rejected && (reset ==> Run(EventPlan(ev), db.rejected).completed) ==>
      && user in db.roles
      && db.log == old(db.log) + [RoleQuery(user)] + [pw] + (if reset then [RoleQuery(user)] + Stmts(EventPlan(ev)) else [])
      && (ev.ssmParameterName in store.putFails ==> r == Failure(PutRejected(ev.ssmParameterName)))
      && (ev.ssmParameterName !in store.putFails ==>
            && store.params == old(store.params)[ev.ssmParameterName := StoredCredential(ev, old(store.params), Some(PasswordFrom(draw)), environment)]
            && r == Success(Response(200, Provisioned(user, ev.ssmParameterName, !userExists, true, reset))))
  {
    var userExists, failure := ReconcileWithPassword(ev, db, ssmExists, draw);
    if failure.Some? {
      return Failure(failure.value);
    }
    r := SaveAndReport(ev, store, userExists, PasswordFrom(draw), ssmExists, environment);
  }

  /**
   * lambda_handler: provisions or updates the service account named by `ev`.
   * `environment` is the ENVIRONMENT variable, `draw` the random choices.
   */
  method Provision(ev: Event, db: Database, store: Ssm.ParameterStore, environment: Option<string>, draw: nat -> nat)
    returns (r: Result<Response, Failure>)
    requires !db.open
    modifies db`log, db`roles, db`open, db`connections, store`params
    ensures !db.open
    ensures r.Failure? ==> store.params == old(store.params)
    // The lookup raised: nothing else happens.
    ensures ev.ssmParameterName in store.getFails ==>
      && r == Failure(StoreUnavailable(ev.ssmParameterName))
      && db.log == old(db.log) && db.connections == old(db.connections)
    // Already provisioned and no update asked for: 200 without touching the database.
    ensures ev.ssmParameterName !in store.getFails && AlreadyDone(ev.ssmParameterName in old(store.params), ev.updatePermissions) ==>
      && r == Success(Response(200, AlreadyProvisioned(ev.serviceAccountName, ev.ssmParameterName)))
      && db.log == old(db.log) && db.connections == old(db.connections) && store.params == old(store.params)
    // Otherwise: one connection, then the cases below, the first error ending the run.
    ensures Reconciles(ev, old(store.params), store.getFails) ==> db.connections == old(db.connections) + 1
    // The role query raised: nothing more is issued.
    ensures Reconciles(ev, old(store.params), store.getFails) && RoleQuery(ev.serviceAccountName) in db.rejected ==>
      && db.log == old(db.log) + [RoleQuery(ev.serviceAccountName)]
      && r == Failure(StatementFailed(RoleQuery(ev.serviceAccountName)))
    // CREATE USER or ALTER USER raised: nothing more is issued.
    ensures
      var user := ev.serviceAccountName;
      var pw := PasswordStatement(user, user in old(db.roles), PasswordFrom(draw));
      Reconciles(ev, old(store.params), store.getFails) && RoleQuery(user) !in db.rejected && pw in db.rejected ==>
      && db.log == old(db.log) + [RoleQuery(user)] + [pw]
      && r == Failure(StatementFailed(pw))
    // grant_permissions raised: the run of the plan up to the failing statement.
    ensures
      var user := ev.serviceAccountName;
      var pw := PasswordStatement(user, user in old(db.roles), PasswordFrom(draw));
      var t := Run(EventPlan(ev), db.rejected);
      Reconciles(ev, old(store.params), store.getFails) && RoleQuery(user) !in db.rejected && pw !in db.rejected
        && MustResetGrants(user in old(db.roles), ev.updatePermissions) && !t.completed ==>
      && db.log == old(db.log) + [RoleQuery(user)] + [pw] + [RoleQuery(user)] + t.issued
      && r == Failure(StatementFailed(t.issued[|t.issued| - 1]))
    // The database work succeeded: the parameter write decides the outcome.
    ensures
      var user := ev.serviceAccountName;
      var userExists := user in old(db.roles);
      var pw := PasswordStatement(user, userExists, PasswordFrom(draw));
      var reset := MustResetGrants(userExists, ev.updatePermissions);
      Reconciles(ev, old(store.params), store.getFails) && RoleQuery(user) !in db.rejected && pw !in db.rejected && (reset ==> Run(EventPlan(ev), db.rejected).completed) ==>
      && user in db.roles
      && db.log == old(db.log) + [RoleQuery(user)] + [pw] + (if reset then [RoleQuery(user)] + Stmts(EventPlan(ev)) else [])
      && (ev.ssmParameterName in store.putFails ==> r == Failure(PutRejected(ev.ssmParameterName)))
      && (ev.ssmParameterName !in store.putFails ==>
            && store.params == old(store.params)[ev.ssmParameterName := StoredCredential(ev, old(store.params), Some(PasswordFrom(draw)), environment)]
            && r == Success(Response(200, Provisioned(user, ev.ssmParameterName, !userExists, true, reset))))
  {
    var lookup := store.GetParameter(ev.ssmParameterName);
    if lookup.Unavailable? {
      return Failure(StoreUnavailable(ev.ssmParameterName));
    }
    var ssmExists := lookup.Found?;
    if ssmExists && !ev.updatePermissions {
      return Success(Response(200, AlreadyProvisioned(ev.serviceAccountName, ev.ssmParameterName)));
    }

    db.Connect();
    r := ProvisionRole(ev, db, store, ssmExists, environment, draw);
    db.Close();
  }
}
