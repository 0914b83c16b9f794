/** The SQL scripts of the database access manager and what psql and PostgreSQL make of them.  The job
    starts psql in the admin's database, where a failing statement is passed over; a script switches
    to the user's own database, and to stopping at the first failure, by statements of its own. */
module DatabaseScript {
  import opened Common

  type Schema = string
  type Grant = string

  datatype Access = Access(schema: Schema, grants: seq<Grant>)

  datatype Def = Def(database: string, username: string, access: seq<Access>, delete: bool)

  /** Statements about the one user of the script; table privileges are on all tables of a schema.
      `StopOnError` and `Connect` are psql's ON_ERROR_STOP switch and its change to the user's database. */
  datatype Statement =
    | StopOnError
    | Connect
    | CreateUser(password: string)
    | GrantConnect
    | CreateSchema(schema: Schema)
    | RevokeAll(schema: Schema)
    | Revoke(privilege: Grant, schema: Schema)
    | GrantTo(grants: seq<Grant>, schema: Schema)
    | ReassignOwned
    | DropRole

  /** What the user holds in one database, and the schemas there are. */
  datatype Database = Database(held: set<(Schema, Grant)>, schemas: set<Schema>)

  /** `role` is the user's password if the role exists; `connect` says whether it was granted CONNECT on
      its own database.  The own and the admin's database are different ones. */
  datatype Db = Db(role: Option<string>, connect: bool, own: Database, admin: Database)

  datatype Session = Session(inOwn: bool, stops: bool)

  /** How the job starts psql. */
  const START := Session(false, false)

  /** How the script goes on after it has switched both. */
  const SWITCHED := Session(true, true)

  function AllOf(schema: Schema, held: set<(Schema, Grant)>): set<(Schema, Grant)> {
    set p | p in held && p.0 == schema
  }

  function Pairs(schema: Schema, grants: seq<Grant>): set<(Schema, Grant)> {
    set g | g in grants :: (schema, g)
  }

  /** The database the session is connected to. */
  function Here(db: Db, n: Session): Database {
    if n.inOwn then db.own else db.admin
  }

  function PutHere(db: Db, n: Session, d: Database): Db {
    if n.inOwn then db.(own := d) else db.(admin := d)
  }

  /** A role that still has a privilege anywhere in the cluster cannot be dropped. */
  predicate HoldsNothing(db: Db) {
    !db.connect && db.own.held == {} && db.admin.held == {}
  }

  predicate IsExecutable(db: Db, n: Session, s: Statement) {
    match s
    case StopOnError => true
    case Connect => true
    case CreateUser(_) => true
    case GrantConnect => db.role.Some?
    case CreateSchema(_) => db.role.Some?
    case RevokeAll(schema) => db.role.Some? && schema in Here(db, n).schemas
    case Revoke(_, schema) => db.role.Some? && schema in Here(db, n).schemas
    case GrantTo(grants, schema) => db.role.Some? && schema in Here(db, n).schemas && grants != []
    case ReassignOwned => db.role.Some?
    case DropRole => db.role.Some? ==> HoldsNothing(db)
  }

  function Execute(db: Db, n: Session, s: Statement): Db {
    var d := Here(db, n);
    match s
    case StopOnError => db
    case Connect => db
    case CreateUser(password) => db.(role := Some(password))
    case GrantConnect => db.(connect := true)
    case CreateSchema(schema) => PutHere(db, n, d.(schemas := d.schemas + {schema}))
    case RevokeAll(schema) => PutHere(db, n, d.(held := d.held - AllOf(schema, d.held)))
    case Revoke(grant, schema) => PutHere(db, n, d.(held := d.held - {(schema, grant)}))
    case GrantTo(grants, schema) => PutHere(db, n, d.(held := d.held + Pairs(schema, grants)))
    case ReassignOwned => db
    case DropRole => db.(role := None)
  }

  function Switch(n: Session, s: Statement): Session {
    match s
    case StopOnError => n.(stops := true)
    case Connect => n.(inOwn := true)
    case _ => n
  }

  /** `ok` is false when the session has stopped at a failing statement. */
  datatype Outcome = Outcome(db: Db, session: Session, ok: bool)

  function Run(db: Db, n: Session, script: seq<Statement>): Outcome
    decreases |script|
  {
    if script == [] then Outcome(db, n, true)
    else if IsExecutable(db, n, script[0]) then Run(Execute(db, n, script[0]), Switch(n, script[0]), script[1..])
    else if n.stops then Outcome(db, n, false)
    else Run(db, n, script[1..])
  }

  // --- Generating -----------------------------------------------------------------------

  /** The dictionary built from an access list: the last entry of a schema wins. */
  function GrantsOf(access: seq<Access>, schema: Schema): Option<seq<Grant>> {
    if access == [] then None
    else if access[|access| - 1].schema == schema then Some(access[|access| - 1].grants)
    else GrantsOf(access[..|access| - 1], schema)
  }

  function Wanted(access: seq<Access>): set<(Schema, Grant)> {
    set a, g | a in access && g in a.grants :: (a.schema, g)
  }

  /** `_db_access_access_is_valid` */
  ghost predicate IsValid(access: seq<Access>) {
    forall i, j :: 0 <= i < j < |access| ==> access[i].schema != access[j].schema
  }

  /** `_generate_revoke_changed` must take this privilege away: its schema is no longer listed, or it
      is recorded for the schema and no longer wanted there. */
  predicate IsObsolete(recorded: seq<Access>, access: seq<Access>, p: (Schema, Grant)) {
    var was, now := GrantsOf(recorded, p.0), GrantsOf(access, p.0);
    was.Some? && (now.None? || (p.1 in was.value && p.1 !in now.value))
  }

  /** The revocations, in any order: REVOKE ALL for every schema that is gone, REVOKE for every grant
      that is gone from a schema that stays. */
  ghost predicate IsRevokeChanged(script: seq<Statement>, recorded: seq<Access>, access: seq<Access>) {
    forall s :: s in script <==>
      match s
      case RevokeAll(schema) => GrantsOf(recorded, schema).Some? && GrantsOf(access, schema).None?
      case Revoke(grant, schema) => GrantsOf(access, schema).Some? && IsObsolete(recorded, access, (schema, grant))
      case _ => false
  }

  function Grants(access: seq<Access>): seq<Statement> {
    if access == [] then [] else [GrantTo(access[0].grants, access[0].schema)] + Grants(access[1..])
  }

  function RevokeListed(access: seq<Access>): seq<Statement> {
    if access == [] then [] else [RevokeAll(access[0].schema)] + RevokeListed(access[1..])
  }

  /** The head of a provisioning script: stop on errors, connect, create the user and its schema. */
  function CreateUserScript(username: string, password: string): seq<Statement> {
    [StopOnError, Connect, CreateUser(password), GrantConnect, CreateSchema(username)]
  }

  /** A provisioning script with these revocations in the middle. */
  function Provision(username: string, password: string, revokes: seq<Statement>, access: seq<Access>): seq<Statement> {
    CreateUserScript(username, password) + (revokes + Grants(access))
  }

  /** A deprovisioning script revokes before it switches to the user's database and to stopping. */
  function Deprovision(access: seq<Access>): seq<Statement> {
    RevokeListed(access) + [StopOnError, Connect, ReassignOwned, DropRole]
  }

  // --- Execution, list by list ----------------------------------------------------------

  lemma {:induction false} RunConcat(db: Db, n: Session, a: seq<Statement>, b: seq<Statement>)
    ensures Run(db, n, a + b) == if Run(db, n, a).ok then Run(Run(db, n, a).db, Run(db, n, a).session, b) else Run(db, n, a)
    decreases |a|
  {
    if a == [] {
      assert a + b == b;
    } else {
      assert (a + b)[0] == a[0] && (a + b)[1..] == a[1..] + b;
      if IsExecutable(db, n, a[0]) {
        RunConcat(Execute(db, n, a[0]), Switch(n, a[0]), a[1..], b);
      } else if !n.stops {
        RunConcat(db, n, a[1..], b);
      }
    }
  }

  predicate IsRevoke(s: Statement) {
    s.RevokeAll? || s.Revoke?
  }

  ghost predicate TakesAway(script: seq<Statement>, p: (Schema, Grant)) {
    RevokeAll(p.0) in script || Revoke(p.1, p.0) in script
  }

  /** Two states differ at most in the table privileges and schemas of the user's own database. */
  ghost predicate OnlyOwn(db: Db, db': Db) {
    db'.role == db.role && db'.connect == db.connect && db'.admin == db.admin
  }

  /** Revocations in the user's database succeed exactly when all their schemas exist, and take away
      what they name. */
  lemma {:induction false} RunRevokes(db: Db, script: seq<Statement>)
    requires db.role.Some? && forall s :: s in script ==> IsRevoke(s)
    ensures var r := Run(db, SWITCHED, script);
            && (r.ok <==> forall s :: s in script && IsRevoke(s) ==> s.schema in db.own.schemas)
            && OnlyOwn(db, r.db) && r.db.own.schemas == db.own.schemas && r.session == SWITCHED
            && r.db.own.held <= db.own.held
            && (r.ok ==> forall p :: p in r.db.own.held <==> p in db.own.held && !TakesAway(script, p))
    decreases |script|
  {
    if script != [] {
      assert script[0] in script;
      if IsExecutable(db, SWITCHED, script[0]) {
        RunRevokes(Execute(db, SWITCHED, script[0]), script[1..]);
        forall p ensures TakesAway(script, p) <==> TakesAway([script[0]], p) || TakesAway(script[1..], p) {}
      }
    }
  }

  /** Grants in the user's database succeed exactly when none is empty and all their schemas exist, and
      add what they name. */
  lemma {:induction false} RunGrants(db: Db, access: seq<Access>)
    requires db.role.Some?
    ensures var r := Run(db, SWITCHED, Grants(access));
            && (r.ok <==> forall a :: a in access ==> a.grants != [] && a.schema in db.own.schemas)
            && OnlyOwn(db, r.db) && r.db.own.schemas == db.own.schemas
            && r.db.own.held <= db.own.held + Wanted(access)
            && (r.ok ==> r.db.own.held == db.own.held + Wanted(access))
    decreases |access|
  {
    if access != [] {
      var a, s := access[0], GrantTo(access[0].grants, access[0].schema);
      assert a in access && Grants(access)[1..] == Grants(access[1..]);
      WantedCons(access);
      if IsExecutable(db, SWITCHED, s) { RunGrants(Execute(db, SWITCHED, s), access[1..]); }
    }
  }

  lemma WantedCons(access: seq<Access>)
    requires access != []
    ensures Wanted(access) == Pairs(access[0].schema, access[0].grants) + Wanted(access[1..])
  {
    forall p ensures p in Wanted(access) <==> p in Pairs(access[0].schema, access[0].grants) || p in Wanted(access[1..]) {
      if p in Wanted(access) {
        var a :| a in access && p.1 in a.grants && p.0 == a.schema;
        assert a == access[0] || a in access[1..];
      }
    }
  }

  lemma {:induction false} LastWins(access: seq<Access>, schema: Schema)
    requires IsValid(access)
    ensures GrantsOf(access, schema).Some? <==> exists a :: a in access && a.schema == schema
    ensures forall a :: a in access && a.schema == schema ==> GrantsOf(access, schema) == Some(a.grants)
  {
    if access != [] {
      var n := |access| - 1;
      LastWins(access[..n], schema);
      assert access == access[..n] + [access[n]];
      forall a | a in access[..n] && a.schema == schema ensures a.schema != access[n].schema {
        var i :| 0 <= i < n && access[i] == a;
      }
    }
  }

  /** With one entry per schema, a privilege is wanted exactly when the dictionary has it. */
  lemma WantedIs(access: seq<Access>, p: (Schema, Grant))
    requires IsValid(access)
    ensures p in Wanted(access) <==> GrantsOf(access, p.0).Some? && p.1 in GrantsOf(access, p.0).value
  {
    LastWins(access, p.0);
  }

  // --- What a provisioning script does --------------------------------------------------

  /** Every schema the script names is there - the user's own one is made - and no grant list is empty. */
  ghost predicate IsRunnable(db: Db, username: string, revokes: seq<Statement>, access: seq<Access>) {
    && (forall s :: s in revokes && IsRevoke(s) ==> s.schema in db.own.schemas + {username})
    && (forall a :: a in access ==> a.grants != [] && a.schema in db.own.schemas + {username})
  }

  /** The state once the head of a provisioning script has run. */
  function WithUser(db: Db, username: string, password: string): Db {
    db.(role := Some(password), connect := true, own := db.own.(schemas := db.own.schemas + {username}))
  }

  lemma RunCreateUser(db: Db, username: string, password: string)
    ensures Run(db, START, CreateUserScript(username, password)) == Outcome(WithUser(db, username, password), SWITCHED, true)
  {
    var head := CreateUserScript(username, password);
    var n := Session(false, true);
    var db1 := db.(role := Some(password));
    var db2 := db1.(connect := true);
    assert head[1..] == [Connect, CreateUser(password), GrantConnect, CreateSchema(username)];
    assert head[1..][1..] == [CreateUser(password), GrantConnect, CreateSchema(username)];
    assert head[1..][1..][1..] == [GrantConnect, CreateSchema(username)];
    assert head[1..][1..][1..][1..] == [CreateSchema(username)];
    assert Run(db2, SWITCHED, [CreateSchema(username)]) == Outcome(WithUser(db, username, password), SWITCHED, true);
    assert Run(db1, SWITCHED, [GrantConnect, CreateSchema(username)]) == Run(db2, SWITCHED, [CreateSchema(username)]);
    assert Run(db, SWITCHED, head[1..][1..]) == Run(db1, SWITCHED, [GrantConnect, CreateSchema(username)]);
    assert Run(db, n, head[1..]) == Run(db, SWITCHED, head[1..][1..]);
  }

  /** The script succeeds exactly when it is runnable.  Then it sets the password, and what is held is
      what was held minus the obsolete privileges, plus the wanted ones. */
  lemma ProvisionEffect(db: Db, username: string, password: string, revokes: seq<Statement>, recorded: seq<Access>, access: seq<Access>)
    requires IsRevokeChanged(revokes, recorded, access) && IsValid(access)
    ensures var r := Run(db, START, Provision(username, password, revokes, access));
            && (r.ok <==> IsRunnable(db, username, revokes, access))
            && r.db.role == Some(password) && r.db.connect && r.db.admin == db.admin
            && r.db.own.schemas == db.own.schemas + {username}
            && r.db.own.held <= db.own.held + Wanted(access)
            && (r.ok ==> forall p :: p in r.db.own.held <==> p in Wanted(access) || (p in db.own.held && !IsObsolete(recorded, access, p)))
  {
    var head := CreateUserScript(username, password);
    var db1 := WithUser(db, username, password);
    RunCreateUser(db, username, password);
    RunConcat(db, START, head, revokes + Grants(access));
    RunConcat(db1, SWITCHED, revokes, Grants(access));
    forall s | s in revokes ensures IsRevoke(s) {}
    RunRevokes(db1, revokes);
    RunGrants(Run(db1, SWITCHED, revokes).db, access);
    forall p ensures TakesAway(revokes, p) <==> IsObsolete(recorded, access, p) {
      assert RevokeAll(p.0) in revokes <==> GrantsOf(recorded, p.0).Some? && GrantsOf(access, p.0).None?;
      assert Revoke(p.1, p.0) in revokes <==> GrantsOf(access, p.0).Some? && IsObsolete(recorded, access, p);
    }
  }

  /** Every privilege held and not wanted lies in a recorded schema, and is recorded there or the schema
      is no longer listed: the revocations take it away. */
  ghost predicate Covers(recorded: seq<Access>, access: seq<Access>, held: set<(Schema, Grant)>) {
    forall p :: p in held && p !in Wanted(access) ==> IsObsolete(recorded, access, p)
  }

  /** The exact condition: a successful script leaves precisely the wanted privileges if and only if the
      revocations cover every other privilege held. */
  lemma ProvisionExactIff(db: Db, username: string, password: string, revokes: seq<Statement>, recorded: seq<Access>, access: seq<Access>)
    requires IsRevokeChanged(revokes, recorded, access) && IsValid(access) && IsRunnable(db, username, revokes, access)
    ensures Run(db, START, Provision(username, password, revokes, access)).db.own.held == Wanted(access)
      <==> Covers(recorded, access, db.own.held)
  {
    ProvisionEffect(db, username, password, revokes, recorded, access);
  }

  /** Whatever is recorded or wanted is covered. */
  lemma WithinIsCovered(recorded: seq<Access>, access: seq<Access>, held: set<(Schema, Grant)>)
    requires IsValid(access) && IsValid(recorded) && held <= Wanted(recorded) + Wanted(access)
    ensures Covers(recorded, access, held)
  {
    forall p | p in held && p !in Wanted(access) ensures IsObsolete(recorded, access, p) {
      WantedIs(recorded, p);
      WantedIs(access, p);
    }
  }

  /** So a database holding at most what is recorded or wanted ends up with exactly what is wanted. */
  lemma ProvisionExact(db: Db, username: string, password: string, revokes: seq<Statement>, recorded: seq<Access>, access: seq<Access>)
    requires IsRevokeChanged(revokes, recorded, access) && IsValid(access) && IsValid(recorded)
    requires IsRunnable(db, username, revokes, access) && db.own.held <= Wanted(recorded) + Wanted(access)
    ensures Run(db, START, Provision(username, password, revokes, access)).db.own.held == Wanted(access)
  {
    WithinIsCovered(recorded, access, db.own.held);
    ProvisionExactIff(db, username, password, revokes, recorded, access);
  }

  /** Nothing short of the whole script ever grants more in the user's database than what was held or
      is wanted. */
  lemma {:induction false} PartialBound(db: Db, n: Session, script: seq<Statement>, k: nat, most: set<(Schema, Grant)>)
    requires k <= |script| && db.own.held <= most
    requires forall s :: s in script && s.GrantTo? ==> Pairs(s.schema, s.grants) <= most
    ensures Run(db, n, script[..k]).db.own.held <= most
    decreases k
  {
    if k > 0 {
      assert script[0] in script && script[..k][1..] == script[1..][..k - 1];
      if IsExecutable(db, n, script[0]) {
        PartialBound(Execute(db, n, script[0]), Switch(n, script[0]), script[1..], k - 1, most);
      } else if !n.stops {
        PartialBound(db, n, script[1..], k - 1, most);
      }
    }
  }

  // --- What a deprovisioning script does ------------------------------------------------

  ghost predicate IsListed(access: seq<Access>, schema: Schema) {
    exists a :: a in access && a.schema == schema
  }

  /** What the listed revocations leave in the admin's database, where they run. */
  function LeftInAdmin(db: Db, access: seq<Access>): set<(Schema, Grant)> {
    set p | p in db.admin.held && !(db.role.Some? && p.0 in db.admin.schemas && exists i | 0 <= i < |access| :: access[i].schema == p.0)
  }

  /** The revocations of a removal run in the admin's database, where a failing one is passed over: they
      always go through and change nothing in the user's own database. */
  lemma {:induction false} RunListed(db: Db, access: seq<Access>)
    ensures Run(db, START, RevokeListed(access))
      == Outcome(db.(admin := db.admin.(held := LeftInAdmin(db, access))), START, true)
    decreases |access|
  {
    if access == [] {
      assert LeftInAdmin(db, access) == db.admin.held;
    } else {
      var s := RevokeAll(access[0].schema);
      var db1 := if IsExecutable(db, START, s) then Execute(db, START, s) else db;
      assert RevokeListed(access)[1..] == RevokeListed(access[1..]);
      RunListed(db1, access[1..]);
      forall p ensures p in LeftInAdmin(db1, access[1..]) <==> p in LeftInAdmin(db, access) { LeftCons(db, db1, access, p); }
    }
  }

  lemma LeftCons(db: Db, db1: Db, access: seq<Access>, p: (Schema, Grant))
    requires access != []
    requires db1 == if IsExecutable(db, START, RevokeAll(access[0].schema)) then Execute(db, START, RevokeAll(access[0].schema)) else db
    ensures p in LeftInAdmin(db1, access[1..]) <==> p in LeftInAdmin(db, access)
  {
    if i :| 0 <= i < |access| && access[i].schema == p.0 {
      if i > 0 { assert access[1..][i - 1].schema == p.0; }
    }
    if i :| 0 <= i < |access[1..]| && access[1..][i].schema == p.0 { assert access[i + 1].schema == p.0; }
  }

  lemma RunRemoval(db: Db)
    ensures var r := Run(db, START, [StopOnError, Connect, ReassignOwned, DropRole]);
            && (r.ok <==> db.role.Some? && HoldsNothing(db))
            && r.db == if r.ok then db.(role := None) else db
  {
    var n := Session(false, true);
    assert [StopOnError, Connect, ReassignOwned, DropRole][1..] == [Connect, ReassignOwned, DropRole];
    assert [Connect, ReassignOwned, DropRole][1..] == [ReassignOwned, DropRole];
    assert [ReassignOwned, DropRole][1..] == [DropRole] && [DropRole][1..] == [];
    assert Run(db, START, [StopOnError, Connect, ReassignOwned, DropRole]) == Run(db, n, [Connect, ReassignOwned, DropRole]);
    assert Run(db, n, [Connect, ReassignOwned, DropRole]) == Run(db, SWITCHED, [ReassignOwned, DropRole]);
    if db.role.Some? { assert Run(db, SWITCHED, [ReassignOwned, DropRole]) == Run(db, SWITCHED, [DropRole]); }
  }

  /** The exact condition for a removal: it succeeds, and the role goes, if and only if the role is
      there, has no CONNECT and holds nothing in its own database - whatever the definition lists - and
      what it holds in the admin's database lies in existing, listed schemas.  Either way nothing is
      revoked in the user's own database. */
  lemma DeprovisionIff(db: Db, access: seq<Access>)
    ensures var r := Run(db, START, Deprovision(access));
            && (r.ok <==>
                  && db.role.Some? && !db.connect && db.own.held == {}
                  && forall p :: p in db.admin.held ==> p.0 in db.admin.schemas && IsListed(access, p.0))
            && r.db.role == (if r.ok then None else db.role)
            && r.db.own == db.own && r.db.connect == db.connect
  {
    var tail := [StopOnError, Connect, ReassignOwned, DropRole];
    var db1 := db.(admin := db.admin.(held := LeftInAdmin(db, access)));
    RunListed(db, access);
    RunConcat(db, START, RevokeListed(access), tail);
    RunRemoval(db1);
    if db.role.Some? {
      forall p | p in db.admin.held ensures p in db1.admin.held <==> !(p.0 in db.admin.schemas && IsListed(access, p.0)) {
        if IsListed(access, p.0) {
          var a :| a in access && a.schema == p.0;
          var i :| 0 <= i < |access| && access[i] == a;
        }
      }
      if db1.admin.held != {} {
        var p :| p in db1.admin.held;
        assert p in db.admin.held;
      }
    }
  }

  /** For a user without CONNECT and without privileges in the admin's database it comes down to this: the
      removal succeeds if and only if the user holds nothing in its own database, whatever is listed. */
  lemma RemovalIgnoresTheList(db: Db, access: seq<Access>)
    requires db.role.Some? && !db.connect && db.admin.held == {}
    ensures Run(db, START, Deprovision(access)).ok <==> db.own.held == {}
  {
    DeprovisionIff(db, access);
  }

  /** A user with one privilege, in a schema that exists and is listed, is not removed. */
  lemma RemovalFails()
    ensures var db := Db(Some("pw"), false, Database({("s", "SELECT")}, {"s"}), Database({}, {}));
            var r := Run(db, START, Deprovision([Access("s", ["SELECT"])]));
            !r.ok && r.db == db
  {
    var db := Db(Some("pw"), false, Database({("s", "SELECT")}, {"s"}), Database({}, {}));
    var access := [Access("s", ["SELECT"])];
    DeprovisionIff(db, access);
    RunListed(db, access);
    RunConcat(db, START, RevokeListed(access), [StopOnError, Connect, ReassignOwned, DropRole]);
    assert LeftInAdmin(db, access) == {};
    RunRemoval(db);
    assert ("s", "SELECT") in db.own.held;
  }

  /** A user without privileges is removed although the definition lists a schema that does not exist. */
  lemma RemovalPassesOverErrors()
    ensures var db := Db(Some("pw"), false, Database({}, {}), Database({}, {}));
            var r := Run(db, START, Deprovision([Access("s", ["SELECT"])]));
            r.ok && r.db.role == None
  {
    DeprovisionIff(Db(Some("pw"), false, Database({}, {}), Database({}, {})), [Access("s", ["SELECT"])]);
  }

  /** No user that was provisioned is ever removed: CONNECT is granted and never revoked, not even by
      later definitions, so the removal fails whatever it lists. */
  lemma ProvisionedUserStays(db: Db, username: string, password: string, revokes: seq<Statement>, recorded: seq<Access>,
                             access: seq<Access>, listed: seq<Access>)
    requires IsRevokeChanged(revokes, recorded, access) && IsValid(access)
    ensures var provisioned := Run(db, START, Provision(username, password, revokes, access)).db;
            var r := Run(provisioned, START, Deprovision(listed));
            !r.ok && r.db.role == Some(password) && r.db.own == provisioned.own
  {
    ProvisionEffect(db, username, password, revokes, recorded, access);
    DeprovisionIff(Run(db, START, Provision(username, password, revokes, access)).db, listed);
  }

  /** No script takes CONNECT away. */
  lemma {:induction false} ConnectStays(db: Db, n: Session, script: seq<Statement>)
    requires db.connect
    ensures Run(db, n, script).db.connect
    decreases |script|
  {
    if script != [] {
      if IsExecutable(db, n, script[0]) {
        ConnectStays(Execute(db, n, script[0]), Switch(n, script[0]), script[1..]);
      } else if !n.stops {
        ConnectStays(db, n, script[1..]);
      }
    }
  }

  // --- Building the scripts -------------------------------------------------------------

  /** `_db_access_access_is_valid` */
  method AccessIsValid(access: seq<Access>) returns (valid: bool)
    ensures valid <==> IsValid(access)
  {
    var found: set<Schema> := {};
    for k := 0 to |access|
      invariant IsValid(access[..k])
      invariant forall s :: s in found <==> exists i :: 0 <= i < k && access[i].schema == s
    {
      if access[k].schema in found {
        return false;
      }
      found := found + {access[k].schema};
    }
    assert access[..|access|] == access;
    return true;
  }

  /** The keys of the dictionary built from an access list, in insertion order. */
  method Schemas(access: seq<Access>) returns (keys: seq<Schema>)
    ensures forall s :: s in keys <==> GrantsOf(access, s).Some?
  {
    keys := [];
    for k := 0 to |access|
      invariant forall s :: s in keys <==> GrantsOf(access[..k], s).Some?
    {
      assert access[..k + 1][..k] == access[..k] && access[..k + 1][k] == access[k];
      if access[k].schema !in keys { keys := keys + [access[k].schema]; }
    }
    assert access[..|access|] == access;
  }

  /** `_generate_revoke_changed`: nothing without a recorded definition. */
  method GenerateRevokeChanged(current: Option<seq<Access>>, access: seq<Access>) returns (statements: seq<Statement>)
    ensures IsRevokeChanged(statements, if current.Some? then current.value else [], access)
  {
    statements := [];
    if current == None { return; }
    var recorded := current.value;
    var keys := Schemas(recorded);
    for k := 0 to |keys|
      invariant forall s :: s in statements <==> IsRevoked(recorded, access, keys[..k], s)
    {
      var schema := keys[k];
      ghost var before := statements;
      assert keys[..k + 1] == keys[..k] + [schema];
      if GrantsOf(access, schema) == None {
        statements := statements + [RevokeAll(schema)];
      } else {
        var gone := RevokeGone(schema, GrantsOf(recorded, schema).value, GrantsOf(access, schema).value);
        statements := statements + gone;
      }
    }
    assert keys[..|keys|] == keys;
  }

  ghost predicate IsRevoked(recorded: seq<Access>, access: seq<Access>, keys: seq<Schema>, s: Statement) {
    match s
    case RevokeAll(schema) => schema in keys && GrantsOf(access, schema).None?
    case Revoke(grant, schema) => schema in keys && GrantsOf(access, schema).Some? && IsObsolete(recorded, access, (schema, grant))
    case _ => false
  }

  /** One REVOKE for each grant of the set difference, in any order. */
  method RevokeGone(schema: Schema, was: seq<Grant>, now: seq<Grant>) returns (statements: seq<Statement>)
    ensures forall s :: s in statements <==> s.Revoke? && s.schema == schema && s.privilege in was && s.privilege !in now
  {
    statements := [];
    var gone := set g | g in was && g !in now;
    var todo := gone;
    while todo != {}
      invariant todo <= gone
      invariant forall s :: s in statements <==> s.Revoke? && s.schema == schema && s.privilege in gone - todo
    {
      var g :| g in todo;
      todo := todo - {g};
      statements := statements + [Revoke(g, schema)];
    }
  }

  /** `generate_script` */
  method GenerateScript(def: Def, current: Option<seq<Access>>, password: string) returns (script: seq<Statement>)
    ensures IsScriptFor(script, def, current, password)
  {
    if def.delete {
      script := Deprovision(def.access);
    } else {
      var revokes := GenerateRevokeChanged(current, def.access);
      script := Provision(def.username, password, revokes, def.access);
    }
  }

  ghost predicate IsScriptFor(script: seq<Statement>, def: Def, current: Option<seq<Access>>, password: string) {
    if def.delete then script == Deprovision(def.access)
    else exists revokes ::
      && IsRevokeChanged(revokes, if current.Some? then current.value else [], def.access)
      && script == Provision(def.username, password, revokes, def.access)
  }
}
