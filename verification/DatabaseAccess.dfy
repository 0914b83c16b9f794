/** The life of one database access: passes that create a job, wait for it, hand its password to
    Vault, clean up and record the definition - and the job that runs in between. */
module DatabaseAccess {
  import opened Common
  import opened DatabaseScript

  datatype Conn = Conn(user: string, database: string, password: string)

  /** The script secret: what it was generated from. */
  datatype Script = Script(def: Def, recorded: seq<Access>, revokes: seq<Statement>, password: string)

  /** What the conditions of the Job say; `Halted` when they say neither that it failed nor that it
      succeeded: it is suspended, or about to fail. */
  datatype JobStatus = Active | Succeeded | Failed | Halted

  /** A Job runs the script that its secret holds when it is created. */
  datatype Job = Job(script: Script, status: JobStatus)

  /** `account`, `script`, `user`, `pull` and `job` are the managed resources, `vault` is the secret
      written for the user, `store` the recorded definition. */
  datatype World = World(
    db: Db, account: bool, script: Option<Script>, user: Option<Conn>, pull: bool, job: Option<Job>,
    vault: Option<Conn>, store: Option<Def>)

  datatype Failure = DuplicateSchema | DatabaseChanged | UsernameChanged | DefaultDatabase | JobFailed | NotFound

  function Text(s: Script): seq<Statement> {
    if s.def.delete then Deprovision(s.def.access) else Provision(s.def.username, s.password, s.revokes, s.def.access)
  }

  function Recorded(w: World): seq<Access> {
    if w.store.Some? then w.store.value.access else []
  }

  /** `_build_user_connection`: an existing user secret decides, otherwise a new password is made. */
  function Connection(w: World, def: Def, newPassword: string): Conn {
    if w.user.Some? then w.user.value else Conn(def.username, def.database, newPassword)
  }

  predicate HasStatus(w: World, status: JobStatus) {
    w.job.Some? && w.job.value.status == status
  }

  /** `is_complete`: the Job shows any condition at all. */
  predicate IsComplete(w: World) {
    w.job.Some? && w.job.value.status != Active
  }

  /** Why a pass raises before it does anything. */
  ghost function Refusal(w: World, def: Def, newPassword: string, adminDb: string): Option<Failure> {
    if !IsValid(def.access) then Some(DuplicateSchema)
    else if w.store == Some(def) then None
    else if w.store.Some? && w.store.value.database != def.database then Some(DatabaseChanged)
    else if w.store.Some? && w.store.value.username != def.username then Some(UsernameChanged)
    else if Connection(w, def, newPassword).database == adminDb then Some(DefaultDatabase)
    else if HasStatus(w, Failed) then Some(JobFailed)
    else None
  }

  /** The first `calls` of: service account, script secret, user secret, pull secret, job. */
  function Applied(w: World, script: Script, conn: Conn, calls: nat): World {
    w.(account := w.account || calls >= 1,
       script := if calls >= 2 then Some(script) else w.script,
       user := if calls >= 3 then Some(conn) else w.user,
       pull := w.pull || calls >= 4,
       job := if calls >= 5 then Some(Job(script, Active)) else w.job)
  }

  /** The first `n` resources, in the same order, are gone. */
  function Deleted(w: World, n: int): World {
    w.(account := w.account && n < 1,
       script := if n >= 2 then None else w.script,
       user := if n >= 3 then None else w.user,
       pull := w.pull && n < 4,
       job := if n >= 5 then None else w.job)
  }

  /** How many resources can be deleted before one is not found, which raises. */
  function Deletable(w: World): nat {
    if !w.account then 0
    else if w.script.None? then 1
    else if w.user.None? then 2
    else if !w.pull then 3
    else if w.job.None? then 4
    else 5
  }

  /** How many calls a clean-up consists of: Vault, five deletions, the record. */
  const CLEAN_UP: nat := 7

  /** The clean-up gets as far as recording the definition; deletions in a dry run do nothing. */
  predicate Records(w: World, dry: bool, calls: nat) {
    calls >= CLEAN_UP && (dry || Deletable(w) == 5)
  }

  /** The first `calls` calls for a completed job: the connection goes to Vault, the resources are
      deleted, the definition is recorded - in a dry run too. */
  function Completed(w: World, def: Def, conn: Conn, dry: bool, calls: nat): World {
    var n := if dry then 0 else if calls - 1 < Deletable(w) then calls - 1 else Deletable(w);
    Deleted(w, n).(
      vault := if !dry && !def.delete && calls >= 1 then Some(conn) else w.vault,
      store := if Records(w, dry, calls) then Some(def) else w.store)
  }

  ghost function Pass(w: World, def: Def, dry: bool, newPassword: string, revokes: seq<Statement>, calls: nat, adminDb: string): World {
    if Refusal(w, def, newPassword, adminDb).Some? || w.store == Some(def) then w
    else
      var conn := Connection(w, def, newPassword);
      if w.job.None? then
        if dry then w else Applied(w, Script(def, Recorded(w), revokes, conn.password), conn, calls)
      else if IsComplete(w) then Completed(w, def, conn, dry, calls)
      else w
  }

  /** The pass finds a completed job and starts to clean up. */
  ghost predicate CleansUp(w: World, def: Def, newPassword: string, adminDb: string) {
    IsComplete(w) && w.store != Some(def) && Refusal(w, def, newPassword, adminDb).None?
  }

  /** The job runs its script up to some statement; `otherwise` is what it shows if it has not succeeded. */
  function RunJob(w: World, upTo: nat, otherwise: JobStatus): World
    requires w.job.Some?
  {
    var text := Text(w.job.value.script);
    var r := Run(w.db, START, if upTo < |text| then text[..upTo] else text);
    w.(db := r.db, job := Some(w.job.value.(status := if r.ok && upTo >= |text| then Succeeded else otherwise)))
  }

  /** `calls` is where the loop of a pass stops; `Gone`: somebody removes the job. */
  datatype Step =
    | Reconcile(def: Def, dry: bool, newPassword: string, revokes: seq<Statement>, calls: nat, adminDb: string)
    | JobRuns(upTo: nat, otherwise: JobStatus)
    | Gone

  ghost predicate Possible(w: World, step: Step) {
    match step
    case Reconcile(def, _, _, revokes, _, _) => IsRevokeChanged(revokes, Recorded(w), def.access)
    case JobRuns(_, otherwise) => (HasStatus(w, Active) || HasStatus(w, Halted)) && otherwise != Succeeded
    case Gone => true
  }

  ghost function Next(w: World, step: Step): World
    requires Possible(w, step)
  {
    match step
    case Reconcile(def, dry, newPassword, revokes, calls, adminDb) => Pass(w, def, dry, newPassword, revokes, calls, adminDb)
    case JobRuns(upTo, otherwise) => RunJob(w, upTo, otherwise)
    case Gone => w.(job := None)
  }

  ghost predicate PossibleRun(w: World, steps: seq<Step>)
    decreases |steps|
  {
    steps == [] || (Possible(w, steps[0]) && PossibleRun(Next(w, steps[0]), steps[1..]))
  }

  ghost function Play(w: World, steps: seq<Step>): World
    requires PossibleRun(w, steps)
    decreases |steps|
  {
    if steps == [] then w else Play(Next(w, steps[0]), steps[1..])
  }

  // --- Refusals -------------------------------------------------------------------------

  /** Another definition than the recorded one comes for the same access. */
  ghost predicate IsNews(w: World, def: Def) {
    w.store.Some? ==> w.store.value.database != def.database || w.store.value.username != def.username
                      || w.store.value.access != def.access || w.store.value.delete != def.delete
  }

  ghost predicate ListsTwice(def: Def) {
    exists i, j :: 0 <= i < j < |def.access| && def.access[i].schema == def.access[j].schema
  }

  ghost predicate ChangesDatabase(w: World, def: Def) {
    w.store.Some? && w.store.value.database != def.database
  }

  ghost predicate ChangesUser(w: World, def: Def) {
    w.store.Some? && w.store.value.username != def.username
  }

  /** The database of the user secret, if there is one, or else of the definition is the admin's. */
  ghost predicate UsesAdminDb(w: World, def: Def, adminDb: string) {
    if w.user.Some? then w.user.value.database == adminDb else def.database == adminDb
  }

  /** A pass raises and touches nothing exactly when a schema is listed twice, or the definition is news and
      changes database or user, would use the admin's database, or finds a failed job; the failure names
      the first of these. */
  lemma RefusalIs(w: World, def: Def, dry: bool, newPassword: string, revokes: seq<Statement>, calls: nat, adminDb: string)
    ensures var f := Refusal(w, def, newPassword, adminDb);
            && (f.Some? ==> Pass(w, def, dry, newPassword, revokes, calls, adminDb) == w)
            && (f == Some(DuplicateSchema) <==> ListsTwice(def))
            && (f == Some(DatabaseChanged) <==> !ListsTwice(def) && ChangesDatabase(w, def))
            && (f == Some(UsernameChanged) <==> !ListsTwice(def) && !ChangesDatabase(w, def) && ChangesUser(w, def))
            && (f == Some(DefaultDatabase) <==>
                  !ListsTwice(def) && IsNews(w, def) && !ChangesDatabase(w, def) && !ChangesUser(w, def) && UsesAdminDb(w, def, adminDb))
            && (f == Some(JobFailed) <==>
                  && !ListsTwice(def) && IsNews(w, def) && !ChangesDatabase(w, def) && !ChangesUser(w, def) && !UsesAdminDb(w, def, adminDb)
                  && w.job.Some? && w.job.value.status == Failed)
            && f != Some(NotFound)
  {
    assert w.store == Some(def) <==> w.store.Some? && !IsNews(w, def);
  }

  /** A definition that is recorded already is never acted upon again. */
  lemma RecordedIsLeft(w: World, def: Def, dry: bool, newPassword: string, revokes: seq<Statement>, calls: nat, adminDb: string)
    requires !IsNews(w, def)
    ensures Pass(w, def, dry, newPassword, revokes, calls, adminDb) == w
  {
  }

  /** Over any run whatever, what is recorded is for the same database and the same user for good. */
  lemma {:induction false} RecordKeepsItsUser(w: World, steps: seq<Step>)
    requires w.store.Some? && PossibleRun(w, steps)
    ensures var store := Play(w, steps).store;
            store.Some? && store.value.database == w.store.value.database && store.value.username == w.store.value.username
    decreases |steps|
  {
    if steps != [] { RecordKeepsItsUser(Next(w, steps[0]), steps[1..]); }
  }

  // --- What a pass does -----------------------------------------------------------------

  /** A definition that is news and not refused. */
  ghost predicate IsTakenUp(w: World, def: Def, adminDb: string) {
    && !ListsTwice(def) && IsNews(w, def) && !ChangesDatabase(w, def) && !ChangesUser(w, def) && !UsesAdminDb(w, def, adminDb)
    && !(w.job.Some? && w.job.value.status == Failed)
  }

  function Resources(w: World): nat {
    (if w.account then 1 else 0) + (if w.script.Some? then 1 else 0) + (if w.user.Some? then 1 else 0)
    + (if w.pull then 1 else 0) + (if w.job.Some? then 1 else 0)
  }

  /** Nothing but the managed resources differs. */
  predicate SameElse(w: World, w': World) {
    w'.db == w.db && w'.vault == w.vault && w'.store == w.store
  }

  /** The first pass for a definition, stopped after any number of calls: one resource more with each call -
      service account, script secret, user secret, pull secret, and last the job.  The script is made for the
      definition, the record and a new password; the user secret has that password, and the job
      that script. */
  lemma StartsInOrder(w: World, def: Def, newPassword: string, revokes: seq<Statement>, calls: nat, adminDb: string)
    requires IsTakenUp(w, def, adminDb) && Resources(w) == 0
    ensures var w' := Pass(w, def, false, newPassword, revokes, calls, adminDb);
            && SameElse(w, w') && Resources(w') == (if calls < 5 then calls else 5)
            && (w'.job.Some? ==> w'.pull) && (w'.pull ==> w'.user.Some?) && (w'.user.Some? ==> w'.script.Some?) && (w'.script.Some? ==> w'.account)
            && (w'.script.Some? ==> w'.script.value == Script(def, if w.store.Some? then w.store.value.access else [], revokes, newPassword))
            && (w'.user.Some? ==> w'.user.value == Conn(def.username, def.database, newPassword))
            && (w'.job.Some? ==> w'.script.Some? && w'.job.value == Job(w'.script.value, Active))
  {
    RefusalIs(w, def, false, newPassword, revokes, calls, adminDb);
  }

  /** The pass that finds a finished job with all its resources, stopped after any number of calls: the user's
      connection goes to Vault first, unless the user is removed, then one resource goes with each call,
      in the order in which they came, and last the definition is recorded. */
  lemma CleansUpInOrder(w: World, def: Def, newPassword: string, revokes: seq<Statement>, calls: nat, adminDb: string)
    requires IsTakenUp(w, def, adminDb) && Resources(w) == 5 && w.job.value.status != Active
    ensures var w' := Pass(w, def, false, newPassword, revokes, calls, adminDb);
            && w'.db == w.db
            && w'.vault == (if calls >= 1 && !def.delete then w.user else w.vault)
            && Resources(w') == (if calls == 0 then 5 else if calls <= 6 then 6 - calls else 0)
            && (w'.account ==> w'.script == w.script) && (w'.script.Some? ==> w'.user == w.user) && (w'.user.Some? ==> w'.pull)
            && (w'.pull ==> w'.job == w.job)
            && w'.store == (if calls >= 7 then Some(def) else w.store)
  {
    RefusalIs(w, def, false, newPassword, revokes, calls, adminDb);
  }

  /** A pass waits for a job that shows no condition yet. */
  lemma WaitsForTheJob(w: World, def: Def, dry: bool, newPassword: string, revokes: seq<Statement>, calls: nat, adminDb: string)
    requires w.job.Some? && w.job.value.status == Active
    ensures Pass(w, def, dry, newPassword, revokes, calls, adminDb) == w
  {
  }

  // --- One password ---------------------------------------------------------------------

  /** Whatever secrets there are agree with each other and with the job; a job has all of them until a
      clean-up takes the service account away; and a job that succeeded in creating the user has set
      that password. */
  ghost predicate OnePassword(w: World) {
    && (w.script.Some? ==> IsGenerated(w.script.value))
    && (w.script.Some? && w.user.Some? ==> w.script.value.password == w.user.value.password)
    && (w.job.Some? ==>
          var s := w.job.value.script;
          && IsGenerated(s)
          && (w.user.Some? ==> s.password == w.user.value.password)
          && (w.account ==> w.script == Some(s) && w.user.Some? && w.pull)
          && (w.job.value.status == Succeeded && !s.def.delete ==> w.db.role == Some(s.password)))
  }

  ghost predicate IsGenerated(s: Script) {
    IsValid(s.def.access) && IsRevokeChanged(s.revokes, s.recorded, s.def.access)
  }

  /** The stored script is one `generate_script` could have produced. */
  lemma TextIsGenerated(s: Script)
    requires IsGenerated(s)
    ensures IsScriptFor(Text(s), s.def, Some(s.recorded), s.password)
  {
    if !s.def.delete {
      assert IsRevokeChanged(s.revokes, s.recorded, s.def.access) && Text(s) == Provision(s.def.username, s.password, s.revokes, s.def.access);
    }
  }

  lemma OnePasswordStep(w: World, step: Step)
    requires OnePassword(w) && Possible(w, step)
    ensures OnePassword(Next(w, step))
  {
    if step.JobRuns? && !w.job.value.script.def.delete {
      var s := w.job.value.script;
      ProvisionEffect(w.db, s.def.username, s.password, s.revokes, s.recorded, s.def.access);
    }
  }

  /** The job runs a script that `generate_script` makes for this password. */
  ghost predicate RunsScriptWith(w: World, password: string) {
    w.job.Some? && w.job.value.script.password == password
    && IsScriptFor(Text(w.job.value.script), w.job.value.script.def, Some(w.job.value.script.recorded), password)
  }

  /** Over any number of passes - for any definitions, with stops anywhere in the apply loop and in the
      clean-up, dry or not - a job and a user secret have the same password, and until a clean-up has
      taken the service account away a job finds its script secret and its user secret. */
  lemma {:induction false} JobHasOnePassword(w: World, steps: seq<Step>)
    requires OnePassword(w) && PossibleRun(w, steps)
    ensures var w' := Play(w, steps);
            && OnePassword(w')
            && (w'.job.Some? && w'.user.Some? ==> RunsScriptWith(w', w'.user.value.password))
            && (w'.job.Some? && w'.account ==> w'.user.Some? && w'.script == Some(w'.job.value.script))
    decreases |steps|
  {
    if steps == [] {
      if w.job.Some? { TextIsGenerated(w.job.value.script); }
    } else {
      OnePasswordStep(w, steps[0]);
      JobHasOnePassword(Next(w, steps[0]), steps[1..]);
    }
  }

  /** A pass that hands a password to Vault: its clean-up has not stopped before that. */
  ghost predicate WritesVault(w: World, step: Step) {
    step.Reconcile? && CleansUp(w, step.def, step.newPassword, step.adminDb) && !step.dry && !step.def.delete && step.calls >= 1
  }

  /** The exact condition on what Vault gets: it is the password of the script that ran - and, where that
      has succeeded in creating the user, the one the database has - if and only if the user secret is
      still there, or chance makes the same password again. */
  lemma VaultGetsThePassword(w: World, step: Step)
    requires OnePassword(w) && Possible(w, step)
    ensures Next(w, step).vault != w.vault ==> WritesVault(w, step)
    ensures WritesVault(w, step) ==>
      var w', s := Next(w, step), w.job.value.script;
      var same := w.user.Some? || step.newPassword == s.password;
      && w'.vault.Some? && (w'.vault.value.password == s.password <==> same)
      && (HasStatus(w, Succeeded) && !s.def.delete ==> (w'.db.role == Some(w'.vault.value.password) <==> same))
  {
  }

  // --- The clean-up ---------------------------------------------------------------------

  /** The exact condition for a pass that cleans up to finish: no resource is missing - or it is a dry
      run, which records without deleting - and nothing stops it. */
  lemma CleanUpEndsIff(w: World, def: Def, dry: bool, newPassword: string, revokes: seq<Statement>, calls: nat, adminDb: string)
    requires CleansUp(w, def, newPassword, adminDb)
    ensures var w' := Pass(w, def, dry, newPassword, revokes, calls, adminDb);
            && (w'.store == Some(def) <==>
                  calls >= 7 && (dry || (w.account && w.script.Some? && w.user.Some? && w.pull)))
            && (w'.job.None? <==> !dry && calls >= 6 && w.account && w.script.Some? && w.user.Some? && w.pull)
  {
  }

  /** Once a clean-up has stopped behind its first deletion it never goes on: over any passes that are
      not dry, for any definitions, the job and the other resources stay as they are and nothing is
      recorded, for the service account is not found any more. */
  lemma {:induction false} StoppedCleanUpIsStuck(w: World, steps: seq<Step>)
    requires IsComplete(w) && !w.account && PossibleRun(w, steps)
    requires forall k :: 0 <= k < |steps| ==> steps[k].Reconcile? && !steps[k].dry
    ensures Play(w, steps) == w.(vault := Play(w, steps).vault)
    decreases |steps|
  {
    if steps != [] {
      assert steps[0].Reconcile? && !steps[0].dry;
      forall k | 0 <= k < |steps[1..]| ensures steps[1..][k].Reconcile? && !steps[1..][k].dry { assert steps[1..][k] == steps[k + 1]; }
      StoppedCleanUpIsStuck(Next(w, steps[0]), steps[1..]);
    }
  }

  /** A clean-up that stops between deleting the user secret and deleting the job: the next pass hands a
      new password to Vault, which the database does not have, and no later pass makes up for it. */
  lemma StoppedCleanUpLosesThePassword(w: World, def: Def, other: string, revokes: seq<Statement>, adminDb: string, later: seq<Step>)
    requires OnePassword(w) && HasStatus(w, Succeeded) && w.account && !w.job.value.script.def.delete
    requires CleansUp(w, def, other, adminDb) && !def.delete && def.database != adminDb && other != w.job.value.script.password
    requires var w2 := Pass(Pass(w, def, false, other, revokes, 4, adminDb), def, false, other, revokes, CLEAN_UP, adminDb);
             PossibleRun(w2, later) && forall k :: 0 <= k < |later| ==> later[k].Reconcile? && !later[k].dry
    ensures var w1 := Pass(w, def, false, other, revokes, 4, adminDb);
            var w2 := Pass(w1, def, false, other, revokes, CLEAN_UP, adminDb);
            && w1.vault == w.user && w1.user.None? && w1.job == w.job
            && w2.vault.Some? && w2.db.role != Some(w2.vault.value.password)
            && Play(w2, later).store == w.store && Play(w2, later).job == w.job && Play(w2, later).db == w.db
  {
    var w1 := Pass(w, def, false, other, revokes, 4, adminDb);
    var w2 := Pass(w1, def, false, other, revokes, CLEAN_UP, adminDb);
    assert w1 == Completed(w, def, w.user.value, false, 4);
    StoppedCleanUpIsStuck(w2, later);
  }

  // --- Recording ------------------------------------------------------------------------

  /** Once a definition is recorded no pass for it does anything any more. */
  lemma {:induction false} RecordedIsFinal(w: World, steps: seq<Step>, def: Def)
    requires w.store == Some(def) && PossibleRun(w, steps)
    requires forall k :: 0 <= k < |steps| ==> steps[k].Reconcile? && steps[k].def == def
    ensures Play(w, steps) == w
    decreases |steps|
  {
    if steps != [] {
      assert steps[0].Reconcile? && steps[0].def == def;
      forall k | 0 <= k < |steps[1..]| ensures steps[1..][k].Reconcile? && steps[1..][k].def == def { assert steps[1..][k] == steps[k + 1]; }
      RecordedIsFinal(Next(w, steps[0]), steps[1..], def);
    }
  }

  /** A dry run that meets a completed job records the definition, so no later pass for it ever hands
      the password to Vault or cleans up. */
  lemma DryRunLosesThePassword(w: World, def: Def, newPassword: string, revokes: seq<Statement>, adminDb: string, later: seq<Step>)
    requires CleansUp(w, def, newPassword, adminDb)
    requires var w' := Pass(w, def, true, newPassword, revokes, CLEAN_UP, adminDb);
             PossibleRun(w', later) && forall k :: 0 <= k < |later| ==> later[k].Reconcile? && later[k].def == def
    ensures Play(Pass(w, def, true, newPassword, revokes, CLEAN_UP, adminDb), later) == w.(store := Some(def))
  {
    RecordedIsFinal(Pass(w, def, true, newPassword, revokes, CLEAN_UP, adminDb), later, def);
  }

  /** A pass that must change nothing - a dry run - changes nothing if and only if it does not get as far as
      recording behind a completed job. */
  lemma DryRunIsDryIff(w: World, def: Def, newPassword: string, revokes: seq<Statement>, calls: nat, adminDb: string)
    ensures Pass(w, def, true, newPassword, revokes, calls, adminDb) == w
      <==> !(CleansUp(w, def, newPassword, adminDb) && calls >= CLEAN_UP)
  {
  }
}
