/** What the database holds and what is recorded: never more than was asked for, and over any run exactly
    what is due by the record as long as - and only as long as - every step is steady. */
module DatabaseRecord {
  import opened Common
  import opened DatabaseScript
  import opened DatabaseAccess

  // --- Never more than was asked for ----------------------------------------------------

  lemma {:induction false} GrantsWithin(access: seq<Access>)
    ensures forall s :: s in Grants(access) ==> s.GrantTo? && Pairs(s.schema, s.grants) <= Wanted(access)
  {
    if access != [] {
      GrantsWithin(access[1..]);
      WantedCons(access);
    }
  }

  /** One run of the job, whole or not, adds at most what its definition wants. */
  lemma JobStaysWithin(w: World, upTo: nat, otherwise: JobStatus, most: set<(Schema, Grant)>)
    requires w.job.Some? && IsGenerated(w.job.value.script) && w.db.own.held <= most
    requires !w.job.value.script.def.delete ==> Wanted(w.job.value.script.def.access) <= most
    ensures RunJob(w, upTo, otherwise).db.own.held <= most
  {
    var s := w.job.value.script;
    var text := Text(s);
    if s.def.delete {
      RevokeListedIs(s.def.access);
    } else {
      GrantsWithin(s.def.access);
    }
    forall x | x in text && x.GrantTo? ensures Pairs(x.schema, x.grants) <= most {
      assert !s.def.delete && (x in s.revokes || x in Grants(s.def.access));
    }
    PartialBound(w.db, START, text, if upTo < |text| then upTo else |text|, most);
    assert text[..|text|] == text;
  }

  lemma {:induction false} RevokeListedIs(access: seq<Access>)
    ensures forall s :: s in RevokeListed(access) ==> s.RevokeAll? && exists a :: a in access && a.schema == s.schema
  {
    if access != [] {
      RevokeListedIs(access[1..]);
      assert access[0] in access;
      forall a | a in access[1..] ensures a in access {}
    }
  }

  /** The definitions of a run that are not removals want privileges of `most` only. */
  ghost predicate AsksWithin(steps: seq<Step>, most: set<(Schema, Grant)>) {
    forall k :: 0 <= k < |steps| && steps[k].Reconcile? && !steps[k].def.delete ==> Wanted(steps[k].def.access) <= most
  }

  /** Over any run whatever - changed definitions, removals, failed and removed jobs, stops, dry runs -
      the user never holds a privilege that it did not hold at first and no definition asked for. */
  lemma {:induction false} NothingUnasked(w: World, steps: seq<Step>, most: set<(Schema, Grant)>)
    requires OnePassword(w) && PossibleRun(w, steps) && AsksWithin(steps, most) && w.db.own.held <= most
    requires w.job.Some? && !w.job.value.script.def.delete ==> Wanted(w.job.value.script.def.access) <= most
    ensures Play(w, steps).db.own.held <= most
    decreases |steps|
  {
    if steps != [] {
      var step := steps[0];
      if step.JobRuns? { JobStaysWithin(w, step.upTo, step.otherwise, most); }
      OnePasswordStep(w, step);
      forall k | 0 <= k < |steps[1..]| && steps[1..][k].Reconcile? && !steps[1..][k].def.delete
        ensures Wanted(steps[1..][k].def.access) <= most
      {
        assert steps[1..][k] == steps[k + 1];
      }
      NothingUnasked(Next(w, step), steps[1..], most);
    }
  }

  // --- The database follows the record --------------------------------------------------

  /** The privileges a definition is to leave. */
  function Due(def: Def): set<(Schema, Grant)> {
    if def.delete then {} else Wanted(def.access)
  }

  function DueByRecord(w: World): set<(Schema, Grant)> {
    if w.store.Some? then Due(w.store.value) else {}
  }

  /** With no script and no job about, the database holds exactly what is due by the record; a job works
      from the record, and one that has succeeded has left exactly what is due by its definition. */
  ghost predicate Faithful(w: World) {
    && (w.store.Some? ==> IsValid(w.store.value.access))
    && (w.job.Some? ==>
          var s := w.job.value.script;
          && IsGenerated(s) && s.recorded == Recorded(w)
          && (w.job.value.status == Succeeded ==> w.db.own.held == Due(s.def)))
    && (w.script.None? && w.job.None? ==> w.db.own.held == DueByRecord(w))
  }

  /** The database holds `due`: after a job that has succeeded, its definition tells. */
  ghost predicate Holds(w: World, due: set<(Schema, Grant)>) {
    if HasStatus(w, Succeeded) then Due(w.job.value.script.def) == due else w.db.own.held == due
  }

  /** Who records or forgets does so in keeping with the database: a clean-up records a definition as
      due as what the job has left, and does not delete everything without recording unless the record
      is right as it is; a dry run that records does not change what the job worked from; a job that
      succeeds has found nothing held that its revocations do not cover; and nobody removes a job
      whose script secret is gone unless the record is right. */
  ghost predicate Steady(w: World, step: Step)
    requires Possible(w, step)
  {
    match step
    case Reconcile(def, dry, newPassword, _, calls, adminDb) =>
      CleansUp(w, def, newPassword, adminDb) ==>
        if dry then calls >= CLEAN_UP ==> def.access == w.job.value.script.recorded
        else Deletable(w) == 5 ==>
          && (calls >= CLEAN_UP ==> Holds(w, Due(def)))
          && (calls == CLEAN_UP - 1 ==> Holds(w, DueByRecord(w)))
    case JobRuns(upTo, otherwise) =>
      var s := w.job.value.script;
      HasStatus(RunJob(w, upTo, otherwise), Succeeded) && !s.def.delete ==> Covers(s.recorded, s.def.access, w.db.own.held)
    case Gone => w.job.Some? && w.script.None? ==> Holds(w, DueByRecord(w))
  }

  /** One run of a job keeps faith if and only if, should it succeed, nothing was held that its revocations
      do not cover; a removal that succeeds has found nothing held. */
  lemma JobKeepsFaithIff(w: World, upTo: nat, otherwise: JobStatus)
    requires Faithful(w) && w.job.Some? && otherwise != Succeeded
    ensures Faithful(RunJob(w, upTo, otherwise)) <==>
      var s := w.job.value.script;
      HasStatus(RunJob(w, upTo, otherwise), Succeeded) && !s.def.delete ==> Covers(s.recorded, s.def.access, w.db.own.held)
  {
    var s := w.job.value.script;
    if HasStatus(RunJob(w, upTo, otherwise), Succeeded) {
      var text := Text(s);
      assert text[..|text|] == text;
      if s.def.delete {
        DeprovisionIff(w.db, s.def.access);
      } else {
        ProvisionEffect(w.db, s.def.username, s.password, s.revokes, s.recorded, s.def.access);
        ProvisionExactIff(w.db, s.def.username, s.password, s.revokes, s.recorded, s.def.access);
      }
    }
  }

  /** The exact condition on one step. */
  lemma FaithfulStepIff(w: World, step: Step)
    requires Faithful(w) && Possible(w, step)
    ensures Faithful(Next(w, step)) <==> Steady(w, step)
  {
    match step
    case JobRuns(upTo, otherwise) => JobKeepsFaithIff(w, upTo, otherwise);
    case Reconcile(def, dry, newPassword, revokes, calls, adminDb) =>
    case Gone =>
  }

  ghost predicate SteadyRun(w: World, steps: seq<Step>)
    requires PossibleRun(w, steps)
    decreases |steps|
  {
    steps != [] ==> Steady(w, steps[0]) && SteadyRun(Next(w, steps[0]), steps[1..])
  }

  ghost predicate AlwaysFaithful(w: World, steps: seq<Step>)
    requires PossibleRun(w, steps)
    decreases |steps|
  {
    Faithful(w) && (steps != [] ==> AlwaysFaithful(Next(w, steps[0]), steps[1..]))
  }

  /** Over any run whatever - changed and replaced definitions, removals, stops anywhere in a pass, retries,
      failed, halted and removed jobs, dry runs - the database follows the record at every step if and
      only if every step is steady; then, whenever no script and no job is about, it holds exactly what
      is due by the record. */
  lemma {:induction false} DatabaseFollowsRecord(w: World, steps: seq<Step>)
    requires Faithful(w) && PossibleRun(w, steps)
    ensures AlwaysFaithful(w, steps) <==> SteadyRun(w, steps)
    ensures SteadyRun(w, steps) ==>
      var w' := Play(w, steps);
      Faithful(w') && (w'.script.None? && w'.job.None? ==> w'.db.own.held == DueByRecord(w'))
    decreases |steps|
  {
    if steps != [] {
      FaithfulStepIff(w, steps[0]);
      if Steady(w, steps[0]) { DatabaseFollowsRecord(Next(w, steps[0]), steps[1..]); }
    }
  }

  /** A simpler rule for each step: no removal and no change while there is a job; a definition put in place
      of one whose job was removed finds nothing held but what is recorded or it wants itself; clean-ups
      are not broken off between the script secret and the record, nor met by a dry run; and jobs do
      not halt. */
  ghost predicate Careful(w: World, step: Step) {
    match step
    case Reconcile(def, dry, _, _, calls, _) =>
      && !def.delete
      && (w.job.Some? ==> def == w.job.value.script.def)
      && (w.script.Some? && w.job.None? ==> w.db.own.held <= Wanted(Recorded(w)) + Wanted(def.access))
      && (IsComplete(w) ==> !dry && (calls <= 2 || calls >= CLEAN_UP))
    case JobRuns(_, otherwise) => otherwise != Halted
    case Gone => true
  }

  ghost predicate CarefulRun(w: World, steps: seq<Step>)
    requires PossibleRun(w, steps)
    decreases |steps|
  {
    steps != [] ==> Careful(w, steps[0]) && CarefulRun(Next(w, steps[0]), steps[1..])
  }

  /** What careful steps keep: around a job at most what is recorded or wanted by its script is held. */
  ghost predicate Orderly(w: World) {
    && Faithful(w) && OnePassword(w) && !HasStatus(w, Halted)
    && (w.job.Some? ==> w.script == Some(w.job.value.script))
    && (w.script.Some? ==>
          && !w.script.value.def.delete
          && w.db.own.held <= Wanted(Recorded(w)) + Wanted(w.script.value.def.access))
  }

  lemma OrderlyStep(w: World, step: Step)
    requires Orderly(w) && Possible(w, step) && Careful(w, step)
    ensures Steady(w, step) && Orderly(Next(w, step))
  {
    if step.JobRuns? {
      var s := w.job.value.script;
      WithinIsCovered(s.recorded, s.def.access, w.db.own.held);
      JobStaysWithin(w, step.upTo, step.otherwise, Wanted(Recorded(w)) + Wanted(s.def.access));
    }
    FaithfulStepIff(w, step);
    OnePasswordStep(w, step);
  }

  /** So over any careful run - stops, retries, failed and removed jobs, replaced definitions - the database
      follows the record, and around a job it holds at most what is recorded or wanted. */
  lemma {:induction false} CarefulRunsFollowRecord(w: World, steps: seq<Step>)
    requires Orderly(w) && PossibleRun(w, steps) && CarefulRun(w, steps)
    ensures SteadyRun(w, steps) && Orderly(Play(w, steps))
    decreases |steps|
  {
    if steps != [] {
      OrderlyStep(w, steps[0]);
      CarefulRunsFollowRecord(Next(w, steps[0]), steps[1..]);
    }
  }

  /** Three moves bring a new definition from nothing under way to Vault, database and record. */
  lemma FromDefinitionToRecord(w: World, def: Def, newPassword: string, revokes: seq<Statement>, adminDb: string)
    requires Faithful(w) && w.script.None? && w.user.None? && w.job.None?
    requires !def.delete && w.store != Some(def) && Refusal(w, def, newPassword, adminDb).None?
    requires IsRevokeChanged(revokes, Recorded(w), def.access) && IsRunnable(w.db, def.username, revokes, def.access)
    ensures var text := Provision(def.username, newPassword, revokes, def.access);
            var w1 := Pass(w, def, false, newPassword, revokes, CLEAN_UP, adminDb);
            && w1.job.Some?
            && var w2 := RunJob(w1, |text|, Failed);
               var w3 := Pass(w2, def, false, "", [], CLEAN_UP, adminDb);
               && w3.db.own.held == Wanted(def.access) && w3.db.role == Some(newPassword)
               && w3.vault == Some(Conn(def.username, def.database, newPassword))
               && w3.store == Some(def)
               && !w3.account && w3.script.None? && w3.user.None? && !w3.pull && w3.job.None?
  {
    ProvisionEffect(w.db, def.username, newPassword, revokes, Recorded(w), def.access);
    ProvisionExact(w.db, def.username, newPassword, revokes, Recorded(w), def.access);
  }

  // --- Where the record goes wrong ------------------------------------------------------

  /** The exact condition on a definition whose job succeeds, in whatever state its first pass finds things
      without a job - after a failed and removed job for another definition, too: the completing pass
      records what the database holds if and only if everything held before was wanted by it or
      covered by the revocations that the record gives rise to. */
  lemma RecordsWhatIsHeldIff(w: World, def: Def, newPassword: string, revokes: seq<Statement>, adminDb: string)
    requires w.job.None? && !def.delete && w.store != Some(def) && Refusal(w, def, newPassword, adminDb).None?
    requires IsRevokeChanged(revokes, Recorded(w), def.access) && IsRunnable(w.db, def.username, revokes, def.access)
    ensures var w1 := Pass(w, def, false, newPassword, revokes, CLEAN_UP, adminDb);
            && w1.job.Some?
            && var w2 := RunJob(w1, |Text(w1.job.value.script)|, Failed);
               var w3 := Pass(w2, def, false, "", [], CLEAN_UP, adminDb);
               && HasStatus(w2, Succeeded) && w3.store == Some(def) && w3.script.None? && w3.job.None?
               && (w3.db.own.held == DueByRecord(w3) <==> Covers(Recorded(w), def.access, w.db.own.held))
  {
    var password := Connection(w, def, newPassword).password;
    var text := Provision(def.username, password, revokes, def.access);
    assert text[..|text|] == text;
    ProvisionEffect(w.db, def.username, password, revokes, Recorded(w), def.access);
    ProvisionExactIff(w.db, def.username, password, revokes, Recorded(w), def.access);
  }

  /** The exact condition when a job has succeeded: the pass records what the database holds if and
      only if the same privileges are due by its definition as by that of the script that ran. */
  lemma RecordsTruthIff(w: World, def: Def, newPassword: string, revokes: seq<Statement>, adminDb: string)
    requires Faithful(w) && HasStatus(w, Succeeded) && Deletable(w) == 5 && CleansUp(w, def, newPassword, adminDb)
    ensures var w' := Pass(w, def, false, newPassword, revokes, CLEAN_UP, adminDb);
            && w'.store == Some(def)
            && (w'.db.own.held == DueByRecord(w') <==> Due(def) == Due(w.job.value.script.def))
  {
  }

  /** A job that shows a condition before it has done anything - it is suspended, or about to fail - counts
      as completed: Vault gets a password, everything is cleaned up and the definition is recorded,
      while nothing has happened in the database. */
  lemma HaltedJobIsRecorded(w: World, def: Def, newPassword: string, revokes: seq<Statement>, adminDb: string)
    requires w.job.None? && w.user.None? && !def.delete && w.store != Some(def) && Refusal(w, def, newPassword, adminDb).None?
    ensures var w1 := Pass(w, def, false, newPassword, revokes, CLEAN_UP, adminDb);
            && w1.job.Some?
            && var w2 := RunJob(w1, 0, Halted);
               var w3 := Pass(w2, def, false, "", [], CLEAN_UP, adminDb);
               && w3.store == Some(def) && w3.vault == Some(Conn(def.username, def.database, newPassword))
               && w3.job.None? && w3.db == w.db
  {
  }

  /** The first definition: the user may read schema "a", and schema "missing" that is not there. */
  function Impossible(): Def {
    Def("db", "u", [Access("a", ["SELECT"]), Access("missing", ["SELECT"])], false)
  }

  /** The one that replaces it. */
  function Corrected(): Def {
    Def("db", "u", [Access("b", ["SELECT"])], false)
  }

  function EmptyDb(): Db {
    Db(None, false, Database({}, {"a", "b"}), Database({}, {}))
  }

  function EmptyWorld(): World {
    World(EmptyDb(), false, None, None, false, None, None, None)
  }

  function ApplyDefinition(def: Def): Step {
    Reconcile(def, false, "pw", [], CLEAN_UP, "admin")
  }

  /** A job for the first and its removal; a job for the second, and the pass that records it. */
  function Replacement(): seq<Step> {
    [ApplyDefinition(Impossible())] + ([JobRuns(9, Failed)] + ([Gone]
      + ([ApplyDefinition(Corrected())] + ([JobRuns(9, Failed)] + [ApplyDefinition(Corrected())]))))
  }

  lemma ReplacementScripts()
    ensures var d1, d2 := Impossible(), Corrected();
            && Text(Script(d1, [], [], "pw")) == CreateUserScript("u", "pw") + [GrantTo(["SELECT"], "a"), GrantTo(["SELECT"], "missing")]
            && Text(Script(d2, [], [], "pw")) == CreateUserScript("u", "pw") + [GrantTo(["SELECT"], "b")]
  {
    var a1, a2 := Impossible().access, Corrected().access;
    assert a1[1..] == [a1[1]] && a1[1..][1..] == [] && a2[1..] == [];
    assert Grants(a1) == [GrantTo(["SELECT"], "a")] + ([GrantTo(["SELECT"], "missing")] + []);
    assert [] + Grants(a1) == [GrantTo(["SELECT"], "a"), GrantTo(["SELECT"], "missing")];
    assert [] + Grants(a2) == [GrantTo(["SELECT"], "b")];
  }

  /** The first job stops at the second schema, with the first privilege granted. */
  lemma ImpossibleRuns()
    ensures var r := Run(EmptyDb(), START, Text(Script(Impossible(), [], [], "pw")));
            && !r.ok
            && r.db == WithUser(EmptyDb(), "u", "pw").(own := Database({("a", "SELECT")}, {"a", "b", "u"}))
  {
    var db := WithUser(EmptyDb(), "u", "pw");
    var grants := [GrantTo(["SELECT"], "a"), GrantTo(["SELECT"], "missing")];
    ReplacementScripts();
    RunCreateUser(EmptyDb(), "u", "pw");
    RunConcat(EmptyDb(), START, CreateUserScript("u", "pw"), grants);
    assert grants[1..] == [GrantTo(["SELECT"], "missing")];
    assert Pairs("a", ["SELECT"]) == {("a", "SELECT")};
    assert db.own.schemas == {"a", "b", "u"};
  }

  /** The second one adds its own to it. */
  lemma CorrectedRuns(db: Db)
    requires db == WithUser(EmptyDb(), "u", "pw").(own := Database({("a", "SELECT")}, {"a", "b", "u"}))
    ensures var r := Run(db, START, Text(Script(Corrected(), [], [], "pw")));
            r.ok && r.db.own.held == {("a", "SELECT"), ("b", "SELECT")}
  {
    var db1 := WithUser(db, "u", "pw");
    var grants := [GrantTo(["SELECT"], "b")];
    ReplacementScripts();
    RunCreateUser(db, "u", "pw");
    RunConcat(db, START, CreateUserScript("u", "pw"), grants);
    assert grants[1..] == [] && Pairs("b", ["SELECT"]) == {("b", "SELECT")};
    assert db1.own.held == {("a", "SELECT")};
  }

  lemma PlayCons(w: World, step: Step, rest: seq<Step>)
    requires Possible(w, step)
    ensures PossibleRun(w, [step] + rest) <==> PossibleRun(Next(w, step), rest)
    ensures PossibleRun(w, [step] + rest) ==> Play(w, [step] + rest) == Play(Next(w, step), rest)
  {
    assert ([step] + rest)[1..] == rest;
  }

  /** The state in which the removal of the first job leaves things. */
  function FirstGone(): World {
    EmptyWorld().(db := WithUser(EmptyDb(), "u", "pw").(own := Database({("a", "SELECT")}, {"a", "b", "u"})),
                  account := true, script := Some(Script(Impossible(), [], [], "pw")), user := Some(Conn("u", "db", "pw")), pull := true)
  }

  lemma FirstHalf(rest: seq<Step>)
    ensures var steps := [ApplyDefinition(Impossible())] + ([JobRuns(9, Failed)] + ([Gone] + rest));
            && (PossibleRun(EmptyWorld(), steps) <==> PossibleRun(FirstGone(), rest))
            && (PossibleRun(EmptyWorld(), steps) ==> Play(EmptyWorld(), steps) == Play(FirstGone(), rest))
  {
    var w0, s := EmptyWorld(), Script(Impossible(), [], [], "pw");
    var w1 := Next(w0, ApplyDefinition(Impossible()));
    assert w1 == w0.(account := true, script := Some(s), user := Some(Conn("u", "db", "pw")), pull := true, job := Some(Job(s, Active)));
    ReplacementScripts();
    ImpossibleRuns();
    assert Next(Next(w1, JobRuns(9, Failed)), Gone) == FirstGone();
    PlayCons(w0, ApplyDefinition(Impossible()), [JobRuns(9, Failed)] + ([Gone] + rest));
    PlayCons(w1, JobRuns(9, Failed), [Gone] + rest);
    PlayCons(Next(w1, JobRuns(9, Failed)), Gone, rest);
  }

  /** How it ends: the second definition is recorded, and both privileges are held. */
  ghost predicate KeepsOld(w: World) {
    && w.store == Some(Corrected()) && w.script.None? && w.job.None?
    && w.db.own.held == {("a", "SELECT"), ("b", "SELECT")} && DueByRecord(w) == {("b", "SELECT")}
  }

  lemma SecondHalf()
    ensures var steps := [ApplyDefinition(Corrected())] + ([JobRuns(9, Failed)] + [ApplyDefinition(Corrected())]);
            PossibleRun(FirstGone(), steps) && KeepsOld(Play(FirstGone(), steps))
  {
    var w3, s := FirstGone(), Script(Corrected(), [], [], "pw");
    var w4 := Next(w3, ApplyDefinition(Corrected()));
    assert w4 == w3.(script := Some(s), job := Some(Job(s, Active)));
    ReplacementScripts();
    CorrectedRuns(w3.db);
    var w5 := Next(w4, JobRuns(9, Failed));
    assert HasStatus(w5, Succeeded);
    var w6 := Next(w5, ApplyDefinition(Corrected()));
    PlayCons(w3, ApplyDefinition(Corrected()), [JobRuns(9, Failed)] + [ApplyDefinition(Corrected())]);
    PlayCons(w4, JobRuns(9, Failed), [ApplyDefinition(Corrected())]);
    PlayCons(w5, ApplyDefinition(Corrected()), []);
    assert [ApplyDefinition(Corrected())] + [] == [ApplyDefinition(Corrected())];
    CorrectedIsDue();
  }

  lemma CorrectedIsDue()
    ensures Due(Corrected()) == {("b", "SELECT")}
  {
    var access := Corrected().access;
    assert access[0] in access && "SELECT" in access[0].grants;
  }

  /** A definition that cannot run, replaced after its failed job was removed: the second one is recorded,
      and the database still holds a privilege of the first that is not due. */
  lemma ReplacementKeepsOld()
    ensures Faithful(EmptyWorld()) && PossibleRun(EmptyWorld(), Replacement())
    ensures KeepsOld(Play(EmptyWorld(), Replacement()))
  {
    FirstHalf([ApplyDefinition(Corrected())] + ([JobRuns(9, Failed)] + [ApplyDefinition(Corrected())]));
    SecondHalf();
  }

  /** Statements that do not name a privilege leave it where it is. */
  lemma {:induction false} RunKeeps(db: Db, n: Session, script: seq<Statement>, p: (Schema, Grant))
    requires p in db.own.held && forall s :: s in script ==> s != RevokeAll(p.0) && s != Revoke(p.1, p.0)
    ensures p in Run(db, n, script).db.own.held
    decreases |script|
  {
    if script != [] {
      assert script[0] in script;
      forall s | s in script[1..] ensures s in script {}
      if IsExecutable(db, n, script[0]) {
        RunKeeps(Execute(db, n, script[0]), Switch(n, script[0]), script[1..], p);
      } else if !n.stops {
        RunKeeps(db, n, script[1..], p);
      }
    }
  }

  /** A script made from a record and a definition that do not list a schema takes nothing away there. */
  lemma UnlistedStays(w: World, upTo: nat, otherwise: JobStatus, p: (Schema, Grant))
    requires w.job.Some? && IsGenerated(w.job.value.script) && p in w.db.own.held
    requires GrantsOf(w.job.value.script.recorded, p.0).None? && GrantsOf(w.job.value.script.def.access, p.0).None?
    ensures p in RunJob(w, upTo, otherwise).db.own.held
  {
    var s := w.job.value.script;
    var text := Text(s);
    if s.def.delete {
      LastWins(s.def.access, p.0);
      RevokeListedIs(s.def.access);
    } else {
      GrantsWithin(s.def.access);
    }
    forall x | x in text ensures x != RevokeAll(p.0) && x != Revoke(p.1, p.0) {
      if !s.def.delete && x in s.revokes { assert !IsObsolete(s.recorded, s.def.access, p); }
    }
    var part := if upTo < |text| then text[..upTo] else text;
    forall x | x in part ensures x in text {}
    RunKeeps(w.db, START, part, p);
  }

  /** No pass of the run is given a definition that lists the schema. */
  ghost predicate NeverLists(steps: seq<Step>, schema: Schema) {
    forall k :: 0 <= k < |steps| && steps[k].Reconcile? ==> GrantsOf(steps[k].def.access, schema).None?
  }

  /** What is held in a schema that the record does not list stays for good, whatever definitions come, as
      long as none lists that schema: revocations follow from the record alone. */
  lemma {:induction false} UnrecordedIsNeverRevoked(w: World, steps: seq<Step>, p: (Schema, Grant))
    requires OnePassword(w) && PossibleRun(w, steps) && NeverLists(steps, p.0) && p in w.db.own.held
    requires GrantsOf(Recorded(w), p.0).None?
    requires w.job.Some? ==> GrantsOf(w.job.value.script.recorded, p.0).None? && GrantsOf(w.job.value.script.def.access, p.0).None?
    ensures p in Play(w, steps).db.own.held
    decreases |steps|
  {
    if steps != [] {
      var step := steps[0];
      if step.JobRuns? { UnlistedStays(w, step.upTo, step.otherwise, p); }
      OnePasswordStep(w, step);
      forall k | 0 <= k < |steps[1..]| && steps[1..][k].Reconcile? ensures GrantsOf(steps[1..][k].def.access, p.0).None? {
        assert steps[1..][k] == steps[k + 1];
      }
      UnrecordedIsNeverRevoked(Next(w, step), steps[1..], p);
    }
  }

  /** Every pass is given this definition. */
  ghost predicate RunsFor(steps: seq<Step>, def: Def) {
    forall k :: 0 <= k < |steps| && steps[k].Reconcile? ==> steps[k].def == def
  }

  /** Some pass cleans up behind a job that has only halted, and gets as far as recording. */
  ghost predicate RecordsHalted(w: World, steps: seq<Step>)
    requires PossibleRun(w, steps)
    decreases |steps|
  {
    steps != [] &&
      ((var s := steps[0];
          && s.Reconcile? && CleansUp(w, s.def, s.newPassword, s.adminDb)
          && HasStatus(w, Halted) && Records(w, s.dry, s.calls))
       || RecordsHalted(Next(w, steps[0]), steps[1..]))
  }

  /** The exact condition on removing a user that was provisioned: over any number of passes, stops, job
      runs and removed jobs the removal is recorded if and only if a pass takes a halted job for a
      completed one; the script itself cannot succeed. */
  lemma {:induction false} RemovalRecordedIff(w: World, steps: seq<Step>, def: Def)
    requires def.delete && w.db.connect && w.store != Some(def)
    requires (w.job.Some? ==> w.job.value.script.def == def) && !HasStatus(w, Succeeded)
    requires PossibleRun(w, steps) && RunsFor(steps, def)
    ensures Play(w, steps).store == Some(def) <==> RecordsHalted(w, steps)
    ensures Play(w, steps).db.connect
    decreases |steps|
  {
    if steps != [] {
      var step, w1 := steps[0], Next(w, steps[0]);
      if step.JobRuns? { RemovalCannotSucceed(w, step, def); }
      forall k | 0 <= k < |steps[1..]| && steps[1..][k].Reconcile? ensures steps[1..][k].def == def { assert steps[1..][k] == steps[k + 1]; }
      if w1.store == Some(def) {
        RecordedStays(w1, steps[1..], def);
      } else {
        RemovalRecordedIff(w1, steps[1..], def);
      }
    }
  }

  lemma RemovalCannotSucceed(w: World, step: Step, def: Def)
    requires def.delete && w.db.connect && Possible(w, step) && step.JobRuns? && w.job.value.script.def == def
    ensures var w1 := Next(w, step); w1.db.connect && !HasStatus(w1, Succeeded) && w1.store == w.store
  {
    var text := Text(w.job.value.script);
    DeprovisionIff(w.db, def.access);
    ConnectStays(w.db, START, if step.upTo < |text| then text[..step.upTo] else text);
    assert text[..|text|] == text;
  }

  /** What is recorded stays recorded while no other definition comes. */
  lemma {:induction false} RecordedStays(w: World, steps: seq<Step>, def: Def)
    requires w.store == Some(def) && PossibleRun(w, steps) && RunsFor(steps, def) && w.db.connect
    ensures Play(w, steps).store == Some(def) && Play(w, steps).db.connect
    decreases |steps|
  {
    if steps != [] {
      if steps[0].JobRuns? {
        var text := Text(w.job.value.script);
        ConnectStays(w.db, START, if steps[0].upTo < |text| then text[..steps[0].upTo] else text);
      }
      forall k | 0 <= k < |steps[1..]| && steps[1..][k].Reconcile? ensures steps[1..][k].def == def { assert steps[1..][k] == steps[k + 1]; }
      RecordedStays(Next(w, steps[0]), steps[1..], def);
    }
  }

  /** A definition changed while a job is under way is recorded without ever having been executed, and
      nothing makes up for it later. */
  lemma ChangeInFlightIsLost(w: World, def: Def, newPassword: string, revokes: seq<Statement>, adminDb: string, later: seq<Step>)
    requires Faithful(w) && HasStatus(w, Succeeded) && Deletable(w) == 5 && CleansUp(w, def, newPassword, adminDb)
    requires Due(def) != Due(w.job.value.script.def)
    requires var w' := Pass(w, def, false, newPassword, revokes, CLEAN_UP, adminDb);
             PossibleRun(w', later) && forall k :: 0 <= k < |later| ==> later[k].Reconcile? && later[k].def == def
    ensures var w' := Play(Pass(w, def, false, newPassword, revokes, CLEAN_UP, adminDb), later);
            w'.store == Some(def) && w'.db.own.held != Due(def)
  {
    RecordsTruthIff(w, def, newPassword, revokes, adminDb);
    RecordedIsFinal(Pass(w, def, false, newPassword, revokes, CLEAN_UP, adminDb), later, def);
  }
}
