/** The tasks of one realization run in a thread pool: each starts by reading the error flags and
    then handles its names one by one, in any interleaving with the other tasks. */
module OpenshiftTasks {
  import opened Common
  import opened OpenshiftRealize

  datatype Key = Key(cluster: string, namespace: string, kind: string)

  /** Fixed for the run: the inventory, the options, the API's answers and the objects at the start. */
  datatype Setup = Setup(
    entries: map<Key, Entry>, opts: Opts, env: Key -> Env, start: map<Key, map<Name, Live>>,
    errors: bool, clusterErrors: set<string>)

  datatype Progress = Waiting | Skipped | Running(enable: bool, todo: set<Name>)

  datatype Event = Event(key: Key, name: Name, action: Verdict)

  datatype Machine = Machine(errors: bool, tasks: map<Key, Progress>, live: map<Key, map<Name, Live>>, log: seq<Event>)

  datatype Step = Begin(key: Key) | Act(key: Key, name: Name)

  ghost predicate ValidSetup(s: Setup) {
    s.start.Keys == s.entries.Keys
  }

  function Init(s: Setup): Machine {
    Machine(s.errors, map k | k in s.entries :: Waiting, s.start, [])
  }

  /** Handlers run in this order: identical, new, modified, deleted. */
  function Phase(t: Entry, n: Name): nat {
    if n in t.current && n in t.desired then (if IsSame(t.current[n], t.desired[n]) then 0 else 2)
    else if n in t.desired then 1
    else 3
  }

  ghost predicate CanStep(s: Setup, m: Machine, step: Step) {
    && step.key in s.entries && step.key in m.tasks && step.key in m.live
    && match step
       case Begin(k) => m.tasks[k].Waiting?
       case Act(k, n) =>
         && m.tasks[k].Running? && n in m.tasks[k].todo
         && forall n' :: n' in m.tasks[k].todo ==> Phase(Patched(s.entries[k]), n) <= Phase(Patched(s.entries[k]), n')
  }

  function Started(s: Setup, m: Machine, k: Key): Progress
    requires k in s.entries
  {
    if k.cluster in s.clusterErrors || Raises(s.entries[k]) then Skipped
    else Running(DeletionOn(m.errors, s.opts), Names(s.entries[k]))
  }

  function Next(s: Setup, m: Machine, step: Step): Machine
    requires step.key in s.entries && step.key in m.tasks && step.key in m.live
    requires step.Act? ==> m.tasks[step.key].Running?
  {
    var k := step.key;
    match step
    case Begin(_) => m.(tasks := m.tasks[k := Started(s, m, k)])
    case Act(_, n) =>
      var t, p := Patched(s.entries[k]), m.tasks[k];
      var effect := Handle(t, n, Lookup(m.live[k], n), p.enable, s.opts, s.env(k));
      var verdict := Decide(t, n, s.opts);
      Machine(m.errors || effect.error,
              m.tasks[k := p.(todo := p.todo - {n})],
              m.live[k := Put(m.live[k], n, effect.live)],
              if verdict == Apply || verdict == Delete then m.log + [Event(k, n, verdict)] else m.log)
  }

  ghost predicate CanRun(s: Setup, m: Machine, steps: seq<Step>)
    decreases |steps|
  {
    steps == [] || (CanStep(s, m, steps[0]) && CanRun(s, Next(s, m, steps[0]), steps[1..]))
  }

  ghost function Run(s: Setup, m: Machine, steps: seq<Step>): Machine
    requires CanRun(s, m, steps)
    decreases |steps|
  {
    if steps == [] then m else Run(s, Next(s, m, steps[0]), steps[1..])
  }

  // --- The invariant --------------------------------------------------------------------

  ghost function Handled(s: Setup, m: Machine, k: Key): set<Name>
    requires k in s.entries && k in m.tasks
  {
    if m.tasks[k].Running? then Names(s.entries[k]) - m.tasks[k].todo else {}
  }

  /** A task in the middle of its names has done to its objects what it would have done alone. */
  ghost predicate TaskOk(s: Setup, m: Machine, k: Key)
    requires k in s.entries && k in s.start && k in m.tasks && k in m.live
  {
    match m.tasks[k]
    case Running(enable, todo) =>
      && todo <= Names(s.entries[k])
      && k.cluster !in s.clusterErrors
      && (enable ==> !s.errors && s.opts.deletion != Some(false))
      && m.live[k] == After(Patched(s.entries[k]), s.start[k], Handled(s, m, k), enable, s.opts, s.env(k))
    case _ => m.live[k] == s.start[k]
  }

  ghost predicate EventOk(s: Setup, m: Machine, e: Event) {
    && e.key in s.entries && e.key in m.tasks && m.tasks[e.key].Running?
    && e.name in Handled(s, m, e.key)
    && e.action == Decide(Patched(s.entries[e.key]), e.name, s.opts) && (e.action == Apply || e.action == Delete)
    && forall n :: n in m.tasks[e.key].todo ==> Phase(Patched(s.entries[e.key]), e.name) <= Phase(Patched(s.entries[e.key]), n)
  }

  ghost predicate Ordered(s: Setup, log: seq<Event>) {
    forall i, j :: 0 <= i < j < |log| && log[i].key == log[j].key && log[i].key in s.entries ==>
      && log[i].name != log[j].name
      && Phase(Patched(s.entries[log[i].key]), log[i].name) <= Phase(Patched(s.entries[log[i].key]), log[j].name)
  }

  ghost predicate Inv(s: Setup, m: Machine) {
    && ValidSetup(s) && m.tasks.Keys == s.entries.Keys && m.live.Keys == s.entries.Keys
    && (forall k :: k in s.entries ==> TaskOk(s, m, k))
    && (forall e :: e in m.log ==> EventOk(s, m, e))
    && Ordered(s, m.log)
    && (s.errors ==> m.errors)
  }

  lemma InitInv(s: Setup)
    requires ValidSetup(s)
    ensures Inv(s, Init(s))
  {
  }

  lemma BeginInv(s: Setup, m: Machine, k: Key)
    requires Inv(s, m) && CanStep(s, m, Begin(k))
    ensures Inv(s, Next(s, m, Begin(k)))
  {
    var m' := Next(s, m, Begin(k));
    if m'.tasks[k].Running? {
      assert Handled(s, m', k) == {};
      AfterNothing(Patched(s.entries[k]), s.start[k], m'.tasks[k].enable, s.opts, s.env(k));
    }
    forall x | x in s.entries ensures TaskOk(s, m', x) {
      assert TaskOk(s, m, x);
      if x != k { assert Handled(s, m', x) == Handled(s, m, x); }
    }
    forall e | e in m'.log ensures EventOk(s, m', e) {
      assert EventOk(s, m, e) && e.key != k;
      assert Handled(s, m', e.key) == Handled(s, m, e.key);
    }
  }

  lemma ActTask(s: Setup, m: Machine, k: Key, n: Name)
    requires Inv(s, m) && CanStep(s, m, Act(k, n))
    ensures TaskOk(s, Next(s, m, Act(k, n)), k)
    ensures Handled(s, Next(s, m, Act(k, n)), k) == Handled(s, m, k) + {n}
  {
    var m' := Next(s, m, Act(k, n));
    assert TaskOk(s, m, k);
    assert Handled(s, m', k) == Handled(s, m, k) + {n};
    AfterOneMore(Patched(s.entries[k]), s.start[k], Handled(s, m, k), n, m.tasks[k].enable, s.opts, s.env(k));
  }

  lemma ActEvents(s: Setup, m: Machine, k: Key, n: Name, e: Event)
    requires Inv(s, m) && CanStep(s, m, Act(k, n)) && e in Next(s, m, Act(k, n)).log
    ensures EventOk(s, Next(s, m, Act(k, n)), e)
  {
    var m' := Next(s, m, Act(k, n));
    ActTask(s, m, k, n);
    if e in m.log {
      assert EventOk(s, m, e);
      if e.key != k { assert Handled(s, m', e.key) == Handled(s, m, e.key); }
    }
  }

  lemma ActOrder(s: Setup, m: Machine, k: Key, n: Name)
    requires Inv(s, m) && CanStep(s, m, Act(k, n))
    ensures Ordered(s, Next(s, m, Act(k, n)).log)
  {
    var log := Next(s, m, Act(k, n)).log;
    forall i, j | 0 <= i < j < |log| && log[i].key == log[j].key && log[i].key in s.entries
      ensures log[i].name != log[j].name
      ensures Phase(Patched(s.entries[log[i].key]), log[i].name) <= Phase(Patched(s.entries[log[i].key]), log[j].name)
    {
      assert log[i] == m.log[i] && m.log[i] in m.log && EventOk(s, m, m.log[i]);
    }
  }

  lemma ActInv(s: Setup, m: Machine, k: Key, n: Name)
    requires Inv(s, m) && CanStep(s, m, Act(k, n))
    ensures Inv(s, Next(s, m, Act(k, n)))
  {
    var m' := Next(s, m, Act(k, n));
    ActTask(s, m, k, n);
    forall x | x in s.entries ensures TaskOk(s, m', x) {
      assert TaskOk(s, m, x);
      if x != k { assert Handled(s, m', x) == Handled(s, m, x); }
    }
    forall e | e in m'.log ensures EventOk(s, m', e) { ActEvents(s, m, k, n, e); }
    ActOrder(s, m, k, n);
  }

  lemma {:induction false} RunInv(s: Setup, m: Machine, steps: seq<Step>)
    requires Inv(s, m) && CanRun(s, m, steps)
    ensures Inv(s, Run(s, m, steps))
    decreases |steps|
  {
    if steps != [] {
      match steps[0]
      case Begin(k) => BeginInv(s, m, k); RunInv(s, Next(s, m, steps[0]), steps[1..]);
      case Act(k, n) => ActInv(s, m, k, n); RunInv(s, Next(s, m, steps[0]), steps[1..]);
    }
  }

  // --- What every interleaving guarantees -----------------------------------------------

  /** Interleaving does not matter: a task that is through has left its objects exactly as a task
      run alone with the flags it read at its start. */
  lemma InterleavingIsAtomic(s: Setup, steps: seq<Step>, k: Key)
    requires ValidSetup(s) && CanRun(s, Init(s), steps) && k in s.entries
    ensures var m := Run(s, Init(s), steps);
            && k in m.tasks && k in m.live
            && (m.tasks[k].Running? && m.tasks[k].todo == {} && !Raises(s.entries[k]) ==>
                  m.live[k] == if m.tasks[k].enable then Realized(s.entries[k], s.start[k], false, false, s.opts, s.env(k))
                               else Realized(s.entries[k], s.start[k], true, false, s.opts, s.env(k)))
            && (!m.tasks[k].Running? ==> m.live[k] == s.start[k])
  {
    InitInv(s);
    RunInv(s, Init(s), steps);
    var m := Run(s, Init(s), steps);
    assert TaskOk(s, m, k);
    if m.tasks[k].Running? && m.tasks[k].todo == {} {
      assert Handled(s, m, k) == Names(s.entries[k]);
    }
  }

  /** Errors are never forgotten, so a task that has not started by then will not delete. */
  lemma {:induction false} ErrorsStick(s: Setup, m: Machine, steps: seq<Step>, k: Key)
    requires CanRun(s, m, steps) && m.errors && k in m.tasks && (m.tasks[k].Running? ==> !m.tasks[k].enable)
    ensures var m' := Run(s, m, steps); m'.errors && k in m'.tasks && (m'.tasks[k].Running? ==> !m'.tasks[k].enable)
    decreases |steps|
  {
    if steps != [] {
      ErrorsStick(s, Next(s, m, steps[0]), steps[1..], k);
    }
  }

  lemma NothingDeleted(t: Entry, live: map<Name, Live>, ns: set<Name>, o: Opts, e: Env)
    ensures live.Keys <= After(t, live, ns, false, o, e).Keys
  {
    forall n | n in live ensures n in After(t, live, ns, false, o, e) {
      AfterAt(t, live, ns, false, o, e, n);
    }
  }

  /** A task that starts after any registered error deletes nothing, whatever happens next. */
  lemma NoDeletionAfterError(s: Setup, before: seq<Step>, after: seq<Step>, k: Key)
    requires ValidSetup(s) && CanRun(s, Init(s), before) && k in s.entries
    requires var m := Run(s, Init(s), before);
             m.errors && k in m.tasks && m.tasks[k].Waiting? && CanRun(s, m, after)
    ensures var m' := Run(s, Run(s, Init(s), before), after);
            k in m'.live && s.start[k].Keys <= m'.live[k].Keys
  {
    var m := Run(s, Init(s), before);
    InitInv(s);
    RunInv(s, Init(s), before);
    RunInv(s, m, after);
    ErrorsStick(s, m, after, k);
    var m' := Run(s, m, after);
    assert TaskOk(s, m', k);
    if m'.tasks[k].Running? {
      NothingDeleted(Patched(s.entries[k]), s.start[k], Handled(s, m', k), s.opts, s.env(k));
    }
  }

  /** A cluster with registered errors is left alone: no action is planned or taken there. */
  lemma FailedClusterUntouched(s: Setup, steps: seq<Step>, k: Key)
    requires ValidSetup(s) && CanRun(s, Init(s), steps) && k in s.entries && k.cluster in s.clusterErrors
    ensures var m := Run(s, Init(s), steps);
            && k in m.live && m.live[k] == s.start[k]
            && forall e :: e in m.log ==> e.key != k
  {
    InitInv(s);
    RunInv(s, Init(s), steps);
    var m := Run(s, Init(s), steps);
    assert TaskOk(s, m, k);
    forall e | e in m.log ensures e.key != k { assert EventOk(s, m, e); }
  }

  /** Within a task each name gets at most one action, and deletions come last. */
  lemma OneActionPerName(s: Setup, steps: seq<Step>, i: nat, j: nat)
    requires ValidSetup(s) && CanRun(s, Init(s), steps)
    requires var log := Run(s, Init(s), steps).log; i < j < |log| && log[i].key == log[j].key
    ensures var log := Run(s, Init(s), steps).log;
            log[i].name != log[j].name && (log[i].action == Delete ==> log[j].action == Delete)
  {
    InitInv(s);
    RunInv(s, Init(s), steps);
    var m := Run(s, Init(s), steps);
    assert m.log[i] in m.log && EventOk(s, m, m.log[i]);
    assert m.log[j] in m.log && EventOk(s, m, m.log[j]);
  }

  /** Whatever is deleted was fetched, is not desired, and is either annotated as managed - by this
      caller, if one is given - or taken over and without an owner. */
  ghost predicate MayDelete(t: Entry, n: Name, o: Opts) {
    && n in t.current && n !in t.desired
    && var cur := t.current[n];
       if HasAnnotations(cur, o) then o.caller.None? || cur.marks.caller == o.caller
       else o.takeOver && !cur.owned
  }

  ghost predicate MayApply(t: Entry, n: Name, o: Opts) {
    && n in t.desired
    && (n in t.current && !o.takeOver && (o.dry || !o.skipCompare) ==> !IsForeign(t.current[n], o))
  }

  /** The planned actions are exactly the permitted ones: every deletion was allowed, every apply is
      of a desired object that no other live caller holds, and a deletion never uses the admin token. */
  lemma ActionsPermitted(s: Setup, steps: seq<Step>, e: Event)
    requires ValidSetup(s) && CanRun(s, Init(s), steps) && e in Run(s, Init(s), steps).log
    ensures e.key in s.entries && (e.action == Delete || e.action == Apply)
    ensures e.action == Delete ==> MayDelete(s.entries[e.key], e.name, s.opts)
    ensures e.action == Apply ==> MayApply(s.entries[e.key], e.name, s.opts)
    ensures e.action == Delete && s.entries[e.key].admin.Keys == s.entries[e.key].desired.Keys ==> !Privileged(s.entries[e.key], e.name)
  {
    InitInv(s);
    RunInv(s, Init(s), steps);
    assert EventOk(s, Run(s, Init(s), steps), e);
  }

  /** Conversely a task that is through has planned every action its verdicts ask for. */
  ghost predicate Planned(s: Setup, m: Machine, k: Key, n: Name) {
    exists e :: e in m.log && e.key == k && e.name == n
  }

  ghost predicate AllPlanned(s: Setup, m: Machine, k: Key)
    requires k in s.entries && k in m.tasks
  {
    forall n :: n in Handled(s, m, k) && (Decide(Patched(s.entries[k]), n, s.opts) == Apply || Decide(Patched(s.entries[k]), n, s.opts) == Delete)
      ==> Planned(s, m, k, n)
  }

  lemma PlannedStep(s: Setup, m: Machine, step: Step, k: Key)
    requires Inv(s, m) && CanStep(s, m, step) && k in s.entries && AllPlanned(s, m, k)
    ensures k in Next(s, m, step).tasks && AllPlanned(s, Next(s, m, step), k)
  {
    var m' := Next(s, m, step);
    if step.Act? { ActTask(s, m, step.key, step.name); }
    forall n | n in Handled(s, m', k) && (Decide(Patched(s.entries[k]), n, s.opts) == Apply || Decide(Patched(s.entries[k]), n, s.opts) == Delete)
      ensures Planned(s, m', k, n)
    {
      if n in Handled(s, m, k) {
        var e :| e in m.log && e.key == k && e.name == n;
        assert e in m'.log;
      } else {
        assert step == Act(k, n);
        assert m'.log[|m.log|] == Event(k, n, Decide(Patched(s.entries[k]), n, s.opts));
      }
    }
  }

  lemma {:induction false} EverythingPlanned(s: Setup, m: Machine, steps: seq<Step>, k: Key)
    requires Inv(s, m) && CanRun(s, m, steps) && k in s.entries && AllPlanned(s, m, k)
    ensures k in Run(s, m, steps).tasks && AllPlanned(s, Run(s, m, steps), k)
    decreases |steps|
  {
    if steps != [] {
      PlannedStep(s, m, steps[0], k);
      match steps[0]
      case Begin(x) => BeginInv(s, m, x); EverythingPlanned(s, Next(s, m, steps[0]), steps[1..], k);
      case Act(x, n) => ActInv(s, m, x, n); EverythingPlanned(s, Next(s, m, steps[0]), steps[1..], k);
    }
  }
}
