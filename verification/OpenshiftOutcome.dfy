/** What a realization task does with each name, told by annotations, options and single fields. */
module OpenshiftOutcome {
  import opened Common
  import opened OpenshiftRealize
  import opened OpenshiftTasks

  // --- What is wanted, and what agrees --------------------------------------------------

  predicate IsRestartField(f: Field) {
    f == KubectlRestartedAt || f == OpenshiftRestartedAt
  }

  function BodyOf(live: map<Name, Live>, n: Name): Body {
    if n in live then live[n].body else map[]
  }

  /** The desired value of a field: what the desired object says, or else a restart annotation that the
      fetched object carries with a value, if the kind recycles. */
  function WantedAt(t: Entry, n: Name, f: Field): Option<Leaf>
    requires n in t.desired
  {
    var cur := BodyOf(t.current, n);
    if f in t.desired[n].body then Some(t.desired[n].body[f])
    else if t.recycles && IsRestartField(f) && f in cur && cur[f].text != "" then Some(cur[f])
    else None
  }

  /** The body has exactly the wanted fields. */
  ghost predicate IsWanted(t: Entry, n: Name, body: Body)
    requires n in t.desired
  {
    forall f :: if WantedAt(t, n, f).Some? then f in body && body[f] == WantedAt(t, n, f).value else f !in body
  }

  /** The server's value may stand for the wanted one: the same CPU quantity in other words, or an empty
      environment value left out. */
  predicate StandsFor(cur: Body, f: Field, want: Leaf) {
    || (f in cur && cur[f] == want)
    || (f in cur && cur[f].Cpu? && want.Cpu? && cur[f].millis == want.millis)
    || (f !in cur && want.EnvValue? && want.text == "")
  }

  /** The fetched object was made from the wanted body by the same integration, and every wanted field
      still stands. */
  ghost predicate IsCurrent(t: Entry, n: Name)
    requires n in t.desired && n in t.current
  {
    var cur := t.current[n];
    && cur.marks.sha.Some? && IsWanted(t, n, cur.marks.sha.value)
    && cur.marks.integration == Some(t.desired[n].integration)
    && forall f :: WantedAt(t, n, f).Some? ==> StandsFor(cur.body, f, WantedAt(t, n, f).value)
  }

  /** Annotated by a caller that is still there. */
  predicate IsClaimed(cur: Live, o: Opts) {
    cur.marks.caller.Some? && cur.marks.caller.value in o.allCallers
  }

  /** Annotated by another caller than this one, or by none. */
  predicate IsOthers(cur: Live, o: Opts) {
    o.caller.Some? && cur.marks.caller != o.caller
  }

  // --- Verdicts -------------------------------------------------------------------------

  /** An object that is desired is applied if it is missing.  One that is as wanted is applied only to change
      hands: on take-over, or from no caller or one that is gone, when callers are listed at all.  One that
      is not as wanted is applied unless another living caller claims it, and then too on take-over
      or, outside dry runs, without comparison. */
  ghost predicate ToApply(t: Entry, n: Name, o: Opts) {
    n in t.desired && (
      n in t.current ==>
        var cur := t.current[n];
        if IsCurrent(t, n) then IsOthers(cur, o) && (o.takeOver || (!IsClaimed(cur, o) && o.allCallers != {}))
        else o.takeOver || (o.skipCompare && !o.dry) || !(IsOthers(cur, o) && IsClaimed(cur, o)))
  }

  /** The objects of others that are desired too, but not applied, are complained about. */
  ghost predicate ToComplain(t: Entry, n: Name, o: Opts) {
    n in t.desired && n in t.current && IsOthers(t.current[n], o) && !ToApply(t, n, o)
  }

  /** An object that is not desired is deleted if it bears the annotations of this integration, version
      and caller; without those annotations on take-over alone, and then only if nothing owns it. */
  ghost predicate ToDelete(t: Entry, n: Name, o: Opts) {
    n in t.current && n !in t.desired && (
      var cur := t.current[n];
      if cur.marks.integration == Some(o.integration) && cur.marks.major == Some(o.major) && cur.marks.sha.Some? then
        o.caller == None || cur.marks.caller == o.caller
      else o.takeOver && !cur.owned)
  }

  lemma PatchedIsWanted(t: Entry, n: Name)
    requires n in t.desired
    ensures IsWanted(t, n, Patched(t).desired[n].body)
    ensures forall body :: IsWanted(t, n, body) <==> body == Patched(t).desired[n].body
  {
    var p := Patched(t).desired[n].body;
    assert forall f :: f in RECYCLE_FIELDS <==> IsRestartField(f);
    assert IsWanted(t, n, p);
    forall body | IsWanted(t, n, body) ensures body == p {
      forall f ensures (f in body <==> f in p) && (f in body ==> body[f] == p[f]) { assert WantedAt(t, n, f).Some? || f !in body; }
    }
  }

  lemma CurrentIs(t: Entry, n: Name)
    requires n in t.desired && n in t.current
    ensures IsCurrent(t, n) <==> IsSame(t.current[n], Patched(t).desired[n])
  {
    var cur, want := t.current[n], Patched(t).desired[n];
    PatchedIsWanted(t, n);
    assert forall f :: WantedAt(t, n, f).Some? <==> f in want.body;
    forall f | f in want.body ensures want.body[f] == WantedAt(t, n, f).value && (IsMet(cur.body, f, want.body[f]) <==> StandsFor(cur.body, f, want.body[f])) {
      assert WantedAt(t, n, f).Some?;
    }
    if IsSame(cur, want) {
      forall f | WantedAt(t, n, f).Some? ensures StandsFor(cur.body, f, WantedAt(t, n, f).value) { assert f in want.body && IsMet(cur.body, f, want.body[f]); }
    }
  }

  /** The verdict on every name. */
  lemma VerdictIs(t: Entry, n: Name, o: Opts)
    ensures Decide(Patched(t), n, o) == Apply <==> ToApply(t, n, o)
    ensures Decide(Patched(t), n, o) == Complain <==> ToComplain(t, n, o)
    ensures Decide(Patched(t), n, o) == Delete <==> ToDelete(t, n, o)
  {
    if n in t.desired && n in t.current { CurrentIs(t, n); }
  }

  // --- Effects --------------------------------------------------------------------------

  /** The comparison raises on an object that has a hash but names no integration. */
  ghost predicate IsGarbled(t: Entry) {
    exists n :: n in t.current && n in t.desired && t.current[n].marks.sha.Some? && t.current[n].marks.integration.None?
  }

  /** A call about this name gets to the API server: with admin rights where the entry asks for them. */
  predicate GetsThrough(t: Entry, n: Name, o: Opts, e: Env) {
    !o.dry && e.reach(n in t.admin && t.admin[n])
  }

  /** The object made from the wanted one. */
  ghost predicate IsMade(t: Entry, n: Name, was: Option<Live>, l: Live)
    requires n in t.desired
  {
    var want := t.desired[n];
    && IsWanted(t, n, l.body) && l.marks.sha == Some(l.body)
    && l.marks.integration == Some(want.integration) && l.marks.major == Some(want.major) && l.marks.caller == want.caller
    && (l.owned <==> was.Some? && was.value.owned)
  }

  ghost predicate IsApplied(t: Entry, n: Name, o: Opts, e: Env) {
    ToApply(t, n, o) && GetsThrough(t, n, o, e) && e.present && !e.refuses(n)
  }

  /** Deletion needs a task without errors before it, and not to be switched off. */
  ghost predicate IsDeleted(t: Entry, n: Name, errors: bool, o: Opts, e: Env) {
    ToDelete(t, n, o) && !errors && o.deletion != Some(false) && GetsThrough(t, n, o, e) && !e.refuses(n)
  }

  /** A complaint, a refused call, or an apply to a namespace that is missing when the task waits for it. */
  ghost predicate IsFailing(t: Entry, n: Name, errors: bool, o: Opts, e: Env) {
    || ToComplain(t, n, o)
    || (ToApply(t, n, o) && GetsThrough(t, n, o, e) && if e.present then e.refuses(n) else o.wait)
    || (ToDelete(t, n, o) && !errors && o.deletion != Some(false) && GetsThrough(t, n, o, e) && e.refuses(n))
  }

  /** What a task leaves of every name, on a cluster without registered errors and unless the comparison
      raises: exactly the names to be applied have their wanted object, exactly those to be deleted
      are gone, and every other object is as it was. */
  lemma TaskDoes(t: Entry, live: map<Name, Live>, errors: bool, o: Opts, e: Env, n: Name)
    requires !IsGarbled(t)
    ensures var live' := Realized(t, live, errors, false, o, e);
            if IsApplied(t, n, o, e) then n in live' && IsMade(t, n, Lookup(live, n), live'[n])
            else if IsDeleted(t, n, errors, o, e) then n !in live'
            else Lookup(live', n) == Lookup(live, n)
  {
    var p := Patched(t);
    AfterAt(p, live, Names(t), DeletionOn(errors, o), o, e, n);
    VerdictIs(t, n, o);
    if n in t.desired { PatchedIsWanted(t, n); }
  }

  lemma FailingIs(t: Entry, was: Option<Live>, errors: bool, o: Opts, e: Env, n: Name)
    ensures Handle(Patched(t), n, was, DeletionOn(errors, o), o, e).error <==> IsFailing(t, n, errors, o, e)
  {
    VerdictIs(t, n, o);
  }

  /** A task fails exactly if the comparison raises or some name fails; on a cluster with registered errors,
      or if the comparison raises, it touches nothing. */
  lemma TaskFailsIff(t: Entry, live: map<Name, Live>, errors: bool, clusterError: bool, o: Opts, e: Env)
    ensures RealizeFails(t, live, errors, clusterError, o, e) <==>
      !clusterError && (IsGarbled(t) || exists n :: (n in t.current || n in t.desired) && IsFailing(t, n, errors, o, e))
    ensures clusterError || IsGarbled(t) ==> Realized(t, live, errors, clusterError, o, e) == live
  {
    forall n ensures Handle(Patched(t), n, Lookup(live, n), DeletionOn(errors, o), o, e).error <==> IsFailing(t, n, errors, o, e) {
      FailingIs(t, Lookup(live, n), errors, o, e, n);
    }
    if n :| (n in t.current || n in t.desired) && IsFailing(t, n, errors, o, e) { assert n in Names(t); }
    if n :| n in Names(t) && Handle(Patched(t), n, Lookup(live, n), DeletionOn(errors, o), o, e).error {
      assert (n in t.current || n in t.desired) && IsFailing(t, n, errors, o, e);
    }
  }

  // --- Plans ----------------------------------------------------------------------------

  /** A task that is through has planned exactly the actions that are called for. */
  lemma PlansExactly(s: Setup, steps: seq<Step>, k: Key, n: Name)
    requires ValidSetup(s) && CanRun(s, Init(s), steps) && k in s.entries
    ensures var m, t := Run(s, Init(s), steps), s.entries[k];
            && k in m.tasks
            && (Event(k, n, Apply) in m.log ==> ToApply(t, n, s.opts)) && (Event(k, n, Delete) in m.log ==> ToDelete(t, n, s.opts))
            && (m.tasks[k].Running? && m.tasks[k].todo == {} ==>
                  && (Event(k, n, Apply) in m.log <==> ToApply(t, n, s.opts)) && (Event(k, n, Delete) in m.log <==> ToDelete(t, n, s.opts)))
            && forall e :: e in m.log ==> e.action == Apply || e.action == Delete
  {
    var m, t := Run(s, Init(s), steps), s.entries[k];
    InitInv(s);
    RunInv(s, Init(s), steps);
    EverythingPlanned(s, Init(s), steps, k);
    VerdictIs(t, n, s.opts);
    assert TaskOk(s, m, k) && forall e :: e in m.log ==> EventOk(s, m, e);
    if m.tasks[k].Running? && m.tasks[k].todo == {} && (ToApply(t, n, s.opts) || ToDelete(t, n, s.opts)) {
      assert n in Handled(s, m, k) && Planned(s, m, k, n);
      var e :| e in m.log && e.key == k && e.name == n;
      assert EventOk(s, m, e);
    }
  }

  /** First the objects that are as wanted, then the missing ones, then those to be changed, and last those
      that are not desired. */
  ghost function Stage(t: Entry, n: Name): nat {
    if n !in t.desired then 3 else if n !in t.current then 1 else if IsCurrent(t, n) then 0 else 2
  }

  /** Within a task the actions come in stages, and each name gets one at most. */
  lemma StagesInOrder(s: Setup, steps: seq<Step>, i: nat, j: nat)
    requires ValidSetup(s) && CanRun(s, Init(s), steps)
    requires var log := Run(s, Init(s), steps).log; i < j < |log| && log[i].key == log[j].key
    ensures var log := Run(s, Init(s), steps).log;
            && log[i].key in s.entries && log[i].name != log[j].name
            && Stage(s.entries[log[i].key], log[i].name) <= Stage(s.entries[log[i].key], log[j].name)
  {
    InitInv(s);
    RunInv(s, Init(s), steps);
    var m := Run(s, Init(s), steps);
    assert m.log[i] in m.log && EventOk(s, m, m.log[i]);
    StageIs(s.entries[m.log[i].key], m.log[i].name);
    StageIs(s.entries[m.log[i].key], m.log[j].name);
  }

  lemma StageIs(t: Entry, n: Name)
    ensures Phase(Patched(t), n) == Stage(t, n)
  {
    if n in t.desired && n in t.current { CurrentIs(t, n); }
  }
}
