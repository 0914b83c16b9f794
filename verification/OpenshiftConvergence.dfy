/** Convergence of realization: after an error-free task the same desired state asks for nothing more,
    exactly as long as nobody has changed the restart annotations that were carried over. */
module OpenshiftConvergence {
  import opened Common
  import opened OpenshiftRealize

  /** Object `l` is what its owner wants: stamped with the patched desired body and covering it. */
  ghost predicate IsRealized(t: Entry, n: Name, l: Live, o: Opts) {
    n in t.desired && (
      var want := Patch(t.recycles, t.desired[n], l);
      IsSame(l, want) && (o.caller.None? || l.marks.caller == o.caller))
  }

  /** Desired objects carry the name of the caller that realizes them. */
  ghost predicate CallsItself(t: Entry, o: Opts) {
    o.caller.Some? ==> forall n :: n in t.desired ==> t.desired[n].caller == o.caller
  }

  /** Patching an object that was just applied changes nothing. */
  lemma PatchAgain(recycles: bool, want: Want, cur: Live, again: Live)
    requires again.body == Patch(recycles, want, cur).body
    ensures Patch(recycles, want, again) == Patch(recycles, want, cur)
  {
    if recycles {
      var once := Carried(cur.body) + want.body;
      assert Carried(once) + want.body == once;
    }
  }

  lemma FreshIsRealized(t: Entry, n: Name, was: Option<Live>, o: Opts)
    requires n in t.desired && CallsItself(t, o)
    ensures var want := if was.Some? then Patch(t.recycles, t.desired[n], was.value) else t.desired[n];
            IsRealized(t, n, Stamped(want, was), o)
  {
    var want := if was.Some? then Patch(t.recycles, t.desired[n], was.value) else t.desired[n];
    var l := Stamped(want, was);
    if was.Some? {
      PatchAgain(t.recycles, t.desired[n], was.value, l);
    } else {
      assert Carried(want.body) + want.body == want.body;
    }
    forall f | f in want.body ensures IsMet(l.body, f, want.body[f]) {}
  }

  ghost predicate Reachable(e: Env) {
    e.present && e.reach(true) && e.reach(false)
  }

  /** The realization saw the live objects, started with deletion on and met no error. */
  ghost predicate ErrorFree(t: Entry, live: map<Name, Live>, o: Opts, e: Env) {
    && t.current == live && !o.dry && Reachable(e) && o.deletion != Some(false)
    && !RealizeFails(t, live, false, false, o, e)
  }

  lemma DesiredSettles(t: Entry, live: map<Name, Live>, o: Opts, e: Env, n: Name)
    requires ErrorFree(t, live, o, e) && CallsItself(t, o) && n in t.desired
    ensures var live1 := Realized(t, live, false, false, o, e); n in live1 && IsRealized(t, n, live1[n], o)
  {
    var was, p := Lookup(live, n), Patched(t);
    AfterAt(p, live, Names(t), true, o, e, n);
    assert n in Names(t) && !Handle(p, n, was, true, o, e).error;
    FreshIsRealized(t, n, was, o);
  }

  /** Only leftovers the ownership rules spare are still there. */
  lemma LeftoversStay(t: Entry, live: map<Name, Live>, o: Opts, e: Env, n: Name)
    requires ErrorFree(t, live, o, e) && n !in t.desired
    ensures var live1 := Realized(t, live, false, false, o, e);
            n in live1 <==> n in live && ForDeleted(live[n], o) == Leave
    ensures var live1 := Realized(t, live, false, false, o, e); n in live1 ==> live1[n] == live[n]
  {
    var was, p := Lookup(live, n), Patched(t);
    AfterAt(p, live, Names(t), true, o, e, n);
    if n in live {
      assert n in Names(t) && !Handle(p, n, was, true, o, e).error;
    }
  }

  // --- In between -----------------------------------------------------------------------

  /** Nothing differs but restart annotations that the desired object does not set. */
  ghost predicate OnlyRestarts(t: Entry, n: Name, l: Live, l': Live) {
    && l'.marks == l.marks && l'.owned == l.owned
    && forall f :: f !in RECYCLE_FIELDS || (n in t.desired && f in t.desired[n].body) ==> SameAt(l.body, l'.body, f)
  }

  ghost predicate SameAt(a: Body, b: Body, f: Field) {
    (f in a <==> f in b) && (f in a ==> a[f] == b[f])
  }

  ghost predicate Restarted(t: Entry, live: map<Name, Live>, live': map<Name, Live>) {
    live'.Keys == live.Keys && forall n :: n in live ==> OnlyRestarts(t, n, live[n], live'[n])
  }

  /** The restart annotations that would be carried over into the desired object are the same. */
  ghost predicate SameRestarts(t: Entry, n: Name, l: Live, l': Live)
    requires n in t.desired
  {
    forall f :: f in RECYCLE_FIELDS && f !in t.desired[n].body ==> SameAt(Carried(l.body), Carried(l'.body), f)
  }

  lemma SamePatch(t: Entry, n: Name, l: Live, l': Live)
    requires n in t.desired && t.recycles
    ensures Patch(true, t.desired[n], l).body == Patch(true, t.desired[n], l').body <==> SameRestarts(t, n, l, l')
  {
    var a, b := Patch(true, t.desired[n], l).body, Patch(true, t.desired[n], l').body;
    forall f | f in RECYCLE_FIELDS && f !in t.desired[n].body
      ensures SameAt(a, b, f) <==> SameAt(Carried(l.body), Carried(l'.body), f)
    {}
    if SameRestarts(t, n, l, l') {
      forall f ensures SameAt(a, b, f) {}
      assert a == b;
    } else {
      var f :| f in RECYCLE_FIELDS && f !in t.desired[n].body && !SameAt(Carried(l.body), Carried(l'.body), f);
      assert !SameAt(a, b, f);
    }
  }

  /** A restart leaves every desired field met, so only the hash can tell. */
  lemma StillCovers(t: Entry, n: Name, l: Live, l': Live, o: Opts)
    requires IsRealized(t, n, l, o) && OnlyRestarts(t, n, l, l')
    ensures Covers(l'.body, Patch(t.recycles, t.desired[n], l').body)
  {
    var w, w' := Patch(t.recycles, t.desired[n], l).body, Patch(t.recycles, t.desired[n], l').body;
    forall f | f in w' ensures IsMet(l'.body, f, w'[f]) {
      if f in t.desired[n].body {
        assert f in w && w[f] == w'[f] && IsMet(l.body, f, w[f]);
        assert SameAt(l.body, l'.body, f);
      }
    }
  }

  lemma NextVerdict(t: Entry, n: Name, l: Live, l': Live, o: Opts)
    requires IsRealized(t, n, l, o) && OnlyRestarts(t, n, l, l')
    ensures IsSame(l', Patch(t.recycles, t.desired[n], l')) <==> !t.recycles || SameRestarts(t, n, l, l')
    ensures ForIdentical(l', o) == Leave
    ensures ForModified(l', o) == Apply
  {
    StillCovers(t, n, l, l', o);
    if t.recycles { SamePatch(t, n, l, l'); }
  }

  // --- The second task ------------------------------------------------------------------

  ghost predicate KeptRestarts(t: Entry, live: map<Name, Live>, live': map<Name, Live>) {
    t.recycles ==> forall n :: n in t.desired && n in live && n in live' ==> SameRestarts(t, n, live[n], live'[n])
  }

  /** The next task decides to leave every object alone. */
  ghost predicate Quiet(t: Entry, o: Opts) {
    !Raises(t) && forall n :: Decide(Patched(t), n, o) == Leave
  }

  /** After an error-free task with deletion on, the next one - with restart annotations changed in
      between - neither applies, deletes nor complains if and only if the restart annotations carried
      over into desired objects are what they were. */
  lemma QuietIffRestartsKept(t: Entry, live: map<Name, Live>, o: Opts, e: Env, live2: map<Name, Live>)
    requires ErrorFree(t, live, o, e) && CallsItself(t, o)
    requires Restarted(t, Realized(t, live, false, false, o, e), live2)
    ensures Quiet(t.(current := live2), o) <==> KeptRestarts(t, Realized(t, live, false, false, o, e), live2)
  {
    var live1, t2 := Realized(t, live, false, false, o, e), t.(current := live2);
    forall n | n in t.desired
      ensures n in live1 && n in live2 && live2[n].marks.integration.Some?
      ensures Decide(Patched(t2), n, o) == Leave <==> !t.recycles || SameRestarts(t, n, live1[n], live2[n])
    {
      DesiredSettles(t, live, o, e, n);
      NextVerdict(t, n, live1[n], live2[n], o);
    }
    forall n | n !in t.desired ensures Decide(Patched(t2), n, o) == Leave {
      LeftoversStay(t, live, o, e, n);
    }
    if Quiet(t2, o) {
      forall n | n in t.desired ensures Decide(Patched(t2), n, o) == Leave {}
    }
  }

  /** With nothing changed in between the next task has nothing to do, and does nothing. */
  lemma SecondTaskIsIdle(t: Entry, live: map<Name, Live>, o: Opts, e: Env)
    requires ErrorFree(t, live, o, e) && CallsItself(t, o)
    ensures var live1 := Realized(t, live, false, false, o, e);
            var t2 := t.(current := live1);
            && Quiet(t2, o) && !RealizeFails(t2, live1, false, false, o, e)
            && Realized(t2, live1, false, false, o, e) == live1
  {
    var live1 := Realized(t, live, false, false, o, e);
    var t2 := t.(current := live1);
    QuietIffRestartsKept(t, live, o, e, live1);
    forall n ensures Lookup(Realized(t2, live1, false, false, o, e), n) == Lookup(live1, n) {
      AfterAt(Patched(t2), live1, Names(t2), true, o, e, n);
    }
    SameLookups(Realized(t2, live1, false, false, o, e), live1);
  }

  lemma SameLookups(a: map<Name, Live>, b: map<Name, Live>)
    requires forall n :: Lookup(a, n) == Lookup(b, n)
    ensures a == b
  {
    forall n ensures n in a <==> n in b { assert Lookup(a, n) == Lookup(b, n); }
    forall n | n in a ensures a[n] == b[n] { assert Lookup(a, n) == Lookup(b, n); }
  }

  lemma ModifiedIsApplied(t: Entry, live: map<Name, Live>, o: Opts, e: Env, n: Name)
    requires ErrorFree(t, live, o, e) && n in t.desired && n in live
    requires !IsSame(live[n], Patch(t.recycles, t.desired[n], live[n])) && ForModified(live[n], o) == Apply
    ensures var live1 := Realized(t, live, false, false, o, e);
            n in live1 && live1[n] == Stamped(Patch(t.recycles, t.desired[n], live[n]), Some(live[n]))
  {
    AfterAt(Patched(t), live, Names(t), true, o, e, n);
    assert n in Names(t) && !Handle(Patched(t), n, Lookup(live, n), true, o, e).error;
  }

  /** And where a restart did change one, the object is applied again with the new annotation in it:
      the restart itself is not undone. */
  lemma RestartSurvives(t: Entry, live: map<Name, Live>, o: Opts, e: Env, live2: map<Name, Live>, n: Name)
    requires ErrorFree(t, live, o, e) && CallsItself(t, o)
    requires Restarted(t, Realized(t, live, false, false, o, e), live2)
    requires n in t.desired && t.recycles && !SameRestarts(t, n, Realized(t, live, false, false, o, e)[n], live2[n])
    requires ErrorFree(t.(current := live2), live2, o, e)
    ensures var live3 := Realized(t.(current := live2), live2, false, false, o, e);
            && n in live3 && live3[n].marks.sha != live2[n].marks.sha
            && (forall f :: f in RECYCLE_FIELDS && f !in t.desired[n].body ==> SameAt(Carried(live2[n].body), Carried(live3[n].body), f))
            && live3[n].body == Patch(true, t.desired[n], live2[n]).body
  {
    var live1, t2 := Realized(t, live, false, false, o, e), t.(current := live2);
    DesiredSettles(t, live, o, e, n);
    NextVerdict(t, n, live1[n], live2[n], o);
    ModifiedIsApplied(t2, live2, o, e, n);
    CarriedStays(t, n, live2[n]);
  }

  lemma CarriedStays(t: Entry, n: Name, l: Live)
    requires n in t.desired
    ensures forall f :: f in RECYCLE_FIELDS && f !in t.desired[n].body ==> SameAt(Carried(l.body), Carried(Patch(true, t.desired[n], l).body), f)
  {
  }

  /** A Deployment restarted between two tasks is applied again, for its hash covers the carried
      annotation. */
  lemma RestartBreaksQuiet()
    ensures var t := Entry(map[], map["web" := Want(map[], "i", 1, None)], map[], true);
            var o := Opts(false, false, true, false, None, None, {}, "i", 1);
            var e := Env(p => true, true, n => false);
            var live1 := Realized(t, map[], false, false, o, e);
            && "web" in live1
            && var live2 := map["web" := live1["web"].(body := map[KubectlRestartedAt := Plain("noon")])];
               ErrorFree(t, map[], o, e) && Restarted(t, live1, live2) && !Quiet(t.(current := live2), o)
  {
    var t := Entry(map[], map["web" := Want(map[], "i", 1, None)], map[], true);
    var o := Opts(false, false, true, false, None, None, {}, "i", 1);
    var e := Env(p => true, true, n => false);
    DesiredSettles(t, map[], o, e, "web");
    var live1 := Realized(t, map[], false, false, o, e);
    var live2 := map["web" := live1["web"].(body := map[KubectlRestartedAt := Plain("noon")])];
    AfterAt(Patched(t), map[], Names(t), true, o, e, "web");
    assert live1["web"] == Stamped(t.desired["web"], None);
    QuietIffRestartsKept(t, map[], o, e, live2);
    assert KubectlRestartedAt in Carried(live2["web"].body);
    assert !SameAt(Carried(live1["web"].body), Carried(live2["web"].body), KubectlRestartedAt);
    assert !SameRestarts(t, "web", live1["web"], live2["web"]);
  }
}
