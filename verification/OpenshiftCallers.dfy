/** Several callers deploy to the same namespace: whole runs by different callers, in any order,
    with take-over off and comparison on, do not interfere with each other's objects. */
module OpenshiftCallers {
  import opened Common
  import opened OpenshiftRealize

  /** One run of one caller on a kind; what it fetches is whatever is live when it starts. */
  datatype Turn = Turn(wants: Entry, opts: Opts, env: Env, errors: bool, clusterError: bool)

  function Seen(live: map<Name, Live>, turn: Turn): Entry {
    turn.wants.(current := live)
  }

  function Take(live: map<Name, Live>, turn: Turn): map<Name, Live> {
    Realized(Seen(live, turn), live, turn.errors, turn.clusterError, turn.opts, turn.env)
  }

  function TakeAll(live: map<Name, Live>, turns: seq<Turn>): map<Name, Live>
    decreases |turns|
  {
    if turns == [] then live else TakeAll(Take(live, turns[0]), turns[1..])
  }

  function OwnTurns(turns: seq<Turn>, x: Caller): seq<Turn> {
    if turns == [] then []
    else if turns[0].opts.caller == Some(x) then [turns[0]] + OwnTurns(turns[1..], x)
    else OwnTurns(turns[1..], x)
  }

  ghost predicate OwnedBy(live: map<Name, Live>, n: Name, x: Caller) {
    n in live && live[n].marks.caller == Some(x)
  }

  /** A caller by name, comparing, not taking over, stamping its own name, and aware of `x`. */
  ghost predicate Respects(turn: Turn, x: Caller) {
    && turn.opts.caller.Some? && !turn.opts.takeOver && !turn.opts.skipCompare
    && x in turn.opts.allCallers
    && (forall n :: n in turn.wants.desired ==> turn.wants.desired[n].caller == turn.opts.caller)
  }

  ghost predicate AllRespect(turns: seq<Turn>, x: Caller) {
    forall k :: 0 <= k < |turns| ==> Respects(turns[k], x)
  }

  /** No object has a hash annotation without an integration annotation. */
  ghost predicate WellMarked(live: map<Name, Live>) {
    forall n :: n in live && live[n].marks.sha.Some? ==> live[n].marks.integration.Some?
  }

  lemma TurnAt(live: map<Name, Live>, turn: Turn, n: Name)
    requires !turn.clusterError && !Raises(Seen(live, turn))
    ensures var t := Patched(Seen(live, turn));
            Lookup(Take(live, turn), n)
              == if n in Names(t) then Handle(t, n, Lookup(live, n), DeletionOn(turn.errors, turn.opts), turn.opts, turn.env).live
                 else Lookup(live, n)
  {
    var t := Seen(live, turn);
    AfterAt(Patched(t), live, Names(t), DeletionOn(turn.errors, turn.opts), turn.opts, turn.env, n);
    assert Names(Patched(t)) == Names(t);
  }

  lemma WellMarkedStays(live: map<Name, Live>, turn: Turn)
    requires WellMarked(live)
    ensures WellMarked(Take(live, turn))
  {
    if !turn.clusterError && !Raises(Seen(live, turn)) {
      var live' := Take(live, turn);
      forall n | n in live' && live'[n].marks.sha.Some? ensures live'[n].marks.integration.Some? {
        TurnAt(live, turn, n);
        assert Lookup(live', n) == Some(live'[n]);
        assert Lookup(live, n) == Some(live'[n]) || (live'[n].marks.integration.Some?);
      }
    }
  }

  /** Another caller's run leaves an object of a live caller exactly as it is. */
  lemma ForeignTurnLeaves(live: map<Name, Live>, turn: Turn, n: Name, x: Caller)
    requires OwnedBy(live, n, x) && Respects(turn, x) && turn.opts.caller != Some(x)
    ensures Lookup(Take(live, turn), n) == Lookup(live, n)
  {
    if !turn.clusterError && !Raises(Seen(live, turn)) {
      TurnAt(live, turn, n);
    }
  }

  /** A caller's own run applies or leaves its object under its own name, or deletes it. */
  lemma OwnTurnKeepsName(live: map<Name, Live>, turn: Turn, n: Name, x: Caller)
    requires OwnedBy(live, n, x) && Respects(turn, x) && turn.opts.caller == Some(x)
    ensures n in Take(live, turn) ==> OwnedBy(Take(live, turn), n, x)
  {
    if !turn.clusterError && !Raises(Seen(live, turn)) {
      TurnAt(live, turn, n);
    }
  }

  lemma NeverRaises(live: map<Name, Live>, turn: Turn)
    requires WellMarked(live)
    ensures !Raises(Seen(live, turn))
  {
  }

  lemma PatchedIsLocal(a: map<Name, Live>, b: map<Name, Live>, turn: Turn, n: Name)
    requires Lookup(a, n) == Lookup(b, n)
    ensures var ta, tb := Patched(Seen(a, turn)), Patched(Seen(b, turn));
            && ta.current == a && tb.current == b && ta.admin == tb.admin
            && (n in Names(ta) <==> n in Names(tb))
            && (n in ta.desired <==> n in tb.desired) && (n in ta.desired ==> ta.desired[n] == tb.desired[n])
  {
    assert n in a <==> n in b;
  }

  lemma HandleIsLocal(ta: Entry, tb: Entry, n: Name, enable: bool, o: Opts, e: Env)
    requires Lookup(ta.current, n) == Lookup(tb.current, n) && ta.admin == tb.admin
    requires (n in ta.desired <==> n in tb.desired) && (n in ta.desired ==> ta.desired[n] == tb.desired[n])
    ensures Handle(ta, n, Lookup(ta.current, n), enable, o, e) == Handle(tb, n, Lookup(tb.current, n), enable, o, e)
  {
    assert n in ta.current <==> n in tb.current;
    assert Decide(ta, n, o) == Decide(tb, n, o);
  }

  /** What a run does to one object depends on nothing but that object. */
  lemma TurnIsLocal(a: map<Name, Live>, b: map<Name, Live>, turn: Turn, n: Name)
    requires WellMarked(a) && WellMarked(b) && Lookup(a, n) == Lookup(b, n)
    ensures Lookup(Take(a, turn), n) == Lookup(Take(b, turn), n)
  {
    if !turn.clusterError {
      NeverRaises(a, turn);
      NeverRaises(b, turn);
      TurnAt(a, turn, n);
      TurnAt(b, turn, n);
      PatchedIsLocal(a, b, turn, n);
      HandleIsLocal(Patched(Seen(a, turn)), Patched(Seen(b, turn)), n, DeletionOn(turn.errors, turn.opts), turn.opts, turn.env);
    }
  }

  /** The object survives every one of these runs. */
  ghost predicate Survives(live: map<Name, Live>, turns: seq<Turn>, n: Name)
    decreases |turns|
  {
    n in live && (turns != [] ==> Survives(Take(live, turns[0]), turns[1..], n))
  }

  /** Non-interference: among any interleaving of whole runs, an object of a live caller ends up as
      if only that caller's own runs had taken place - as long as the caller itself keeps it. */
  lemma {:induction false} NonInterference(a: map<Name, Live>, b: map<Name, Live>, turns: seq<Turn>, n: Name, x: Caller)
    requires WellMarked(a) && WellMarked(b) && Lookup(a, n) == Lookup(b, n) && OwnedBy(a, n, x)
    requires AllRespect(turns, x) && Survives(b, OwnTurns(turns, x), n)
    ensures Lookup(TakeAll(a, turns), n) == Lookup(TakeAll(b, OwnTurns(turns, x)), n)
    ensures OwnedBy(TakeAll(a, turns), n, x)
    decreases |turns|
  {
    if turns != [] {
      var turn := turns[0];
      assert Respects(turns[0], x);
      forall k | 0 <= k < |turns[1..]| ensures Respects(turns[1..][k], x) { assert turns[1..][k] == turns[k + 1]; }
      WellMarkedStays(a, turn);
      if turn.opts.caller == Some(x) {
        var own := OwnTurns(turns, x);
        assert own[0] == turn && own[1..] == OwnTurns(turns[1..], x);
        WellMarkedStays(b, turn);
        TurnIsLocal(a, b, turn, n);
        OwnTurnKeepsName(a, turn, n, x);
        assert n in Take(b, turn) && Lookup(Take(a, turn), n) == Lookup(Take(b, turn), n);
        NonInterference(Take(a, turn), Take(b, turn), turns[1..], n, x);
      } else {
        ForeignTurnLeaves(a, turn, n, x);
        assert n in Take(a, turn);
        NonInterference(Take(a, turn), b, turns[1..], n, x);
      }
    }
  }

  /** Who changes an object of a live caller, at whatever point of the interleaving, is that caller. */
  lemma OnlyItsCaller(live: map<Name, Live>, turns: seq<Turn>, k: nat, n: Name, x: Caller)
    requires k < |turns| && AllRespect(turns, x)
    requires OwnedBy(TakeAll(live, turns[..k]), n, x)
    requires Lookup(Take(TakeAll(live, turns[..k]), turns[k]), n) != Lookup(TakeAll(live, turns[..k]), n)
    ensures turns[k].opts.caller == Some(x)
  {
    var mid := TakeAll(live, turns[..k]);
    assert Respects(turns[k], x);
    if turns[k].opts.caller != Some(x) { ForeignTurnLeaves(mid, turns[k], n, x); }
  }

  // --- Taking over ----------------------------------------------------------------------

  /** Everything a run needs to act on `n`. */
  ghost predicate CanActOn(live: map<Name, Live>, turn: Turn, n: Name) {
    && !turn.clusterError && !Raises(Seen(live, turn)) && !turn.opts.dry
    && turn.env.reach(true) && turn.env.reach(false) && turn.env.present && !turn.env.refuses(n)
  }

  predicate Dead(l: Live, o: Opts) {
    !(l.marks.caller.Some? && l.marks.caller.value in o.allCallers)
  }

  /** A renamed caller inherits: an object under another name changes hands exactly when that name
      is no longer a caller - and, if the object needs no change, when some callers are listed at
      all.  Otherwise it stays as it is and the run registers an error. */
  lemma ChangesHandsIff(live: map<Name, Live>, turn: Turn, n: Name, c: Caller)
    requires turn.opts.caller == Some(c) && !turn.opts.takeOver && !turn.opts.skipCompare && CanActOn(live, turn, n)
    requires n in live && live[n].marks.caller != Some(c)
    requires n in turn.wants.desired && turn.wants.desired[n].caller == Some(c)
    ensures var same := IsSame(live[n], Patch(turn.wants.recycles, turn.wants.desired[n], live[n]));
            OwnedBy(Take(live, turn), n, c) <==> Dead(live[n], turn.opts) && (same ==> turn.opts.allCallers != {})
    ensures !OwnedBy(Take(live, turn), n, c) ==>
              && Lookup(Take(live, turn), n) == Lookup(live, n)
              && RealizeFails(Seen(live, turn), live, turn.errors, turn.clusterError, turn.opts, turn.env)
  {
    TurnAt(live, turn, n);
    var t := Patched(Seen(live, turn));
    assert n in Names(Seen(live, turn));
    if !OwnedBy(Take(live, turn), n, c) {
      assert Handle(t, n, Lookup(live, n), DeletionOn(turn.errors, turn.opts), turn.opts, turn.env).error;
    }
  }
}
