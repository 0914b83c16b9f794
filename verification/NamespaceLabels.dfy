/** Managed namespace labels: what one run changes on a namespace and in the managed-key store, and
    what holds over any series of runs with changing desired labels, stops and dry runs. */
module NamespaceLabels {
  import opened Common

  type Key = string
  type Value = string
  type Labels = map<Key, Value>

  /** `None` takes a label off. */
  type Change = map<Key, Option<Value>>

  /** A desired label that is set already although the key is not managed. */
  predicate IsConflict(desired: Labels, managed: set<Key>, current: Labels, k: Key) {
    k in desired && k in current && k !in managed
  }

  predicate HasConflict(desired: Labels, managed: set<Key>, current: Labels) {
    exists k | k in desired :: IsConflict(desired, managed, current, k)
  }

  predicate NeedsChange(desired: Labels, managed: set<Key>, current: Labels, k: Key) {
    if k in desired then k !in current || (k in managed && current[k] != desired[k])
    else k in current && k in managed
  }

  function Changes(desired: Labels, managed: set<Key>, current: Labels): Change {
    map k | k in desired.Keys + current.Keys && NeedsChange(desired, managed, current, k) ::
      if k in desired then Some(desired[k]) else None
  }

  /** The managed keys after a run: those still desired or set, and the new ones. */
  function Remembered(desired: Labels, managed: set<Key>, current: Labels): set<Key> {
    (set k | k in managed && (k in desired || k in current)) + (desired.Keys - current.Keys)
  }

  /** An emptied key list is not written. */
  function Stored(desired: Labels, managed: set<Key>, current: Labels): set<Key> {
    var keys := Remembered(desired, managed, current);
    if keys == {} then managed else keys
  }

  /** `oc label --overwrite` */
  function ApplyTo(labels: Labels, change: Change): Labels {
    map k | k in labels.Keys + change.Keys && (k in change ==> change[k].Some?) ::
      if k in change then change[k].value else labels[k]
  }

  // --- Runs -----------------------------------------------------------------------------

  datatype State = State(labels: Labels, store: set<Key>)

  datatype Stop = BeforeStore | BeforeLabels | Never

  /** `sees` is false when the namespaces of the cluster could not be listed: the current labels are
      then taken to be none.  `Outside` is a label change by somebody else. */
  datatype Step =
    | Run(desired: Labels, sees: bool, dry: bool, stop: Stop)
    | Outside(labels: Labels)

  function Seen(s: State, sees: bool): Labels {
    if sees then s.labels else map[]
  }

  function Next(s: State, step: Step): State {
    match step
    case Outside(labels) => s.(labels := labels)
    case Run(desired, sees, dry, stop) =>
      var current := Seen(s, sees);
      if dry || HasConflict(desired, s.store, current) || stop == BeforeStore then s
      else
        var labels := if stop == BeforeLabels then s.labels else ApplyTo(s.labels, Changes(desired, s.store, current));
        State(labels, Stored(desired, s.store, current))
  }

  function Play(s: State, steps: seq<Step>): State
    decreases |steps|
  {
    if steps == [] then s else Play(Next(s, steps[0]), steps[1..])
  }

  function Complete(desired: Labels): Step {
    Run(desired, true, false, Never)
  }

  /** A desired label is on the namespace, as far as the run sees, and is not a managed one. */
  ghost predicate MeetsForeign(s: State, desired: Labels, sees: bool) {
    exists k :: k in desired && sees && k in s.labels && k !in s.store
  }

  /** What one run does.  A dry one, one that meets a foreign label, and one that stops before its first write
      do nothing.  Otherwise, unless it stops before the label call, exactly the desired labels are set,
      the managed ones that it sees and that are no longer desired go, and all others stay; and the
      managed keys become the desired ones and those it has seen, or stay if there are none. */
  lemma RunDoes(s: State, desired: Labels, sees: bool, dry: bool, stop: Stop)
    ensures var s' := Next(s, Run(desired, sees, dry, stop));
            if dry || stop == BeforeStore || MeetsForeign(s, desired, sees) then s' == s
            else
              && (stop == BeforeLabels ==> s'.labels == s.labels)
              && (stop == Never ==>
                    && (forall k :: k in desired ==> k in s'.labels && s'.labels[k] == desired[k])
                    && (forall k :: k !in desired ==>
                          && (k in s'.labels <==> k in s.labels && !(sees && k in s.store))
                          && (k in s'.labels ==> s'.labels[k] == s.labels[k])))
              && if exists k :: k in desired || (sees && k in s.labels && k in s.store) then
                   forall k :: k in s'.store <==> k in desired || (sees && k in s.labels && k in s.store)
                 else s'.store == s.store
  {
    var current := Seen(s, sees);
    if MeetsForeign(s, desired, sees) {
      var k :| k in desired && sees && k in s.labels && k !in s.store;
      assert IsConflict(desired, s.store, current, k);
    } else {
      forall k | k in desired ensures !IsConflict(desired, s.store, current, k) {}
      forall k ensures k in Remembered(desired, s.store, current) <==> k in desired || (sees && k in s.labels && k in s.store) {}
    }
  }

  /** The labels agree with the desired ones on the desired keys. */
  ghost predicate Agrees(labels: Labels, desired: Labels) {
    forall k :: k in desired ==> k in labels && labels[k] == desired[k]
  }

  // --- Fixed desired labels -------------------------------------------------------------

  /** The state after one complete run without conflict, key by key. */
  lemma AfterComplete(s: State, desired: Labels)
    requires !HasConflict(desired, s.store, s.labels)
    ensures var s1 := Next(s, Complete(desired));
            && Agrees(s1.labels, desired)
            && (forall k :: k !in desired ==> (k in s1.labels <==> k in s.labels && k !in s.store))
            && (forall k :: k !in desired && k in s1.labels ==> s1.labels[k] == s.labels[k])
            && (desired.Keys <= s1.store)
            && (forall k :: k in s1.store && k !in desired ==> k !in s1.labels)
  {
    forall k | k in desired && k in s.labels ensures k in s.store {
      assert !IsConflict(desired, s.store, s.labels, k);
    }
  }

  /** With nothing else going on, one run sets every desired label, from the second run on nothing
      is changed, and from the third run on the store stands still. */
  lemma ThreeRuns(s: State, desired: Labels)
    requires !HasConflict(desired, s.store, s.labels)
    ensures var s1 := Next(s, Complete(desired));
            var s2 := Next(s1, Complete(desired));
            var s3 := Next(s2, Complete(desired));
            && Agrees(s1.labels, desired)
            && !HasConflict(desired, s1.store, s1.labels) && Changes(desired, s1.store, s1.labels) == map[]
            && s2.labels == s1.labels && s3 == s2
            && (desired != map[] ==> s2.store == desired.Keys)
  {
    var s1 := Next(s, Complete(desired));
    var s2 := Next(s1, Complete(desired));
    AfterComplete(s, desired);
    NothingToChange(s1, desired);
    forall k ensures k in Remembered(desired, s1.store, s1.labels) <==> k in desired {}
    assert Remembered(desired, s1.store, s1.labels) == desired.Keys;
    NothingToChange(s2, desired);
    forall k ensures k in Remembered(desired, s2.store, s2.labels) <==> k in desired {}
    assert Remembered(desired, s2.store, s2.labels) == desired.Keys;
  }

  lemma NothingToChange(s: State, desired: Labels)
    requires Agrees(s.labels, desired) && desired.Keys <= s.store
    requires forall k :: k in s.store && k !in desired ==> k !in s.labels
    ensures !HasConflict(desired, s.store, s.labels)
    ensures Changes(desired, s.store, s.labels) == map[]
    ensures Next(s, Complete(desired)).labels == s.labels
  {
    assert ApplyTo(s.labels, map[]) == s.labels;
  }

  /** Stopping between the store write and the label call never makes a conflict the next run would
      not have met anyway, whatever it desires. */
  lemma StopMakesNoConflict(s: State, desired: Labels, next: Labels)
    requires !HasConflict(next, s.store, s.labels)
    ensures var s1 := Next(s, Run(desired, true, false, BeforeLabels));
            s1.labels == s.labels && !HasConflict(next, s1.store, s1.labels)
  {
    var s1 := Next(s, Run(desired, true, false, BeforeLabels));
    forall k | k in next ensures !IsConflict(next, s1.store, s1.labels, k) {
      assert !IsConflict(next, s.store, s.labels, k);
    }
  }

  ghost predicate RunsFor(steps: seq<Step>, desired: Labels) {
    forall k :: 0 <= k < |steps| ==> steps[k].Run? && steps[k].desired == desired && steps[k].sees
  }

  lemma {:induction false} RunsMakeNoConflict(s: State, steps: seq<Step>, desired: Labels)
    requires !HasConflict(desired, s.store, s.labels) && RunsFor(steps, desired)
    ensures !HasConflict(desired, Play(s, steps).store, Play(s, steps).labels)
    decreases |steps|
  {
    if steps != [] {
      assert steps[0].Run? && steps[0].desired == desired && steps[0].sees;
      StopMakesNoConflict(s, desired, desired);
      ThreeRuns(s, desired);
      forall k | 0 <= k < |steps[1..]| ensures steps[1..][k].Run? && steps[1..][k].desired == desired && steps[1..][k].sees {
        assert steps[1..][k] == steps[k + 1];
      }
      RunsMakeNoConflict(Next(s, steps[0]), steps[1..], desired);
    }
  }

  /** After any number of runs for the same labels that stop half way, one complete run still gets
      there. */
  lemma RestartsRecover(s: State, steps: seq<Step>, desired: Labels)
    requires !HasConflict(desired, s.store, s.labels) && RunsFor(steps, desired)
    ensures Agrees(Next(Play(s, steps), Complete(desired)).labels, desired)
  {
    RunsMakeNoConflict(s, steps, desired);
    AfterComplete(Play(s, steps), desired);
  }

  // --- Changing desired labels ----------------------------------------------------------

  function Ever(steps: seq<Step>): set<Key> {
    if steps == [] then {}
    else (if steps[0].Run? then steps[0].desired.Keys else {}) + Ever(steps[1..])
  }

  /** What the integration itself does to one key. */
  ghost predicate SameKey(a: Labels, b: Labels, k: Key) {
    (k in a <==> k in b) && (k in a ==> a[k] == b[k])
  }

  ghost predicate LeavesKey(s: State, steps: seq<Step>, k: Key)
    decreases |steps|
  {
    steps == [] || ((steps[0].Run? ==> SameKey(s.labels, Next(s, steps[0]).labels, k)) && LeavesKey(Next(s, steps[0]), steps[1..], k))
  }

  /** Whatever happens in between - stops, dry runs, failed listings, changes by others - a key that
      was never desired is never changed or removed by any run, and every managed key was desired
      once. */
  lemma {:induction false} OnlyDesiredKeys(s: State, steps: seq<Step>, past: set<Key>)
    requires s.store <= past
    ensures Play(s, steps).store <= past + Ever(steps)
    ensures forall k :: k !in past + Ever(steps) ==> LeavesKey(s, steps, k)
    decreases |steps|
  {
    if steps != [] {
      var s1 := Next(s, steps[0]);
      var now := past + if steps[0].Run? then steps[0].desired.Keys else {};
      assert s1.store <= now;
      OnlyDesiredKeys(s1, steps[1..], now);
      assert now + Ever(steps[1..]) == past + Ever(steps);
      forall k | k !in past + Ever(steps) ensures LeavesKey(s, steps, k) {
        assert k !in now + Ever(steps[1..]);
      }
    }
  }

  // --- The exact state ------------------------------------------------------------------

  /** The labels are those found at first plus managed ones. */
  ghost predicate Owns(first: Labels, s: State) {
    && (forall k :: k in first ==> k in s.labels && s.labels[k] == first[k] && k !in s.store)
    && (forall k :: k in s.labels && k !in first ==> k in s.store)
  }

  /** Runs that could list the namespaces, and nobody else changing labels. */
  ghost predicate Alone(steps: seq<Step>) {
    forall k :: 0 <= k < |steps| ==> steps[k].Run? && steps[k].sees
  }

  lemma OwnsStep(first: Labels, s: State, step: Step)
    requires Owns(first, s) && step.Run? && step.sees
    ensures Owns(first, Next(s, step))
  {
    var s1 := Next(s, step);
    forall k | k in first ensures k in s1.labels && s1.labels[k] == first[k] && k !in s1.store {
      if k in step.desired { assert IsConflict(step.desired, s.store, s.labels, k); }
    }
  }

  lemma {:induction false} OwnsPlay(first: Labels, s: State, steps: seq<Step>)
    requires Owns(first, s) && Alone(steps)
    ensures Owns(first, Play(s, steps))
    decreases |steps|
  {
    if steps != [] {
      assert steps[0].Run? && steps[0].sees;
      OwnsStep(first, s, steps[0]);
      forall k | 0 <= k < |steps[1..]| ensures steps[1..][k].Run? && steps[1..][k].sees { assert steps[1..][k] == steps[k + 1]; }
      OwnsPlay(first, Next(s, steps[0]), steps[1..]);
    }
  }

  /** From an empty store and any history of changing desired labels, stops and dry runs: a run meets
      a conflict exactly when it desires a label that was there at first, and a complete run without
      conflict leaves exactly the labels found at first plus the desired ones. */
  lemma LabelsAreExact(first: Labels, steps: seq<Step>, desired: Labels)
    requires Alone(steps)
    ensures var s := Play(State(first, {}), steps);
            && (HasConflict(desired, s.store, s.labels) <==> desired.Keys * first.Keys != {})
            && (desired.Keys * first.Keys == {} ==> Next(s, Complete(desired)).labels == first + desired)
  {
    var s := Play(State(first, {}), steps);
    OwnsPlay(first, State(first, {}), steps);
    if desired.Keys * first.Keys != {} {
      var k :| k in desired && k in first;
      assert IsConflict(desired, s.store, s.labels, k);
    } else {
      forall k | k in desired ensures !IsConflict(desired, s.store, s.labels, k) {
        assert k !in desired.Keys * first.Keys;
      }
      AfterComplete(s, desired);
      var after := Next(s, Complete(desired)).labels;
      forall k ensures SameKey(after, first + desired, k) {}
      assert after == first + desired;
    }
  }

  // --- Failed listings ------------------------------------------------------------------

  /** A complete run that could not list the namespaces keeps what is managed and what is not apart
      exactly when it desires nothing, or desires nothing found at first and still desires every
      managed label that is set. */
  lemma BlindRunIff(first: Labels, s: State, desired: Labels)
    requires Owns(first, s)
    ensures Owns(first, Next(s, Run(desired, false, false, Never)))
      <==> desired == map[] || (desired.Keys * first.Keys == {} && s.labels.Keys - first.Keys <= desired.Keys)
  {
    var s1 := Next(s, Run(desired, false, false, Never));
    assert Remembered(desired, s.store, map[]) == desired.Keys;
    assert Changes(desired, s.store, map[]).Keys == desired.Keys;
    if desired == map[] {
      assert s1.labels == s.labels;
    } else {
      assert desired.Keys != {} by { var k :| k in desired; }
      assert s1.store == desired.Keys;
      assert s1.labels == s.labels + desired;
      if desired.Keys * first.Keys != {} {
        var k :| k in desired.Keys * first.Keys;
        assert k in first && k in s1.store;
      } else if !(s.labels.Keys - first.Keys <= desired.Keys) {
        var k :| k in s.labels.Keys - first.Keys && k !in desired.Keys;
        assert k in s1.labels && k !in first && k !in s1.store;
      } else {
        forall k | k in first ensures k !in desired { assert k !in desired.Keys * first.Keys; }
        assert forall k :: k in s.labels.Keys - first.Keys ==> k in desired.Keys;
      }
    }
  }

  /** Without the listing a label that somebody else has set is overwritten and called managed. */
  lemma BlindRunOverwrites()
    ensures var s := State(map["team" := "them"], {});
            var desired := map["team" := "us"];
            && HasConflict(desired, s.store, s.labels)
            && Next(s, Run(desired, true, false, Never)) == s
            && Next(s, Run(desired, false, false, Never)) == State(desired, {"team"})
  {
    var s := State(map["team" := "them"], {});
    var desired := map["team" := "us"];
    assert IsConflict(desired, s.store, s.labels, "team");
    assert Remembered(desired, s.store, map[]) == {"team"};
    assert ApplyTo(s.labels, Changes(desired, s.store, map[])) == desired;
  }
}
