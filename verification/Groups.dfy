/** Group memberships: the sorted list of actions between two states, and what carrying it out does. */
module Groups {
  import opened Common

  datatype Group = Group(cluster: string, name: string)

  type User = string

  /** One line of a state: a user in a group of a cluster. */
  datatype Entry = Entry(group: Group, user: User)

  datatype Action =
    | CreateGroup(group: Group)
    | AddUser(group: Group, user: User)
    | DelUser(group: Group, user: User)
    | DeleteGroup(group: Group)

  // --- Planning -------------------------------------------------------------------------

  function UserAction(adding: bool, e: Entry): Action {
    if adding then AddUser(e.group, e.user) else DelUser(e.group, e.user)
  }

  function GroupAction(adding: bool, g: Group): Action {
    if adding then CreateGroup(g) else DeleteGroup(g)
  }

  predicate HasGroup(state: seq<Entry>, g: Group) {
    exists i | 0 <= i < |state| :: state[i].group == g
  }

  /** What one more entry contributes to the result so far. */
  function Contribution(e: Entry, other: seq<Entry>, adding: bool, result: seq<Action>): seq<Action> {
    if e in other then []
    else
      (if !HasGroup(other, e.group) && GroupAction(adding, e.group) !in result then [GroupAction(adding, e.group)] else [])
      + [UserAction(adding, e)]
  }

  /** `subtract_states` */
  function Subtract(from: seq<Entry>, other: seq<Entry>, adding: bool): seq<Action> {
    if from == [] then []
    else
      var n := |from| - 1;
      var before := Subtract(from[..n], other, adding);
      before + Contribution(from[n], other, adding, before)
  }

  function Diff(current: seq<Entry>, desired: seq<Entry>): seq<Action> {
    Subtract(desired, current, true) + Subtract(current, desired, false)
  }

  /** `sort_diffs` */
  function SortKey(a: Action): int {
    if a.CreateGroup? || a.DelUser? then 1 else 2
  }

  function WithKey(diffs: seq<Action>, key: int): seq<Action> {
    if diffs == [] then []
    else (if SortKey(diffs[0]) == key then [diffs[0]] else []) + WithKey(diffs[1..], key)
  }

  /** A stable sort by the two keys. */
  function Sorted(diffs: seq<Action>): seq<Action> {
    WithKey(diffs, 1) + WithKey(diffs, 2)
  }

  function Plan(current: seq<Entry>, desired: seq<Entry>): seq<Action> {
    Sorted(Diff(current, desired))
  }

  // --- Acting ---------------------------------------------------------------------------

  /** The groups there are, with their members. */
  type World = map<Group, set<User>>

  datatype Outcome = Outcome(world: World, ok: bool)

  function Members(w: World, g: Group): set<User> {
    if g in w then w[g] else {}
  }

  /** Creating an existing group and deleting a group are no-ops; users need their group to exist. */
  predicate Works(w: World, a: Action) {
    (a.AddUser? || a.DelUser?) ==> a.group in w
  }

  function Do(w: World, a: Action): World {
    match a
    case CreateGroup(g) => if g in w then w else w[g := {}]
    case AddUser(g, u) => w[g := Members(w, g) + {u}]
    case DelUser(g, u) => w[g := Members(w, g) - {u}]
    case DeleteGroup(_) => w
  }

  function Act(w: World, plan: seq<Action>): Outcome
    decreases |plan|
  {
    if plan == [] then Outcome(w, true)
    else if !Works(w, plan[0]) then Outcome(w, false)
    else Act(Do(w, plan[0]), plan[1..])
  }

  lemma {:induction false} ActConcat(w: World, a: seq<Action>, b: seq<Action>)
    ensures Act(w, a + b) == if Act(w, a).ok then Act(Act(w, a).world, b) else Act(w, a)
    decreases |a|
  {
    if a == [] {
      assert a + b == b;
    } else {
      assert (a + b)[0] == a[0] && (a + b)[1..] == a[1..] + b;
      if Works(w, a[0]) { ActConcat(Do(w, a[0]), a[1..], b); }
    }
  }

  // --- What is planned ------------------------------------------------------------------

  /** The entries that are not in the other state, in order. */
  function Missing(from: seq<Entry>, other: seq<Entry>): seq<Entry> {
    if from == [] then []
    else
      var n := |from| - 1;
      Missing(from[..n], other) + if from[n] in other then [] else [from[n]]
  }

  lemma {:induction false} MissingIs(from: seq<Entry>, other: seq<Entry>)
    ensures forall e :: e in Missing(from, other) <==> e in from && e !in other
    decreases |from|
  {
    if from != [] {
      var n := |from| - 1;
      MissingIs(from[..n], other);
      assert from == from[..n] + [from[n]];
    }
  }

  /** What calls for an action: a missing entry, or the first one of a missing group. */
  ghost predicate CallsFor(from: seq<Entry>, other: seq<Entry>, adding: bool, a: Action) {
    exists e :: e in from && EntryCallsFor(e, other, adding, a)
  }

  ghost predicate EntryCallsFor(e: Entry, other: seq<Entry>, adding: bool, a: Action) {
    e !in other && (a == UserAction(adding, e) || (!HasGroup(other, e.group) && a == GroupAction(adding, e.group)))
  }

  lemma ContributionIs(e: Entry, other: seq<Entry>, adding: bool, before: seq<Action>, a: Action)
    ensures a in before + Contribution(e, other, adding, before) <==> a in before || EntryCallsFor(e, other, adding, a)
  {
  }

  lemma {:induction false} SubtractIs(from: seq<Entry>, other: seq<Entry>, adding: bool, a: Action)
    ensures a in Subtract(from, other, adding) <==> CallsFor(from, other, adding, a)
    decreases |from|
  {
    if from != [] {
      var n := |from| - 1;
      SubtractIs(from[..n], other, adding, a);
      ContributionIs(from[n], other, adding, Subtract(from[..n], other, adding), a);
      assert forall e :: e in from <==> e in from[..n] || e == from[n];
    }
  }

  lemma {:induction false} WithKeyIs(diffs: seq<Action>, key: int)
    ensures forall a :: a in WithKey(diffs, key) <==> a in diffs && SortKey(a) == key
  {
    if diffs != [] { WithKeyIs(diffs[1..], key); }
  }

  /** What the whole plan consists of. */
  ghost predicate IsPlanned(current: seq<Entry>, desired: seq<Entry>, a: Action) {
    match a
    case AddUser(g, u) => Entry(g, u) in desired && Entry(g, u) !in current
    case DelUser(g, u) => Entry(g, u) in current && Entry(g, u) !in desired
    case CreateGroup(g) => HasGroup(desired, g) && !HasGroup(current, g)
    case DeleteGroup(g) => HasGroup(current, g) && !HasGroup(desired, g)
  }

  lemma GroupCalledFor(from: seq<Entry>, other: seq<Entry>, adding: bool, g: Group)
    ensures CallsFor(from, other, adding, GroupAction(adding, g)) <==> HasGroup(from, g) && !HasGroup(other, g)
  {
    if HasGroup(from, g) && !HasGroup(other, g) {
      var i :| 0 <= i < |from| && from[i].group == g;
      assert from[i] in from && EntryCallsFor(from[i], other, adding, GroupAction(adding, g));
    }
  }

  lemma UserCalledFor(from: seq<Entry>, other: seq<Entry>, adding: bool, e: Entry)
    ensures CallsFor(from, other, adding, UserAction(adding, e)) <==> e in from && e !in other
  {
    if e in from && e !in other { assert EntryCallsFor(e, other, adding, UserAction(adding, e)); }
  }

  lemma OtherKindNotCalledFor(from: seq<Entry>, other: seq<Entry>, adding: bool, a: Action)
    requires (a.AddUser? || a.CreateGroup?) != adding
    ensures !CallsFor(from, other, adding, a)
  {
  }

  lemma DiffHas(current: seq<Entry>, desired: seq<Entry>, a: Action)
    ensures a in Diff(current, desired) <==> IsPlanned(current, desired, a)
  {
    SubtractIs(desired, current, true, a);
    SubtractIs(current, desired, false, a);
    match a
    case AddUser(g, u) => UserCalledFor(desired, current, true, Entry(g, u)); OtherKindNotCalledFor(current, desired, false, a);
    case DelUser(g, u) => UserCalledFor(current, desired, false, Entry(g, u)); OtherKindNotCalledFor(desired, current, true, a);
    case CreateGroup(g) => GroupCalledFor(desired, current, true, g); OtherKindNotCalledFor(current, desired, false, a);
    case DeleteGroup(g) => GroupCalledFor(current, desired, false, g); OtherKindNotCalledFor(desired, current, true, a);
  }

  lemma PlanHas(current: seq<Entry>, desired: seq<Entry>, a: Action)
    ensures a in Plan(current, desired) <==> IsPlanned(current, desired, a)
    ensures a in WithKey(Diff(current, desired), 1) <==> IsPlanned(current, desired, a) && SortKey(a) == 1
    ensures a in WithKey(Diff(current, desired), 2) <==> IsPlanned(current, desired, a) && SortKey(a) == 2
  {
    DiffHas(current, desired, a);
    WithKeyIs(Diff(current, desired), 1);
    WithKeyIs(Diff(current, desired), 2);
  }

  lemma PlanIs(current: seq<Entry>, desired: seq<Entry>)
    ensures forall a :: a in Plan(current, desired) <==> IsPlanned(current, desired, a)
    ensures forall a :: a in WithKey(Diff(current, desired), 1) <==> IsPlanned(current, desired, a) && SortKey(a) == 1
    ensures forall a :: a in WithKey(Diff(current, desired), 2) <==> IsPlanned(current, desired, a) && SortKey(a) == 2
  {
    forall a: Action
      ensures a in Plan(current, desired) <==> IsPlanned(current, desired, a)
      ensures a in WithKey(Diff(current, desired), 1) <==> IsPlanned(current, desired, a) && SortKey(a) == 1
      ensures a in WithKey(Diff(current, desired), 2) <==> IsPlanned(current, desired, a) && SortKey(a) == 2
    {
      PlanHas(current, desired, a);
    }
  }

  // --- The first half, then the second --------------------------------------------------

  ghost predicate AllKey(plan: seq<Action>, key: int) {
    forall a :: a in plan ==> SortKey(a) == key
  }

  /** Creations and removals: groups only appear, members only go. */
  lemma {:induction false} FirstHalf(w: World, plan: seq<Action>)
    requires AllKey(plan, 1) && forall a :: a in plan && a.DelUser? ==> a.group in w
    ensures var r := Act(w, plan);
            && r.ok
            && (forall g :: g in r.world <==> g in w || CreateGroup(g) in plan)
            && (forall g, u :: u in Members(r.world, g) <==> u in Members(w, g) && DelUser(g, u) !in plan)
    decreases |plan|
  {
    if plan != [] {
      assert plan[0] in plan && Works(w, plan[0]);
      forall a | a in plan[1..] ensures a in plan {}
      FirstHalf(Do(w, plan[0]), plan[1..]);
      assert forall a :: a in plan <==> a == plan[0] || a in plan[1..];
    }
  }

  /** Additions (and skipped group deletions): members only come. */
  lemma {:induction false} SecondHalf(w: World, plan: seq<Action>)
    requires AllKey(plan, 2) && forall a :: a in plan && a.AddUser? ==> a.group in w
    ensures var r := Act(w, plan);
            && r.ok && r.world.Keys == w.Keys
            && (forall g, u :: u in Members(r.world, g) <==> u in Members(w, g) || AddUser(g, u) in plan)
    decreases |plan|
  {
    if plan != [] {
      assert plan[0] in plan && Works(w, plan[0]);
      forall a | a in plan[1..] ensures a in plan {}
      SecondHalf(Do(w, plan[0]), plan[1..]);
      assert forall a :: a in plan <==> a == plan[0] || a in plan[1..];
    }
  }

  /** The current state lists exactly the members of the groups in scope, and both states stay there. */
  ghost predicate Shows(w: World, scope: set<Group>, current: seq<Entry>, desired: seq<Entry>) {
    && (forall e :: e in current <==> e.group in scope && e.user in Members(w, e.group))
    && (forall e :: e in desired ==> e.group in scope)
  }

  lemma GroupsExist(w: World, scope: set<Group>, current: seq<Entry>, desired: seq<Entry>, g: Group)
    requires Shows(w, scope, current, desired) && HasGroup(current, g)
    ensures g in w
  {
    var i :| 0 <= i < |current| && current[i].group == g;
    assert current[i] in current;
  }

  lemma HalvesReady(w: World, scope: set<Group>, current: seq<Entry>, desired: seq<Entry>)
    requires Shows(w, scope, current, desired)
    ensures var first := WithKey(Diff(current, desired), 1);
            var second := WithKey(Diff(current, desired), 2);
            && AllKey(first, 1) && AllKey(second, 2)
            && (forall a :: a in first && a.DelUser? ==> a.group in w)
            && (forall a :: a in second && a.AddUser? ==> a.group in w || CreateGroup(a.group) in first)
  {
    var second := WithKey(Diff(current, desired), 2);
    PlanIs(current, desired);
    forall a | a in second && a.AddUser? ensures a.group in w || (HasGroup(desired, a.group) && !HasGroup(current, a.group)) {
      var i :| 0 <= i < |desired| && desired[i] == Entry(a.group, a.user);
      if HasGroup(current, a.group) { GroupsExist(w, scope, current, desired, a.group); }
    }
  }

  /** Carrying out the sorted plan never fails and ends with exactly the desired memberships; groups
      outside the scope keep their members, and every desired group exists. */
  lemma EndsAsDesired(w: World, scope: set<Group>, current: seq<Entry>, desired: seq<Entry>)
    requires Shows(w, scope, current, desired)
    ensures var r := Act(w, Plan(current, desired));
            && r.ok
            && (forall g, u :: g in scope ==> (u in Members(r.world, g) <==> Entry(g, u) in desired))
            && (forall g :: g !in scope ==> Members(r.world, g) == Members(w, g))
            && (forall e :: e in desired ==> e.group in r.world)
  {
    var plan := Plan(current, desired);
    var first, second := WithKey(Diff(current, desired), 1), WithKey(Diff(current, desired), 2);
    HalvesReady(w, scope, current, desired);
    FirstHalf(w, first);
    var mid := Act(w, first).world;
    SecondHalf(mid, second);
    ActConcat(w, first, second);
    PlanIs(current, desired);
    var after := Act(w, plan).world;
    forall g, u ensures u in Members(after, g) <==> (u in Members(w, g) && DelUser(g, u) !in plan) || AddUser(g, u) in plan {
      assert SortKey(DelUser(g, u)) == 1 && SortKey(AddUser(g, u)) == 2;
    }
    forall g, u | g in scope ensures u in Members(after, g) <==> Entry(g, u) in desired {
      assert Entry(g, u) in current <==> u in Members(w, g);
    }
    forall g | g !in scope ensures Members(after, g) == Members(w, g) {
      forall u ensures Entry(g, u) !in current && Entry(g, u) !in desired {}
    }
    forall e | e in desired ensures e.group in after {
      var i :| 0 <= i < |desired| && desired[i] == e;
      if HasGroup(current, e.group) { GroupsExist(w, scope, current, desired, e.group); } else { assert CreateGroup(e.group) in plan; }
    }
  }

  // --- Clusters without a client --------------------------------------------------------

  /** The actions for clusters that have a client; `act` passes over the others. */
  function Reachable(plan: seq<Action>, clients: set<string>): seq<Action> {
    if plan == [] then []
    else (if plan[0].group.cluster in clients then [plan[0]] else []) + Reachable(plan[1..], clients)
  }

  /** The part of a state that lies on clusters with a client. */
  function Within(state: seq<Entry>, clients: set<string>): seq<Entry> {
    if state == [] then []
    else
      var n := |state| - 1;
      Within(state[..n], clients) + if state[n].group.cluster in clients then [state[n]] else []
  }

  lemma {:induction false} WithinIs(state: seq<Entry>, clients: set<string>)
    ensures forall e :: e in Within(state, clients) <==> e in state && e.group.cluster in clients
    decreases |state|
  {
    if state != [] {
      var n := |state| - 1;
      WithinIs(state[..n], clients);
      assert state == state[..n] + [state[n]];
    }
  }

  lemma WithinGroups(state: seq<Entry>, clients: set<string>, g: Group)
    requires g.cluster in clients
    ensures HasGroup(Within(state, clients), g) <==> HasGroup(state, g)
  {
    var within := Within(state, clients);
    WithinIs(state, clients);
    if i :| 0 <= i < |state| && state[i].group == g {
      assert state[i] in within;
      var j :| 0 <= j < |within| && within[j] == state[i];
    }
    if j :| 0 <= j < |within| && within[j].group == g {
      assert within[j] in within && within[j] in state;
      var i :| 0 <= i < |state| && state[i] == within[j];
    }
  }

  lemma {:induction false} ReachableConcat(a: seq<Action>, b: seq<Action>, clients: set<string>)
    ensures Reachable(a + b, clients) == Reachable(a, clients) + Reachable(b, clients)
    decreases |a|
  {
    if a == [] {
      assert a + b == b;
    } else {
      var x := if a[0].group.cluster in clients then [a[0]] else [];
      assert (a + b)[0] == a[0] && (a + b)[1..] == a[1..] + b;
      ReachableConcat(a[1..], b, clients);
      assert x + (Reachable(a[1..], clients) + Reachable(b, clients)) == (x + Reachable(a[1..], clients)) + Reachable(b, clients);
    }
  }

  lemma {:induction false} ReachableIs(plan: seq<Action>, clients: set<string>)
    ensures forall a :: a in Reachable(plan, clients) <==> a in plan && a.group.cluster in clients
  {
    if plan != [] { ReachableIs(plan[1..], clients); }
  }

  lemma {:induction false} ReachableAll(plan: seq<Action>, clients: set<string>)
    ensures (forall a :: a in plan ==> a.group.cluster in clients) ==> Reachable(plan, clients) == plan
    ensures (forall a :: a in plan ==> a.group.cluster !in clients) ==> Reachable(plan, clients) == []
  {
    if plan != [] {
      assert plan[0] in plan && forall a :: a in plan[1..] ==> a in plan;
      ReachableAll(plan[1..], clients);
    }
  }

  lemma ContributionWithin(e: Entry, other: seq<Entry>, adding: bool, before: seq<Action>, clients: set<string>)
    ensures Reachable(Contribution(e, other, adding, before), clients)
      == if e.group.cluster in clients then Contribution(e, Within(other, clients), adding, Reachable(before, clients)) else []
  {
    WithinIs(other, clients);
    ReachableIs(before, clients);
    ReachableAll(Contribution(e, other, adding, before), clients);
    if e.group.cluster in clients { WithinGroups(other, clients, e.group); }
  }

  lemma {:induction false} SubtractWithin(from: seq<Entry>, other: seq<Entry>, adding: bool, clients: set<string>)
    ensures Reachable(Subtract(from, other, adding), clients) == Subtract(Within(from, clients), Within(other, clients), adding)
    decreases |from|
  {
    if from != [] {
      var n := |from| - 1;
      var before, rest := Subtract(from[..n], other, adding), Within(from[..n], clients);
      SubtractWithin(from[..n], other, adding, clients);
      ReachableConcat(before, Contribution(from[n], other, adding, before), clients);
      ContributionWithin(from[n], other, adding, before, clients);
      if from[n].group.cluster in clients {
        assert (rest + [from[n]])[..|rest|] == rest;
      } else {
        assert rest + [] == rest;
      }
    }
  }

  lemma ReachableCons(a: Action, rest: seq<Action>, clients: set<string>)
    ensures Reachable([a] + rest, clients) == if a.group.cluster in clients then [a] + Reachable(rest, clients) else Reachable(rest, clients)
  {
    assert ([a] + rest)[1..] == rest;
    assert [] + Reachable(rest, clients) == Reachable(rest, clients);
  }

  lemma {:induction false} WithKeyReachable(diffs: seq<Action>, key: int, clients: set<string>)
    ensures Reachable(WithKey(diffs, key), clients) == WithKey(Reachable(diffs, clients), key)
  {
    if diffs != [] {
      var a, rest := diffs[0], diffs[1..];
      assert diffs == [a] + rest;
      WithKeyReachable(rest, key, clients);
      WithKeyCons(a, rest, key);
      ReachableCons(a, rest, clients);
      ReachableCons(a, WithKey(rest, key), clients);
      WithKeyCons(a, Reachable(rest, clients), key);
    }
  }

  /** Passing over clusters without a client comes to planning for the others alone. */
  lemma ReachablePlan(current: seq<Entry>, desired: seq<Entry>, clients: set<string>)
    ensures Reachable(Plan(current, desired), clients) == Plan(Within(current, clients), Within(desired, clients))
  {
    var diff := Diff(current, desired);
    ReachableConcat(WithKey(diff, 1), WithKey(diff, 2), clients);
    WithKeyReachable(diff, 1, clients);
    WithKeyReachable(diff, 2, clients);
    ReachableConcat(Subtract(desired, current, true), Subtract(current, desired, false), clients);
    SubtractWithin(desired, current, true, clients);
    SubtractWithin(current, desired, false, clients);
  }

  function InReach(scope: set<Group>, clients: set<string>): set<Group> {
    set g | g in scope && g.cluster in clients
  }

  /** So whatever is desired there, clusters without a client are left as they are, and all others end with
      exactly the desired memberships. */
  lemma EndsAsDesiredWhereReachable(w: World, scope: set<Group>, current: seq<Entry>, desired: seq<Entry>, clients: set<string>)
    requires Shows(w, InReach(scope, clients), Within(current, clients), Within(desired, clients))
    ensures var r := Act(w, Reachable(Plan(current, desired), clients));
            && r.ok
            && (forall g, u :: g in scope && g.cluster in clients ==> (u in Members(r.world, g) <==> Entry(g, u) in desired))
            && (forall g :: g !in scope || g.cluster !in clients ==> Members(r.world, g) == Members(w, g))
  {
    ReachablePlan(current, desired, clients);
    EndsAsDesired(w, InReach(scope, clients), Within(current, clients), Within(desired, clients));
    WithinIs(desired, clients);
  }

  /** The sorted plan is the actions of the first key followed by those of the second. */
  lemma KeyAt(current: seq<Entry>, desired: seq<Entry>, k: nat)
    requires k < |Plan(current, desired)|
    ensures SortKey(Plan(current, desired)[k]) == if k < |WithKey(Diff(current, desired), 1)| then 1 else 2
  {
    var first, second := WithKey(Diff(current, desired), 1), WithKey(Diff(current, desired), 2);
    WithKeyIs(Diff(current, desired), 1);
    WithKeyIs(Diff(current, desired), 2);
    assert Plan(current, desired)[k] in (if k < |first| then first else second);
  }

  /** Creating a group comes before every addition of a user. */
  lemma CreationsFirst(current: seq<Entry>, desired: seq<Entry>, i: nat, j: nat)
    requires i < |Plan(current, desired)| && j < |Plan(current, desired)|
    requires Plan(current, desired)[i].CreateGroup? && Plan(current, desired)[j].AddUser?
    ensures i < j
  {
    KeyAt(current, desired, i);
    KeyAt(current, desired, j);
  }

  /** Group creations and removals of users come before all additions of users and group deletions. */
  lemma RemovalsFirst(current: seq<Entry>, desired: seq<Entry>, i: nat, j: nat)
    requires i < |Plan(current, desired)| && j < |Plan(current, desired)|
    requires Plan(current, desired)[i].CreateGroup? || Plan(current, desired)[i].DelUser?
    requires Plan(current, desired)[j].AddUser? || Plan(current, desired)[j].DeleteGroup?
    ensures i < j
  {
    KeyAt(current, desired, i);
    KeyAt(current, desired, j);
  }

  // --- Deletions hit members ------------------------------------------------------------

  ghost predicate Hits(w: World, plan: seq<Action>, j: nat)
    requires j < |plan|
  {
    plan[j].DelUser? ==> plan[j].user in Members(Act(w, plan[..j]).world, plan[j].group)
  }

  lemma FirstHalfPrefix(w: World, scope: set<Group>, current: seq<Entry>, desired: seq<Entry>, j: nat)
    requires Shows(w, scope, current, desired) && j < |Plan(current, desired)| && Plan(current, desired)[j].DelUser?
    ensures var plan := Plan(current, desired);
            && Act(w, plan[..j]).ok
            && (Hits(w, plan, j) <==> forall i :: 0 <= i < j ==> plan[i] != plan[j])
  {
    var plan := Plan(current, desired);
    var first := WithKey(Diff(current, desired), 1);
    HalvesReady(w, scope, current, desired);
    KeyAt(current, desired, j);
    assert plan[..j] == first[..j];
    forall a | a in first[..j] ensures a in first {}
    FirstHalf(w, first[..j]);
    PlanIs(current, desired);
    var d := plan[j];
    assert d in plan && Entry(d.group, d.user) in current && d.user in Members(w, d.group);
    assert d in plan[..j] <==> exists i :: 0 <= i < j && plan[i] == d;
  }

  /** Every deletion removes a user who is a member when it runs if and only if no undesired entry is
      listed twice in the current state. */
  lemma DeletionsHitIff(w: World, scope: set<Group>, current: seq<Entry>, desired: seq<Entry>)
    requires Shows(w, scope, current, desired)
    ensures (forall j :: 0 <= j < |Plan(current, desired)| ==> Hits(w, Plan(current, desired), j))
      <==> NoDup(Missing(current, desired))
  {
    var plan := Plan(current, desired);
    forall j | 0 <= j < |plan| && plan[j].DelUser?
      ensures Hits(w, plan, j) <==> forall i :: 0 <= i < j ==> plan[i] != plan[j]
    {
      FirstHalfPrefix(w, scope, current, desired, j);
    }
    DelsOnce(plan);
    PlanDels(current, desired);
    if OnceEach(plan) {
      forall j | 0 <= j < |plan| ensures Hits(w, plan, j) {}
    } else {
      var i, j :| 0 <= i < j < |plan| && plan[j].DelUser? && plan[i] == plan[j];
      assert !Hits(w, plan, j);
    }
  }

  lemma ListedTwice(e: Entry)
    ensures Subtract([e, e], [], false) == [DeleteGroup(e.group), DelUser(e.group, e.user), DelUser(e.group, e.user)]
  {
    var a, d := DelUser(e.group, e.user), DeleteGroup(e.group);
    assert [e, e][..1] == [e] && [e][..0] == [];
    assert Subtract([e], [], false) == Contribution(e, [], false, []) == [d, a];
    assert Contribution(e, [], false, [d, a]) == [a];
    assert Subtract([e, e], [], false) == [d, a] + [a];
  }

  lemma WithKeyCons(a: Action, rest: seq<Action>, key: int)
    ensures WithKey([a] + rest, key) == if SortKey(a) == key then [a] + WithKey(rest, key) else WithKey(rest, key)
  {
    assert ([a] + rest)[1..] == rest;
  }

  lemma TwiceSorted(a: Action, d: Action)
    requires SortKey(a) == 1 && SortKey(d) == 2
    ensures Sorted([d, a, a]) == [a, a, d]
  {
    assert [d, a, a] == [d] + ([a] + ([a] + [])) && WithKey([], 1) == WithKey([], 2) == [];
    WithKeyCons(a, [], 1);
    WithKeyCons(a, [a] + [], 1);
    WithKeyCons(d, [a] + ([a] + []), 1);
    WithKeyCons(a, [], 2);
    WithKeyCons(a, [a] + [], 2);
    WithKeyCons(d, [a] + ([a] + []), 2);
  }

  /** An undesired user listed twice: the second deletion finds the user gone. */
  lemma SecondDeletionMisses(g: Group, u: User)
    ensures var e := Entry(g, u);
            var w, plan := map[g := {u}], Plan([e, e], []);
            && Shows(w, {g}, [e, e], [])
            && plan == [DelUser(g, u), DelUser(g, u), DeleteGroup(g)]
            && Hits(w, plan, 0) && !Hits(w, plan, 1)
  {
    var e, a, d := Entry(g, u), DelUser(g, u), DeleteGroup(g);
    var w, plan := map[g := {u}], Plan([e, e], []);
    ListedTwice(e);
    assert Subtract([], [e, e], true) == [];
    assert Diff([e, e], []) == [] + [d, a, a] == [d, a, a];
    TwiceSorted(a, d);
    assert Shows(w, {g}, [e, e], []);
    FirstHalfPrefix(w, {g}, [e, e], [], 0);
    FirstHalfPrefix(w, {g}, [e, e], [], 1);
    assert plan[0] == plan[1];
  }

  /** The deletions of a plan, as entries in order. */
  function Dels(plan: seq<Action>): seq<Entry> {
    if plan == [] then []
    else (if plan[0].DelUser? then [Entry(plan[0].group, plan[0].user)] else []) + Dels(plan[1..])
  }

  lemma {:induction false} DelsIs(plan: seq<Action>)
    ensures forall e :: e in Dels(plan) <==> DelUser(e.group, e.user) in plan
  {
    if plan != [] { DelsIs(plan[1..]); }
  }

  ghost predicate OnceEach(plan: seq<Action>) {
    forall i, j :: 0 <= i < j < |plan| && plan[j].DelUser? ==> plan[i] != plan[j]
  }

  lemma OnceEachCons(a: Action, rest: seq<Action>)
    ensures OnceEach([a] + rest) <==> OnceEach(rest) && (a.DelUser? ==> a !in rest)
  {
    var plan := [a] + rest;
    if a.DelUser? && a in rest {
      var j :| 0 <= j < |rest| && rest[j] == a;
      assert plan[0] == plan[j + 1];
    } else if !OnceEach(rest) {
      var i, j :| 0 <= i < j < |rest| && rest[j].DelUser? && rest[i] == rest[j];
      assert plan[i + 1] == plan[j + 1];
    } else {
      forall i, j | 0 <= i < j < |plan| && plan[j].DelUser? ensures plan[i] != plan[j] {
        assert plan[j] == rest[j - 1] && rest[j - 1] in rest;
        if i > 0 { assert plan[i] == rest[i - 1]; }
      }
    }
  }

  lemma {:induction false} DelsOnce(plan: seq<Action>)
    ensures OnceEach(plan) <==> NoDup(Dels(plan))
  {
    if plan != [] {
      var a, rest := plan[0], plan[1..];
      DelsOnce(rest);
      DelsIs(rest);
      assert plan == [a] + rest;
      OnceEachCons(a, rest);
      if a.DelUser? {
        NoDupCons(Entry(a.group, a.user), Dels(rest));
        assert a in rest <==> Entry(a.group, a.user) in Dels(rest);
      } else {
        assert Dels(plan) == Dels(rest);
      }
    }
  }

  lemma {:induction false} DelsConcat(a: seq<Action>, b: seq<Action>)
    ensures Dels(a + b) == Dels(a) + Dels(b)
    decreases |a|
  {
    if a == [] {
      assert a + b == b;
    } else {
      var head := if a[0].DelUser? then [Entry(a[0].group, a[0].user)] else [];
      assert (a + b)[0] == a[0] && (a + b)[1..] == a[1..] + b;
      DelsConcat(a[1..], b);
      assert Dels(a + b) == head + (Dels(a[1..]) + Dels(b)) == (head + Dels(a[1..])) + Dels(b);
    }
  }

  lemma DelsSingle(a: Action)
    ensures Dels([a]) == if a.DelUser? then [Entry(a.group, a.user)] else []
  {
    assert [a][1..] == [];
  }

  lemma {:induction false} DelsWithKey(diffs: seq<Action>)
    ensures Dels(WithKey(diffs, 1)) == Dels(diffs) && Dels(WithKey(diffs, 2)) == []
  {
    if diffs != [] {
      DelsWithKey(diffs[1..]);
      var head := if SortKey(diffs[0]) == 1 then [diffs[0]] else [];
      DelsConcat(head, WithKey(diffs[1..], 1));
      DelsConcat(if SortKey(diffs[0]) == 2 then [diffs[0]] else [], WithKey(diffs[1..], 2));
      assert [diffs[0]][1..] == [];
    }
  }

  lemma DelsOfContribution(e: Entry, other: seq<Entry>, adding: bool, before: seq<Action>)
    ensures Dels(Contribution(e, other, adding, before)) == if adding || e in other then [] else [e]
  {
    var more := Contribution(e, other, adding, before);
    if e !in other {
      DelsSingle(UserAction(adding, e));
      if |more| == 2 {
        DelsSingle(GroupAction(adding, e.group));
        DelsConcat([GroupAction(adding, e.group)], [UserAction(adding, e)]);
      }
    }
  }

  lemma {:induction false} DelsOfSubtract(from: seq<Entry>, other: seq<Entry>, adding: bool)
    ensures Dels(Subtract(from, other, adding)) == if adding then [] else Missing(from, other)
    decreases |from|
  {
    if from != [] {
      var n := |from| - 1;
      var before := Subtract(from[..n], other, adding);
      DelsOfSubtract(from[..n], other, adding);
      DelsConcat(before, Contribution(from[n], other, adding, before));
      DelsOfContribution(from[n], other, adding, before);
    }
  }

  /** The plan deletes the undesired entries of the current state, each as often as it is listed. */
  lemma PlanDels(current: seq<Entry>, desired: seq<Entry>)
    ensures Dels(Plan(current, desired)) == Missing(current, desired)
  {
    var diff := Diff(current, desired);
    DelsConcat(WithKey(diff, 1), WithKey(diff, 2));
    DelsWithKey(diff);
    assert Dels(Plan(current, desired)) == Dels(diff) + [];
    DelsConcat(Subtract(desired, current, true), Subtract(current, desired, false));
    DelsOfSubtract(desired, current, true);
    DelsOfSubtract(current, desired, false);
    assert Dels(diff) == [] + Missing(current, desired);
  }

  // --- The loops ------------------------------------------------------------------------

  /** `subtract_states`: nested loops with a flag. */
  method SubtractStates(from: seq<Entry>, other: seq<Entry>, adding: bool) returns (result: seq<Action>)
    ensures result == Subtract(from, other, adding)
  {
    result := [];
    for k := 0 to |from|
      invariant result == Subtract(from[..k], other, adding)
    {
      var e := from[k];
      assert from[..k + 1][..k] == from[..k] && from[..k + 1][k] == e;
      var found := false;
      for i := 0 to |other|
        invariant found <==> e in other[..i]
      {
        assert other[..i + 1] == other[..i] + [other[i]];
        if e != other[i] { continue; }
        found := true;
        assert e in other;
        break;
      }
      assert found <==> e in other by { assert other[..|other|] == other; }
      if !found {
        if !HasGroup(other, e.group) {
          var item := GroupAction(adding, e.group);
          if item !in result {
            result := result + [item];
          }
        }
        result := result + [UserAction(adding, e)];
      }
    }
    assert from[..|from|] == from;
  }

  /** `calculate_diff` */
  method CalculateDiff(current: seq<Entry>, desired: seq<Entry>) returns (diff: seq<Action>)
    ensures diff == Diff(current, desired)
  {
    var add := SubtractStates(desired, current, true);
    var del := SubtractStates(current, desired, false);
    diff := add + del;
  }

  /** The groups of all clusters; `clients` names the clusters that have a client. */
  class Clusters {
    var groups: World
    const clients: set<string>

    constructor (w: World, clients: set<string>)
      ensures groups == w && this.clients == clients
    {
      groups, this.clients := w, clients;
    }

    /** The acting loop of `run`, after validation against the managed groups; it passes over clusters
        without a client and raises on the first action that fails. */
    method Apply(current: seq<Entry>, desired: seq<Entry>, managed: set<Group>, dry: bool) returns (ok: bool)
      modifies this
      ensures var plan := Plan(current, desired);
              if exists a :: a in plan && a.group !in managed then !ok && groups == old(groups)
              else if dry then ok && groups == old(groups)
              else Outcome(groups, ok) == Act(old(groups), Reachable(plan, clients))
    {
      var diffs := CalculateDiff(current, desired);
      var plan := Sorted(diffs);
      for k := 0 to |plan|
        invariant forall i :: 0 <= i < k ==> plan[i].group in managed
      {
        if plan[k].group !in managed {
          assert plan[k] in plan;
          return false;
        }
      }
      for k := 0 to |plan|
        invariant if dry then groups == old(groups) else Act(old(groups), Reachable(plan, clients)) == Act(groups, Reachable(plan[k..], clients))
      {
        assert plan[k..] == [plan[k]] + plan[k + 1..];
        ReachableCons(plan[k], plan[k + 1..], clients);
        if dry { continue; }
        if plan[k].group.cluster !in clients { continue; }
        assert ([plan[k]] + Reachable(plan[k + 1..], clients))[1..] == Reachable(plan[k + 1..], clients);
        if !Works(groups, plan[k]) { return false; }
        groups := Do(groups, plan[k]);
      }
      ok := true;
    }
  }
}
