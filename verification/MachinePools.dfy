/** Machine pools: what a plan of creations, updates and deletions must contain, and why carrying it
    out never leaves a cluster without a pool, even when it stops part way. */
module MachinePools {
  import opened Common

  datatype Key = Key(cluster: string, id: string)

  datatype ClusterType = Osd | RosaClassic | RosaHcp

  datatype Taint = Taint(name: string, value: string, effect: string)

  datatype Range = Range(min: int, max: int)

  /** A pool as OCM keeps it. */
  datatype Pool = Pool(
    replicas: Option<int>, autoscale: Option<Range>, instanceType: string, subnet: Option<string>,
    taints: seq<Taint>, labels: map<string, string>)

  /** A declared pool; labels may be left out. */
  datatype Want = Want(
    replicas: Option<int>, autoscale: Option<Range>, instanceType: string, subnet: Option<string>,
    taints: seq<Taint>, labels: Option<map<string, string>>)

  datatype Desired = Desired(kind: ClusterType, pools: map<string, Want>)

  const DEFAULT_POOL_ID := "worker"

  type Pools = map<Key, Pool>
  type Declared = map<string, Desired>

  function Lookup(desired: Declared, k: Key): Option<Want> {
    if k.cluster in desired && k.id in desired[k.cluster].pools then Some(desired[k.cluster].pools[k.id]) else None
  }

  function KindOf(desired: Declared, k: Key): ClusterType {
    if k.cluster in desired then desired[k.cluster].kind else Osd
  }

  /** OCM leaves empty label sets out of its answers. */
  function Shown(labels: map<string, string>): Option<map<string, string>> {
    if labels == map[] then None else Some(labels)
  }

  /** `has_diff`; only node pools compare the subnet. */
  predicate HasDiff(kind: ClusterType, cur: Pool, want: Want) {
    || cur.replicas != want.replicas
    || cur.taints != want.taints
    || Shown(cur.labels) != want.labels
    || cur.instanceType != want.instanceType
    || cur.autoscale != want.autoscale
    || (kind == RosaHcp && cur.subnet != want.subnet)
  }

  datatype Fixed = InstanceType | Subnet

  /** `invalid_diff`: the immutable field that differs. */
  function InvalidDiff(kind: ClusterType, cur: Pool, want: Want): Option<Fixed> {
    if cur.instanceType != want.instanceType then Some(InstanceType)
    else if kind == RosaHcp && cur.subnet != want.subnet then Some(Subnet)
    else None
  }

  predicate IsDeletable(kind: ClusterType, k: Key) {
    !(kind == Osd && k.id == DEFAULT_POOL_ID)
  }

  /** Building a pool from such a declaration raises. */
  predicate IsMalformed(want: Want) {
    want.autoscale.Some? && (want.autoscale.value.min > want.autoscale.value.max || (want.replicas.Some? && want.replicas.value != 0))
  }

  datatype Action = Create(key: Key, want: Want) | Update(key: Key, want: Want) | Delete(key: Key)

  datatype Error = CannotUpdate(key: Key, field: Fixed) | CannotDeleteAll(key: Key) | CannotDelete(key: Key)

  predicate IsPlanned(current: Pools, desired: Declared, a: Action) {
    var k := a.key;
    var kind := KindOf(desired, k);
    match a
    case Create(_, w) => k !in current && Lookup(desired, k) == Some(w)
    case Update(_, w) => k in current && Lookup(desired, k) == Some(w) && HasDiff(kind, current[k], w) && InvalidDiff(kind, current[k], w).None?
    case Delete(_) => k in current && Lookup(desired, k).None? && k.cluster in desired && desired[k.cluster].pools != map[] && IsDeletable(kind, k)
  }

  predicate IsError(current: Pools, desired: Declared, e: Error) {
    var k := e.key;
    var kind := KindOf(desired, k);
    k in current && k.cluster in desired &&
    match e
    case CannotUpdate(_, field) =>
      Lookup(desired, k).Some? && HasDiff(kind, current[k], Lookup(desired, k).value) && InvalidDiff(kind, current[k], Lookup(desired, k).value) == Some(field)
    case CannotDeleteAll(_) => Lookup(desired, k).None? && desired[k.cluster].pools == map[]
    case CannotDelete(_) => Lookup(desired, k).None? && desired[k.cluster].pools != map[] && !IsDeletable(kind, k)
  }

  function Rank(a: Action): nat {
    match a
    case Create(_, _) => 0
    case Update(_, _) => 1
    case Delete(_) => 2
  }

  /** All actions that are called for and no other, one per pool, creations first and deletions last. */
  ghost predicate IsPlan(current: Pools, desired: Declared, plan: seq<Action>) {
    && (forall a :: a in plan <==> IsPlanned(current, desired, a))
    && (forall i, j :: 0 <= i < j < |plan| ==> plan[i].key != plan[j].key && Rank(plan[i]) <= Rank(plan[j]))
  }

  /** Every cluster with pools is declared. */
  ghost predicate Covers(desired: Declared, current: Pools) {
    forall k :: k in current ==> k.cluster in desired
  }

  // --- Carrying a plan out --------------------------------------------------------------

  /** A creation takes everything over; an update leaves immutable fields, and empty labels and taints,
      out of the request. */
  function Do(pools: Pools, a: Action): Pools {
    match a
    case Create(k, w) =>
      pools[k := Pool(w.replicas, w.autoscale, w.instanceType, w.subnet, w.taints, if w.labels.Some? then w.labels.value else map[])]
    case Update(k, w) =>
      if k !in pools then pools
      else
        pools[k := pools[k].(
          replicas := w.replicas, autoscale := w.autoscale,
          taints := if w.taints == [] then pools[k].taints else w.taints,
          labels := if w.labels.Some? && w.labels.value != map[] then w.labels.value else pools[k].labels)]
    case Delete(k) => pools - {k}
  }

  /** Clusters without an OCM client are passed over. */
  function Act(pools: Pools, plan: seq<Action>, reach: set<string>): Pools
    decreases |plan|
  {
    if plan == [] then pools
    else Act(if plan[0].key.cluster in reach then Do(pools, plan[0]) else pools, plan[1..], reach)
  }

  lemma {:induction false} ActConcat(pools: Pools, a: seq<Action>, b: seq<Action>, reach: set<string>)
    ensures Act(pools, a + b, reach) == Act(Act(pools, a, reach), b, reach)
    decreases |a|
  {
    if a == [] {
      assert a + b == b;
    } else {
      assert (a + b)[1..] == a[1..] + b;
      ActConcat(if a[0].key.cluster in reach then Do(pools, a[0]) else pools, a[1..], b, reach);
    }
  }

  ghost predicate Targets(plan: seq<Action>, k: Key) {
    exists a :: a in plan && a.key == k
  }

  ghost predicate OneEach(plan: seq<Action>) {
    forall i, j :: 0 <= i < j < |plan| ==> plan[i].key != plan[j].key
  }

  lemma {:induction false} ActElsewhere(pools: Pools, plan: seq<Action>, reach: set<string>, k: Key)
    requires !Targets(plan, k)
    ensures SameAt(Act(pools, plan, reach), pools, k)
    decreases |plan|
  {
    if plan != [] {
      assert plan[0] in plan;
      var next := if plan[0].key.cluster in reach then Do(pools, plan[0]) else pools;
      assert SameAt(next, pools, k);
      ActElsewhere(next, plan[1..], reach, k);
    }
  }

  /** With one action per pool, a pool ends up as its own action alone makes it. */
  lemma {:induction false} ActAt(pools: Pools, plan: seq<Action>, reach: set<string>, k: Key)
    requires OneEach(plan)
    ensures var after := Act(pools, plan, reach);
            if k.cluster in reach && Targets(plan, k) then
              exists a :: a in plan && a.key == k && SameAt(after, Do(pools, a), k)
            else SameAt(after, pools, k)
    decreases |plan|
  {
    if !Targets(plan, k) {
      ActElsewhere(pools, plan, reach, k);
    } else {
      var a, rest := plan[0], plan[1..];
      var next := if a.key.cluster in reach then Do(pools, a) else pools;
      forall i | 0 <= i < |rest| ensures rest[i].key != a.key { assert plan[i + 1] == rest[i]; }
      if a.key == k {
        assert a in plan;
        ActElsewhere(next, rest, reach, k);
      } else {
        OneEachTail(plan);
        ActAt(next, rest, reach, k);
        FromTail(pools, next, plan, Act(next, rest, reach), k);
      }
    }
  }

  lemma OneEachTail(plan: seq<Action>)
    requires OneEach(plan) && plan != []
    ensures OneEach(plan[1..])
  {
    var rest := plan[1..];
    forall i, j | 0 <= i < j < |rest| ensures rest[i].key != rest[j].key { assert plan[i + 1] == rest[i] && plan[j + 1] == rest[j]; }
  }

  lemma FromTail(pools: Pools, next: Pools, plan: seq<Action>, after: Pools, k: Key)
    requires plan != [] && plan[0].key != k && Targets(plan, k) && SameAt(next, pools, k)
    ensures Targets(plan[1..], k)
    ensures (exists a :: a in plan[1..] && a.key == k && SameAt(after, Do(next, a), k))
      ==> exists a :: a in plan && a.key == k && SameAt(after, Do(pools, a), k)
  {
    var x :| x in plan && x.key == k;
    assert x in plan[1..];
    if a :| a in plan[1..] && a.key == k && SameAt(after, Do(next, a), k) {
      assert a in plan && SameAt(Do(next, a), Do(pools, a), k);
    }
  }

  ghost predicate SameAt(a: Pools, b: Pools, k: Key) {
    (k in a <==> k in b) && (k in a ==> a[k] == b[k])
  }

  // --- Safety at every prefix -----------------------------------------------------------

  ghost predicate HasPool(pools: Pools, cluster: string) {
    exists k :: k in pools && k.cluster == cluster
  }

  lemma PrefixOneEach(plan: seq<Action>, n: nat)
    requires OneEach(plan) && n <= |plan|
    ensures OneEach(plan[..n])
  {
  }

  /** A pool that is there at first disappears only by its deletion. */
  lemma OnlyDeletionRemoves(current: Pools, plan: seq<Action>, reach: set<string>, k: Key)
    requires OneEach(plan) && k in current && Delete(k) !in plan
    ensures k in Act(current, plan, reach)
  {
    ActAt(current, plan, reach, k);
    if k.cluster in reach && Targets(plan, k) {
      var a :| a in plan && a.key == k && SameAt(Act(current, plan, reach), Do(current, a), k);
      assert a != Delete(k);
    }
  }

  lemma CreationCreates(current: Pools, plan: seq<Action>, reach: set<string>, a: Action)
    requires OneEach(plan) && a in plan && a.Create? && a.key.cluster in reach
    ensures a.key in Act(current, plan, reach)
  {
    ActAt(current, plan, reach, a.key);
    assert Targets(plan, a.key);
    var b :| b in plan && b.key == a.key && SameAt(Act(current, plan, reach), Do(current, b), a.key);
    var i :| 0 <= i < |plan| && plan[i] == a;
    var j :| 0 <= j < |plan| && plan[j] == b;
    assert i == j;
  }

  /** However far the plan has been carried out, a cluster that had a pool still has one. */
  lemma NeverWithoutPool(current: Pools, desired: Declared, plan: seq<Action>, reach: set<string>, n: nat, cluster: string)
    requires IsPlan(current, desired, plan) && n <= |plan| && HasPool(current, cluster)
    ensures HasPool(Act(current, plan[..n], reach), cluster)
  {
    PrefixOneEach(plan, n);
    var k :| k in current && k.cluster == cluster;
    if Delete(k) !in plan[..n] {
      OnlyDeletionRemoves(current, plan[..n], reach, k);
    } else if cluster !in reach {
      ActAt(current, plan[..n], reach, k);
    } else {
      var i :| 0 <= i < n && plan[i] == Delete(k);
      assert IsPlanned(current, desired, plan[i]);
      var id :| id in desired[cluster].pools;
      var want := Key(cluster, id);
      if want in current {
        assert !IsPlanned(current, desired, Delete(want));
        OnlyDeletionRemoves(current, plan[..n], reach, want);
      } else {
        var a := Create(want, desired[cluster].pools[id]);
        assert IsPlanned(current, desired, a);
        var j :| 0 <= j < |plan| && plan[j] == a;
        assert j < i;
        assert plan[..n][j] == a;
        CreationCreates(current, plan[..n], reach, a);
      }
    }
  }

  /** However far the plan has been carried out, the default worker pool of an OSD cluster is there, and
      no pool that is still there has another instance type or subnet. */
  lemma DefaultAndImmutable(current: Pools, desired: Declared, plan: seq<Action>, reach: set<string>, n: nat, k: Key)
    requires IsPlan(current, desired, plan) && n <= |plan| && k in current
    ensures var after := Act(current, plan[..n], reach);
            && (KindOf(desired, k) == Osd && k.id == DEFAULT_POOL_ID ==> k in after)
            && (k in after ==> after[k].instanceType == current[k].instanceType && after[k].subnet == current[k].subnet)
  {
    PrefixOneEach(plan, n);
    ActAt(current, plan[..n], reach, k);
    forall a | a in plan[..n] && a.key == k ensures IsPlanned(current, desired, a) { assert a in plan; }
  }

  // --- The whole plan -------------------------------------------------------------------

  ghost predicate IsWanted(desired: Declared, k: Key) {
    Lookup(desired, k).Some?
  }

  ghost predicate NoErrors(current: Pools, desired: Declared) {
    forall e :: !IsError(current, desired, e)
  }

  ghost predicate AllReached(current: Pools, desired: Declared, reach: set<string>) {
    desired.Keys <= reach && Covers(desired, current)
  }

  /** The pools left are exactly the declared ones if and only if no deletion was refused. */
  lemma FinalIdsIff(current: Pools, desired: Declared, plan: seq<Action>, reach: set<string>)
    requires IsPlan(current, desired, plan) && AllReached(current, desired, reach)
    ensures (forall k :: k in Act(current, plan, reach) <==> IsWanted(desired, k))
      <==> forall k :: !IsError(current, desired, CannotDelete(k)) && !IsError(current, desired, CannotDeleteAll(k))
  {
    var after := Act(current, plan, reach);
    forall k
      ensures (k in after <==> IsWanted(desired, k)) <==> !IsError(current, desired, CannotDelete(k)) && !IsError(current, desired, CannotDeleteAll(k))
    {
      ActAt(current, plan, reach, k);
      if IsWanted(desired, k) {
        if k !in current { assert IsPlanned(current, desired, Create(k, Lookup(desired, k).value)); }
        forall a | a in plan && a.key == k ensures !a.Delete? { assert IsPlanned(current, desired, a); }
        if k !in current {
          var a := Create(k, Lookup(desired, k).value);
          assert a in plan && Targets(plan, k);
        }
      } else {
        forall a | a in plan && a.key == k ensures a == Delete(k) { assert IsPlanned(current, desired, a); }
        if k in current && !IsError(current, desired, CannotDelete(k)) && !IsError(current, desired, CannotDeleteAll(k)) {
          assert IsPlanned(current, desired, Delete(k)) && Delete(k) in plan && Targets(plan, k);
        }
      }
    }
  }

  function At(pools: Pools, k: Key): Option<Pool> {
    if k in pools then Some(pools[k]) else None
  }

  /** What can be changed freely, and what cannot be changed, is as declared; only node pools have a subnet. */
  ghost predicate FieldsAgree(kind: ClusterType, pool: Pool, want: Want) {
    && pool.replicas == want.replicas && pool.autoscale == want.autoscale && pool.instanceType == want.instanceType
    && (kind == RosaHcp ==> pool.subnet == want.subnet)
  }

  /** No labels at all are declared as none, not as empty ones. */
  ghost predicate LabelsAgree(pool: Pool, want: Want) {
    if pool.labels == map[] then want.labels == None else want.labels == Some(pool.labels)
  }

  /** Taints can be replaced but not cleared. */
  ghost predicate ClearsTaints(cur: Option<Pool>, want: Want) {
    cur.Some? && cur.value.taints != [] && want.taints == []
  }

  /** Labels can be replaced but not cleared, whether by leaving them out or by declaring empty ones; and
      declared empty ones never agree. */
  ghost predicate ClearsLabels(cur: Option<Pool>, want: Want) {
    want.labels == Some(map[]) || (cur.Some? && cur.value.labels != map[] && want.labels == None)
  }

  /** After an error-free plan a declared pool is as declared in replicas, autoscaling, instance type and
      subnet; in taints and in labels it is so if and only if the declaration did not ask for them to
      be cleared, and then they stay as they were. */
  lemma SettledIff(current: Pools, desired: Declared, plan: seq<Action>, reach: set<string>, k: Key)
    requires IsPlan(current, desired, plan) && AllReached(current, desired, reach) && NoErrors(current, desired) && IsWanted(desired, k)
    ensures var after, w := Act(current, plan, reach), Lookup(desired, k).value;
            && k in after && FieldsAgree(KindOf(desired, k), after[k], w)
            && (after[k].taints == w.taints <==> !ClearsTaints(At(current, k), w))
            && (LabelsAgree(after[k], w) <==> !ClearsLabels(At(current, k), w))
            && (k in current && ClearsTaints(At(current, k), w) ==> after[k].taints == current[k].taints)
            && (k in current && ClearsLabels(At(current, k), w) ==> after[k].labels == current[k].labels)
  {
    var w, kind := Lookup(desired, k).value, KindOf(desired, k);
    ActAt(current, plan, reach, k);
    forall a | a in plan && a.key == k ensures a == (if k in current then Update(k, w) else Create(k, w)) { assert IsPlanned(current, desired, a); }
    if k !in current {
      assert IsPlanned(current, desired, Create(k, w)) && Targets(plan, k);
    } else if HasDiff(kind, current[k], w) {
      if InvalidDiff(kind, current[k], w).Some? {
        assert IsError(current, desired, CannotUpdate(k, InvalidDiff(kind, current[k], w).value));
      }
      assert IsPlanned(current, desired, Update(k, w)) && Update(k, w) in plan && Targets(plan, k);
    } else {
      forall a | a in plan ensures a.key != k { assert IsPlanned(current, desired, a); }
    }
  }

  /** A pool that is there and declared is left out of the plan if and only if everything agrees, or an
      immutable field does not. */
  lemma LeftOutIff(current: Pools, desired: Declared, plan: seq<Action>, k: Key)
    requires IsPlan(current, desired, plan) && k in current && IsWanted(desired, k)
    ensures var pool, w, hcp := current[k], Lookup(desired, k).value, desired[k.cluster].kind == RosaHcp;
            var immutable := pool.instanceType == w.instanceType && (hcp ==> pool.subnet == w.subnet);
            && (!Targets(plan, k) <==>
                  !immutable || (FieldsAgree(desired[k.cluster].kind, pool, w) && pool.taints == w.taints && LabelsAgree(pool, w)))
            && (Targets(plan, k) ==> Update(k, w) in plan)
  {
    var w := Lookup(desired, k).value;
    forall a | a in plan && a.key == k ensures a == Update(k, w) { assert IsPlanned(current, desired, a); }
    if IsPlanned(current, desired, Update(k, w)) { assert Update(k, w) in plan; }
  }

  /** Which errors a plan comes with: a changed instance type, a changed subnet of a node pool, a cluster
      whose pools would all go, and the default worker pool of an OSD cluster that would go. */
  lemma ErrorsAre(current: Pools, desired: Declared, k: Key)
    requires k in current && k.cluster in desired
    ensures var pool, kind, pools := current[k], desired[k.cluster].kind, desired[k.cluster].pools;
            var wanted := k.id in pools;
            var typeDiffers := wanted && pools[k.id].instanceType != pool.instanceType;
            && (IsError(current, desired, CannotUpdate(k, InstanceType)) <==> typeDiffers)
            && (IsError(current, desired, CannotUpdate(k, Subnet)) <==>
                  wanted && !typeDiffers && kind == RosaHcp && pools[k.id].subnet != pool.subnet)
            && (IsError(current, desired, CannotDeleteAll(k)) <==> pools == map[])
            && (IsError(current, desired, CannotDelete(k)) <==> !wanted && pools != map[] && kind == Osd && k.id == "worker")
  {
  }

  /** A cluster without an OCM client keeps its pools as they are. */
  lemma UnreachedStays(current: Pools, plan: seq<Action>, reach: set<string>, k: Key)
    requires OneEach(plan) && k.cluster !in reach
    ensures SameAt(Act(current, plan, reach), current, k)
  {
    ActAt(current, plan, reach, k);
  }

  // --- Planning -------------------------------------------------------------------------

  datatype Plan = Plan(diffs: seq<Action>, errors: seq<Error>) | Raised

  function DesiredKeys(desired: Declared): set<Key> {
    set c, id | c in desired && id in desired[c].pools :: Key(c, id)
  }

  /** The actions and errors found so far are those of the pools `done`. */
  ghost predicate Sorted(current: Pools, desired: Declared, done: set<Key>, plan: seq<Action>, rank: nat) {
    && (forall a :: a in plan <==> a.key in done && IsPlanned(current, desired, a))
    && (forall i, j :: 0 <= i < j < |plan| ==> plan[i].key != plan[j].key && Rank(plan[i]) <= Rank(plan[j]))
    && (forall a :: a in plan ==> Rank(a) <= rank)
  }

  ghost predicate Complained(current: Pools, desired: Declared, done: set<Key>, errors: seq<Error>) {
    forall e :: e in errors <==> e.key in done && IsError(current, desired, e)
  }

  lemma SortedMore(current: Pools, desired: Declared, done: set<Key>, plan: seq<Action>, rank: nat, a: Action)
    requires Sorted(current, desired, done, plan, rank) && a.key !in done && IsPlanned(current, desired, a) && Rank(a) == rank
    ensures Sorted(current, desired, done + {a.key}, plan + [a], rank)
  {
    forall b ensures b in plan + [a] <==> b in plan || b == a {}
    forall b: Action | b.key == a.key && IsPlanned(current, desired, b) ensures b == a {}
    forall i | 0 <= i < |plan| ensures plan[i].key != a.key && Rank(plan[i]) <= rank { assert plan[i] in plan; }
  }

  /** The loop over pools to be created. */
  method PlanCreations(current: Pools, desired: Declared, add: set<Key>) returns (ok: bool, diffs: seq<Action>)
    requires add == DesiredKeys(desired) - current.Keys
    ensures ok ==> Sorted(current, desired, add, diffs, 0) && Complained(current, desired, add, [])
    ensures ok <==> forall k :: k in add ==> !IsMalformed(Lookup(desired, k).value)
  {
    diffs := [];
    var todo := add;
    while todo != {}
      invariant todo <= add && Sorted(current, desired, add - todo, diffs, 0)
      invariant forall k :: k in add - todo ==> !IsMalformed(Lookup(desired, k).value)
    {
      var k :| k in todo;
      var want := desired[k.cluster].pools[k.id];
      if IsMalformed(want) { return false, []; }
      SortedMore(current, desired, add - todo, diffs, 0, Create(k, want));
      assert add - (todo - {k}) == add - todo + {k};
      todo := todo - {k};
      diffs := diffs + [Create(k, want)];
    }
    assert add - todo == add;
    ok := true;
  }

  ghost predicate BuildsUpdate(current: Pools, desired: Declared, k: Key) {
    k in current && Lookup(desired, k).Some? && InvalidDiff(KindOf(desired, k), current[k], Lookup(desired, k).value).None?
  }

  lemma SortedSkip(current: Pools, desired: Declared, done: set<Key>, plan: seq<Action>, rank: nat, k: Key)
    requires Sorted(current, desired, done, plan, rank) && forall a: Action :: a.key == k ==> !IsPlanned(current, desired, a)
    ensures Sorted(current, desired, done + {k}, plan, rank)
  {
  }

  lemma ComplainedMore(current: Pools, desired: Declared, done: set<Key>, errors: seq<Error>, e: Error)
    requires Complained(current, desired, done, errors) && e.key !in done && IsError(current, desired, e)
    ensures Complained(current, desired, done + {e.key}, errors + [e])
  {
    forall x ensures x in errors + [e] <==> x in errors || x == e {}
    forall x: Error | x.key == e.key && IsError(current, desired, x) ensures x == e {}
  }

  lemma ComplainedSkip(current: Pools, desired: Declared, done: set<Key>, errors: seq<Error>, k: Key)
    requires Complained(current, desired, done, errors) && forall e: Error :: e.key == k ==> !IsError(current, desired, e)
    ensures Complained(current, desired, done + {k}, errors)
  {
  }

  /** The loop over pools to be changed. */
  method PlanUpdates(current: Pools, desired: Declared, change: set<Key>, done: set<Key>, before: seq<Action>)
    returns (ok: bool, diffs: seq<Action>, errors: seq<Error>)
    requires forall k :: k in change ==> k in current && Lookup(desired, k).Some? && HasDiff(KindOf(desired, k), current[k], Lookup(desired, k).value)
    requires change !! done && Sorted(current, desired, done, before, 1) && Complained(current, desired, done, [])
    ensures ok ==> Sorted(current, desired, done + change, diffs, 1) && Complained(current, desired, done + change, errors)
    ensures ok <==> forall k :: k in change && BuildsUpdate(current, desired, k) ==> !IsMalformed(Lookup(desired, k).value)
  {
    diffs, errors := before, [];
    var todo := change;
    while todo != {}
      invariant todo <= change
      invariant Sorted(current, desired, done + (change - todo), diffs, 1) && Complained(current, desired, done + (change - todo), errors)
      invariant forall k :: k in change - todo && BuildsUpdate(current, desired, k) ==> !IsMalformed(Lookup(desired, k).value)
    {
      var k :| k in todo;
      ghost var seen := done + (change - todo);
      assert done + (change - (todo - {k})) == seen + {k};
      todo := todo - {k};
      var want := desired[k.cluster].pools[k.id];
      var invalid := InvalidDiff(KindOf(desired, k), current[k], want);
      if invalid.Some? {
        ComplainedMore(current, desired, seen, errors, CannotUpdate(k, invalid.value));
        SortedSkip(current, desired, seen, diffs, 1, k);
        errors := errors + [CannotUpdate(k, invalid.value)];
      } else {
        if IsMalformed(want) { return false, [], []; }
        SortedMore(current, desired, seen, diffs, 1, Update(k, want));
        ComplainedSkip(current, desired, seen, errors, k);
        diffs := diffs + [Update(k, want)];
      }
    }
    assert change - todo == change;
    ok := true;
  }

  /** The loop over pools to be deleted. */
  method PlanDeletions(current: Pools, desired: Declared, delete: set<Key>, done: set<Key>, before: seq<Action>, complaints: seq<Error>)
    returns (diffs: seq<Action>, errors: seq<Error>)
    requires Covers(desired, current) && forall k :: k in delete ==> k in current && Lookup(desired, k).None?
    requires delete !! done && Sorted(current, desired, done, before, 2) && Complained(current, desired, done, complaints)
    ensures Sorted(current, desired, done + delete, diffs, 2) && Complained(current, desired, done + delete, errors)
  {
    diffs, errors := before, complaints;
    var todo := delete;
    while todo != {}
      invariant todo <= delete
      invariant Sorted(current, desired, done + (delete - todo), diffs, 2) && Complained(current, desired, done + (delete - todo), errors)
    {
      var k :| k in todo;
      ghost var seen := done + (delete - todo);
      assert done + (delete - (todo - {k})) == seen + {k};
      todo := todo - {k};
      if desired[k.cluster].pools == map[] {
        ComplainedMore(current, desired, seen, errors, CannotDeleteAll(k));
        SortedSkip(current, desired, seen, diffs, 2, k);
        errors := errors + [CannotDeleteAll(k)];
      } else if IsDeletable(KindOf(desired, k), k) {
        SortedMore(current, desired, seen, diffs, 2, Delete(k));
        ComplainedSkip(current, desired, seen, errors, k);
        diffs := diffs + [Delete(k)];
      } else {
        ComplainedMore(current, desired, seen, errors, CannotDelete(k));
        SortedSkip(current, desired, seen, diffs, 2, k);
        errors := errors + [CannotDelete(k)];
      }
    }
    assert delete - todo == delete;
  }

  /** A declaration that cannot be built - autoscaling bounds the wrong way round, or replicas besides
      autoscaling - is of a new pool, or of one that differs in what can be changed alone. */
  ghost predicate Raises(current: Pools, desired: Declared) {
    exists k :: Lookup(desired, k).Some? && IsMalformed(Lookup(desired, k).value)
      && (k !in current || (HasDiff(KindOf(desired, k), current[k], Lookup(desired, k).value) && BuildsUpdate(current, desired, k)))
  }

  /** Autoscaling bounds the wrong way round, or a number of replicas besides autoscaling. */
  ghost predicate IsContradictory(w: Want) {
    w.autoscale.Some? && (w.autoscale.value.max < w.autoscale.value.min || (w.replicas.Some? && w.replicas.value != 0))
  }

  /** The pool differs from its declaration, and in nothing that cannot be changed. */
  ghost predicate MustChange(kind: ClusterType, pool: Pool, w: Want) {
    && pool.instanceType == w.instanceType && (kind == RosaHcp ==> pool.subnet == w.subnet)
    && !(FieldsAgree(kind, pool, w) && pool.taints == w.taints && LabelsAgree(pool, w))
  }

  /** A contradictory declaration, of a new pool or of one that must change. */
  ghost predicate CannotBuild(current: Pools, desired: Declared, k: Key) {
    && k.cluster in desired && k.id in desired[k.cluster].pools && IsContradictory(desired[k.cluster].pools[k.id])
    && (k in current ==> MustChange(desired[k.cluster].kind, current[k], desired[k.cluster].pools[k.id]))
  }

  /** Planning raises exactly if some declaration cannot be built. */
  lemma RaisesIff(current: Pools, desired: Declared)
    ensures Raises(current, desired) <==> exists k :: CannotBuild(current, desired, k)
  {
    forall k
      ensures CannotBuild(current, desired, k) <==>
        && Lookup(desired, k).Some? && IsMalformed(Lookup(desired, k).value)
        && (k !in current || (HasDiff(KindOf(desired, k), current[k], Lookup(desired, k).value) && BuildsUpdate(current, desired, k)))
    {
    }
  }

  /** `calculate_diff` */
  method CalculateDiff(current: Pools, desired: Declared) returns (plan: Plan)
    requires Covers(desired, current)
    ensures plan.Raised? <==> Raises(current, desired)
    ensures plan.Plan? ==> IsPlan(current, desired, plan.diffs) && forall e :: e in plan.errors <==> IsError(current, desired, e)
  {
    var wanted := DesiredKeys(desired);
    var add, delete := wanted - current.Keys, current.Keys - wanted;
    var change := set k | k in current.Keys * wanted && HasDiff(KindOf(desired, k), current[k], Lookup(desired, k).value);
    var ok, diffs := PlanCreations(current, desired, add);
    if !ok {
      ghost var k :| k in add && IsMalformed(Lookup(desired, k).value);
      return Raised;
    }
    var errors;
    ok, diffs, errors := PlanUpdates(current, desired, change, add, diffs);
    if !ok {
      ghost var k :| k in change && BuildsUpdate(current, desired, k) && IsMalformed(Lookup(desired, k).value);
      return Raised;
    }
    diffs, errors := PlanDeletions(current, desired, delete, add + change, diffs, errors);
    forall a | IsPlanned(current, desired, a) ensures a.key in add + change + delete {}
    forall e | IsError(current, desired, e) ensures e.key in add + change + delete {}
    return Plan(diffs, errors);
  }

  /** The pools of all clusters behind the OCM clients. */
  class Ocm {
    var pools: Pools
    const reach: set<string>

    constructor (pools: Pools, reach: set<string>)
      ensures this.pools == pools && this.reach == reach
    {
      this.pools, this.reach := pools, reach;
    }

    /** `act`; OCM stops it after `made` actions by refusing one. */
    method CarryOut(dry: bool, diffs: seq<Action>, made: nat)
      modifies this
      ensures pools == if dry then old(pools) else Act(old(pools), if made < |diffs| then diffs[..made] else diffs, reach)
    {
      var n := if made < |diffs| then made else |diffs|;
      for k := 0 to n
        invariant pools == if dry then old(pools) else Act(old(pools), diffs[..k], reach)
      {
        if dry { continue; }
        ActConcat(old(pools), diffs[..k], [diffs[k]], reach);
        assert diffs[..k + 1] == diffs[..k] + [diffs[k]] && [diffs[k]][1..] == [];
        if diffs[k].key.cluster in reach {
          pools := Do(pools, diffs[k]);
        }
      }
      assert diffs[..|diffs|] == diffs;
    }
  }
}
