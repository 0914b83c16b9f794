/** What group formation selects, what a group pass leaves behind, and how often it lands. */
module MergeQueueGroups {
  import opened Common
  import opened GitLabRepo
  import opened MergeQueue
  import opened MergeQueueRules
  import opened MergeQueueLegal

  // --- Who may join ---------------------------------------------------------------------

  ghost predicate IsNewestLive(ps: seq<Pipeline>, k: nat)
    requires k < |ps|
  {
    ps[k].status != Skipped && forall j :: 0 <= j < k ==> ps[j].status == Skipped
  }

  /** The newest pipeline that was not skipped has one of these statuses. */
  ghost predicate NewestLiveIn(ps: seq<Pipeline>, statuses: set<Status>) {
    exists k :: 0 <= k < |ps| && IsNewestLive(ps, k) && ps[k].status in statuses
  }

  /** Listed without error and with a tenant label, and its newest pipeline runs, waits or succeeded. */
  ghost predicate MayJoin(r: Repo, it: Item) {
    && !it.error && (exists l :: l in it.labels && l.Tenant?)
    && it.iid in r.mrs && NewestLiveIn(r.mrs[it.iid].pipelines, {Running, Pending, Success})
  }

  lemma {:induction false} NewestLiveIs(ps: seq<Pipeline>, statuses: set<Status>)
    ensures NewestLiveIn(ps, statuses) <==> NonSkipped(ps) != [] && NonSkipped(ps)[0].status in statuses
  {
    if ps != [] {
      var rest := ps[1..];
      if ps[0].status != Skipped {
        assert IsNewestLive(ps, 0);
        forall k | 0 < k < |ps| ensures !IsNewestLive(ps, k) {}
      } else {
        NewestLiveIs(rest, statuses);
        forall k | 0 < k < |ps| ensures IsNewestLive(ps, k) <==> IsNewestLive(rest, k - 1) {
          assert forall j :: 0 <= j < k - 1 ==> rest[j] == ps[j + 1];
        }
        if NewestLiveIn(rest, statuses) {
          var k :| 0 <= k < |rest| && IsNewestLive(rest, k) && rest[k].status in statuses;
          assert IsNewestLive(ps, k + 1);
        }
      }
    }
  }

  lemma CandidateIff(r: Repo, it: Item)
    ensures IsCandidate(r, it) <==> MayJoin(r, it)
  {
    NewestLiveIs(PipelinesOf(r, it.iid), {Running, Pending, Success});
    if l :| l in it.labels && l.Tenant? { assert l in TenantLabels(it.labels); }
  }

  // --- Group formation is the greedy selection ------------------------------------------

  /** The queue positions `Form` picks. */
  function Picks(r: Repo, queue: seq<Item>, k: nat, taken: set<Label>): seq<nat>
    requires k <= |queue|
    decreases |queue| - k
  {
    if k == |queue| then []
    else if IsCandidate(r, queue[k]) && TenantLabels(queue[k].labels) * taken == {} then
      [k] + Picks(r, queue, k + 1, taken + TenantLabels(queue[k].labels))
    else Picks(r, queue, k + 1, taken)
  }

  predicate Overlap(a: Item, b: Item) {
    TenantLabels(a.labels) * TenantLabels(b.labels) != {}
  }

  /** A selection of queue positions from `k` on, in queue order: candidates only, apart from `taken`
      and from each other, and every candidate left out overlaps `taken` or an earlier choice. */
  ghost predicate IsGreedy(r: Repo, queue: seq<Item>, k: nat, taken: set<Label>, s: seq<nat>) {
    && (forall x :: 0 <= x < |s| ==> k <= s[x] < |queue| && MayJoin(r, queue[s[x]]))
    && (forall x :: 0 <= x < |s| ==> TenantLabels(queue[s[x]].labels) * taken == {})
    && (forall x, y :: 0 <= x < y < |s| ==> s[x] < s[y] && !Overlap(queue[s[x]], queue[s[y]]))
    && (forall j :: k <= j < |queue| && j !in s && MayJoin(r, queue[j]) ==> IsBlocked(queue, taken, s, j))
  }

  /** Item `j` overlaps `taken` or an earlier choice of `s`. */
  ghost predicate IsBlocked(queue: seq<Item>, taken: set<Label>, s: seq<nat>, j: nat)
    requires j < |queue| && forall x :: 0 <= x < |s| ==> s[x] < |queue|
  {
    TenantLabels(queue[j].labels) * taken != {} || exists x :: 0 <= x < |s| && s[x] < j && Overlap(queue[s[x]], queue[j])
  }

  lemma {:induction false} PicksAreGreedy(r: Repo, queue: seq<Item>, k: nat, taken: set<Label>)
    requires k <= |queue|
    ensures IsGreedy(r, queue, k, taken, Picks(r, queue, k, taken))
    decreases |queue| - k
  {
    if k < |queue| {
      var mine := TenantLabels(queue[k].labels);
      CandidateIff(r, queue[k]);
      if MayJoin(r, queue[k]) && mine * taken == {} {
        PicksAreGreedy(r, queue, k + 1, taken + mine);
        GreedyCons(r, queue, k, taken, Picks(r, queue, k + 1, taken + mine));
      } else {
        PicksAreGreedy(r, queue, k + 1, taken);
      }
    }
  }

  lemma GreedyCons(r: Repo, queue: seq<Item>, k: nat, taken: set<Label>, rest: seq<nat>)
    requires k < |queue| && MayJoin(r, queue[k]) && TenantLabels(queue[k].labels) * taken == {}
    requires IsGreedy(r, queue, k + 1, taken + TenantLabels(queue[k].labels), rest)
    ensures IsGreedy(r, queue, k, taken, [k] + rest)
  {
    var mine := TenantLabels(queue[k].labels);
    var s := [k] + rest;
    forall x | 0 <= x < |rest| ensures TenantLabels(queue[rest[x]].labels) * taken == {} && !Overlap(queue[k], queue[rest[x]]) {
      Apart(TenantLabels(queue[rest[x]].labels), taken, mine);
    }
    forall j | k <= j < |queue| && j !in s && MayJoin(r, queue[j]) ensures IsBlocked(queue, taken, s, j) {
      GreedySkipped(r, queue, k, taken, rest, j);
    }
  }

  lemma GreedySkipped(r: Repo, queue: seq<Item>, k: nat, taken: set<Label>, rest: seq<nat>, j: nat)
    requires k <= j < |queue| && j !in [k] + rest && MayJoin(r, queue[j])
    requires IsGreedy(r, queue, k + 1, taken + TenantLabels(queue[k].labels), rest)
    ensures IsBlocked(queue, taken, [k] + rest, j)
  {
    var s := [k] + rest;
    assert s[0] == k && j != k && j !in rest;
    if Overlap(queue[k], queue[j]) {
      assert s[0] < j && Overlap(queue[s[0]], queue[j]);
    } else if TenantLabels(queue[j].labels) * taken == {} {
      Apart(TenantLabels(queue[j].labels), taken, TenantLabels(queue[k].labels));
      var x :| 0 <= x < |rest| && rest[x] < j && Overlap(queue[rest[x]], queue[j]);
      assert s[x + 1] == rest[x];
    }
  }

  lemma Apart(a: set<Label>, b: set<Label>, c: set<Label>)
    ensures a * (b + c) == {} <==> a * b == {} && c * a == {}
  {
    if a * (b + c) == {} {
      assert a * b <= a * (b + c) && c * a <= a * (b + c);
    } else {
      var x :| x in a * (b + c);
      assert x in a * b || x in c * a;
    }
  }

  ghost predicate SameBelow(s: seq<nat>, t: seq<nat>, j: nat) {
    forall i: nat :: i < j ==> (i in s <==> i in t)
  }

  /** The greedy selection is unique, so the four clauses of `IsGreedy` pin down the result. */
  lemma {:induction false} GreedyUnique(r: Repo, queue: seq<Item>, taken: set<Label>, s: seq<nat>, t: seq<nat>, j: nat)
    requires IsGreedy(r, queue, 0, taken, s) && IsGreedy(r, queue, 0, taken, t)
    ensures SameBelow(s, t, j)
  {
    if j > 0 {
      var i := j - 1;
      GreedyUnique(r, queue, taken, s, t, i);
      GreedyMember(r, queue, taken, s, t, i);
      GreedyMember(r, queue, taken, t, s, i);
      SameOneMore(s, t, i);
    }
  }

  lemma SameOneMore(s: seq<nat>, t: seq<nat>, i: nat)
    requires SameBelow(s, t, i) && (i in s <==> i in t)
    ensures SameBelow(s, t, i + 1)
  {
  }

  lemma GreedyMember(r: Repo, queue: seq<Item>, taken: set<Label>, s: seq<nat>, t: seq<nat>, i: nat)
    requires IsGreedy(r, queue, 0, taken, s) && IsGreedy(r, queue, 0, taken, t) && SameBelow(s, t, i)
    ensures i in s ==> i in t
  {
    if i in s {
      var x :| 0 <= x < |s| && s[x] == i;
      forall y | 0 <= y < |t| && t[y] < i ensures !Overlap(queue[t[y]], queue[i]) {
        assert t[y] in s;
        var z :| 0 <= z < |s| && s[z] == t[y];
        assert z < x;
      }
    }
  }

  lemma {:induction false} FormIsPicks(r: Repo, queue: seq<Item>, k: nat, taken: set<Label>)
    requires k <= |queue|
    ensures |Form(r, queue[k..], taken)| == |Picks(r, queue, k, taken)|
    ensures forall x :: 0 <= x < |Picks(r, queue, k, taken)| ==>
      k <= Picks(r, queue, k, taken)[x] < |queue| && Form(r, queue[k..], taken)[x] == queue[Picks(r, queue, k, taken)[x]]
    decreases |queue| - k
  {
    if k < |queue| {
      assert queue[k..][1..] == queue[k + 1..];
      FormIsPicks(r, queue, k + 1, taken);
      FormIsPicks(r, queue, k + 1, taken + TenantLabels(queue[k].labels));
    }
  }

  /** `_form_omm_group` returns the queue's greedy selection, in queue order. */
  lemma FormIsGreedy(r: Repo, queue: seq<Item>, taken: set<Label>)
    ensures var s := Picks(r, queue, 0, taken);
            && IsGreedy(r, queue, 0, taken, s)
            && |Form(r, queue, taken)| == |s|
            && (forall x :: 0 <= x < |s| ==> Form(r, queue, taken)[x] == queue[s[x]])
  {
    PicksAreGreedy(r, queue, 0, taken);
    FormIsPicks(r, queue, 0, taken);
    assert queue[0..] == queue;
  }

  // --- Disjoint groups ------------------------------------------------------------------

  ghost predicate IsMember(r: Repo, i: Iid) {
    Matches(r, i, Opened, OmmPending)
  }

  /** The lead and all open pending MRs have pairwise disjoint tenant labels. */
  ghost predicate DisjointGroup(r: Repo, lead: Iid) {
    && (forall i :: IsMember(r, i) ==> TenantsOf(r, i) * TenantsOf(r, lead) == {})
    && (forall i, j :: IsMember(r, i) && IsMember(r, j) && i != j ==> TenantsOf(r, i) * TenantsOf(r, j) == {})
  }

  lemma {:induction false} KeepDisjoint(r: Repo, ids: seq<Iid>, seen: set<Label>)
    requires NoDup(ids)
    ensures forall i :: i in Keep(r, ids, seen) ==> i in ids && TenantsOf(r, i) * seen == {}
    ensures forall i, j :: i in Keep(r, ids, seen) && j in Keep(r, ids, seen) && i != j ==> TenantsOf(r, i) * TenantsOf(r, j) == {}
    decreases |ids|
  {
    if ids != [] {
      var mine := TenantsOf(r, ids[0]);
      if mine * seen != {} {
        KeepDisjoint(r, ids[1..], seen);
      } else {
        KeepDisjoint(r, ids[1..], seen + mine);
        var rest := Keep(r, ids[1..], seen + mine);
        assert Keep(r, ids, seen) == [ids[0]] + rest;
        forall i | i in rest ensures TenantsOf(r, i) * seen == {} && TenantsOf(r, i) * mine == {} && mine * TenantsOf(r, i) == {} {
          Apart(TenantsOf(r, i), seen, mine);
        }
      }
    }
  }

  lemma {:induction false} InAllTenants(r: Repo, ids: seq<Iid>, i: Iid)
    requires i in ids
    ensures TenantsOf(r, i) <= AllTenants(r, ids)
  {
    if i != ids[0] { InAllTenants(r, ids[1..], i); }
  }

  ghost predicate PairwiseApart(f: seq<Item>) {
    forall x, y :: 0 <= x < y < |f| ==> !Overlap(f[x], f[y])
  }

  lemma {:induction false} FormPairwise(r: Repo, queue: seq<Item>, taken: set<Label>)
    ensures PairwiseApart(Form(r, queue, taken))
    decreases |queue|
  {
    if queue != [] {
      var mine := TenantLabels(queue[0].labels);
      var rest := Form(r, queue[1..], taken + mine);
      FormPairwise(r, queue[1..], taken);
      FormPairwise(r, queue[1..], taken + mine);
      FormPicks(r, queue[1..], taken + mine);
      forall y | 0 <= y < |rest| ensures !Overlap(queue[0], rest[y]) {
        assert rest[y] in rest;
        Apart(TenantLabels(rest[y].labels), taken, mine);
      }
      assert PairwiseApart([queue[0]] + rest);
    }
  }

  /** Clearing, from any labels whatever, leaves no open pending MR. */
  lemma ClearEndsMembership(r: Repo, lead: Option<Iid>, pending: Option<seq<Iid>>)
    requires WellFormed(r) && Covers(r, pending)
    ensures forall i :: !IsMember(Play(r, Clear(r, lead, pending)), i)
  {
    var w := Dethrone(r, lead);
    var r1 := Play(r, w);
    var open := OpenMembers(r1, pending);
    WellFormedPlay(r, w);
    forall i | Matches(r1, i, Opened, OmmPending) ensures i in open {
      NoNewMembers(r, w, i);
      assert i in r1.order;
    }
    UnpendEverywhereResult(r1, open);
    assert Clear(r, lead, pending) == w + UnpendEverywhere(r1, open);
    PlayConcat(r, w, UnpendEverywhere(r1, open));
  }

  /** Queue items carry the tenant labels of their merge requests. */
  ghost predicate TenantsListed(r: Repo, queue: seq<Item>) {
    forall it :: it in queue ==> TenantLabels(it.labels) == TenantsOf(r, it.iid)
  }

  /** What the end of a group pass knows: kept members are apart from the lead and each other. */
  ghost predicate KeptApart(r: Repo, lead: Iid, kept: seq<Iid>) {
    && (forall i :: i in kept ==> TenantsOf(r, i) * TenantsOf(r, lead) == {})
    && (forall i, j :: i in kept && j in kept && i != j ==> TenantsOf(r, i) * TenantsOf(r, j) == {})
  }

  function Pool(r: Repo, lead: Iid, kept: seq<Iid>, queue: seq<Item>): seq<Item> {
    Form(r, Without(queue, kept), TenantsOf(r, lead) + AllTenants(r, kept))
  }

  lemma NewcomersAreItems(r: Repo, lead: Iid, kept: seq<Iid>, queue: seq<Item>, i: Iid) returns (p: Item)
    requires TenantsListed(r, queue) && i in Newcomers(r, lead, kept, queue)
    ensures p in Pool(r, lead, kept, queue) && p.iid == i && TenantLabels(p.labels) == TenantsOf(r, i)
    ensures TenantsOf(r, i) * TenantsOf(r, lead) == {} && AllTenants(r, kept) * TenantsOf(r, i) == {}
  {
    var pool := Without(queue, kept);
    WithoutDrops(queue, kept);
    FormPicks(r, pool, TenantsOf(r, lead) + AllTenants(r, kept));
    IidsFrom(Pool(r, lead, kept, queue));
    p :| p in Pool(r, lead, kept, queue) && p.iid == i;
    Apart(TenantLabels(p.labels), TenantsOf(r, lead), AllTenants(r, kept));
  }

  lemma NewcomerApart(r: Repo, lead: Iid, kept: seq<Iid>, queue: seq<Item>, i: Iid, j: Iid)
    requires TenantsListed(r, queue) && i in Newcomers(r, lead, kept, queue)
    requires i != j && (j in kept || j in Newcomers(r, lead, kept, queue))
    ensures TenantsOf(r, i) * TenantsOf(r, lead) == {}
    ensures TenantsOf(r, i) * TenantsOf(r, j) == {} && TenantsOf(r, j) * TenantsOf(r, i) == {}
  {
    var p := NewcomersAreItems(r, lead, kept, queue, i);
    if j in kept {
      InAllTenants(r, kept, j);
      assert TenantsOf(r, j) * TenantsOf(r, i) <= AllTenants(r, kept) * TenantsOf(r, i);
    } else {
      var q := NewcomersAreItems(r, lead, kept, queue, j);
      FormPairwise(r, Without(queue, kept), TenantsOf(r, lead) + AllTenants(r, kept));
      PairwiseItems(Pool(r, lead, kept, queue), p, q);
    }
    assert TenantsOf(r, j) * TenantsOf(r, i) == TenantsOf(r, i) * TenantsOf(r, j);
  }

  lemma PairwiseItems(f: seq<Item>, p: Item, q: Item)
    requires PairwiseApart(f) && p in f && q in f && p != q
    ensures TenantLabels(p.labels) * TenantLabels(q.labels) == {}
  {
    var x :| 0 <= x < |f| && f[x] == p;
    var y :| 0 <= y < |f| && f[y] == q;
    if y < x {
      assert !Overlap(f[y], f[x]);
      assert TenantLabels(p.labels) * TenantLabels(q.labels) == TenantLabels(q.labels) * TenantLabels(p.labels);
    }
  }

  lemma {:induction false} EnlistIsOwn(a: Answers, cands: seq<Iid>)
    ensures OwnWrites(Enlist(a, cands))
    ensures forall i :: i !in cands ==> AddLabel(i, OmmPending) !in Enlist(a, cands)
  {
    if cands != [] { EnlistIsOwn(a, cands[1..]); }
  }

  /** Enlisting newcomers keeps everyone apart. */
  lemma EnlistDisjoint(r: Repo, lead: Iid, kept: seq<Iid>, queue: seq<Item>, a: Answers)
    requires lead in r.mrs && TenantsListed(r, queue) && KeptApart(r, lead, kept)
    requires forall i :: IsMember(r, i) ==> i in kept
    ensures DisjointGroup(Play(r, Enlist(a, Newcomers(r, lead, kept, queue))), lead)
  {
    var cands := Newcomers(r, lead, kept, queue);
    var r1 := Play(r, Enlist(a, cands));
    EnlistIsOwn(a, cands);
    PlayShell(r, Enlist(a, cands));
    forall i | IsMember(r1, i) ensures i in r.mrs && (i in kept || i in cands) {
      if i !in cands { NoNewMembers(r, Enlist(a, cands), i); }
    }
    forall i | IsMember(r1, i) ensures TenantsOf(r1, i) * TenantsOf(r1, lead) == {} {
      if i in cands { var _ := NewcomersAreItems(r, lead, kept, queue, i); }
    }
    forall i, j | IsMember(r1, i) && IsMember(r1, j) && i != j ensures TenantsOf(r1, i) * TenantsOf(r1, j) == {} {
      if i in cands {
        NewcomerApart(r, lead, kept, queue, i, j);
      } else if j in cands {
        NewcomerApart(r, lead, kept, queue, j, i);
      }
    }
  }

  lemma StandStillDisjoint(r: Repo, lead: Iid, active: bool)
    requires WellFormed(r) && lead in r.mrs && DisjointGroup(r, lead)
    ensures DisjointGroup(Play(r, StandStill(r, lead, false, active)), lead)
  {
    if !active { ClearEndsMembership(r, Some(lead), None); }
  }

  lemma ExpandDisjoint(r: Repo, lead: Iid, kept: seq<Iid>, queue: seq<Item>, a: Answers, c: Config, active: bool)
    requires WellFormed(r) && lead in r.mrs && !c.dry && TenantsListed(r, queue) && KeptApart(r, lead, kept)
    requires forall i :: IsMember(r, i) ==> i in kept
    ensures DisjointGroup(Play(r, Expand(r, lead, kept, queue, a, c, active)), lead)
  {
    var cands := Newcomers(r, lead, kept, queue);
    var w := Enlist(a, cands);
    EnlistDisjoint(r, lead, kept, queue, a);
    EnlistIsOwn(a, cands);
    PlayShell(r, w);
    WellFormedPlay(r, w);
    var waits := active || Retained(a, c.dry, cands) != [];
    StandStillDisjoint(Play(r, w), lead, waits);
    PlayConcat(r, w, StandStill(Play(r, w), lead, false, waits));
  }

  /** Members never touch tenant labels or enlist anybody. */
  lemma {:induction false} MembersAreOwn(r: Repo, ids: seq<Iid>, a: Answers, dry: bool, merges: nat, limit: int)
    ensures OwnWrites(Members(r, ids, a, dry, merges, limit).writes)
    ensures forall i :: AddLabel(i, OmmPending) !in Members(r, ids, a, dry, merges, limit).writes
    decreases |ids|
  {
    if ids != [] {
      var m := Member(r, ids[0], a, dry);
      assert OwnWrites(m.writes) && forall i :: AddLabel(i, OmmPending) !in m.writes;
      MembersAreOwn(Play(r, m.writes), ids[1..], a, dry, if m.merged then merges + 1 else merges, limit);
    }
  }

  lemma {:induction false} UnpendIsOwn(ids: seq<Iid>)
    ensures OwnWrites(Unpend(ids)) && forall i :: AddLabel(i, OmmPending) !in Unpend(ids)
  {
    if ids != [] { UnpendIsOwn(ids[1..]); }
  }

  lemma SameTenants(r: Repo, r': Repo, lead: Iid, kept: seq<Iid>, queue: seq<Item>)
    requires SameShell(r, r') && lead in r.mrs && (forall i :: i in kept ==> i in r.mrs)
    requires KeptApart(r, lead, kept) && TenantsListed(r, queue)
    ensures KeptApart(r', lead, kept) && TenantsListed(r', queue)
  {
    forall i ensures TenantsOf(r', i) == TenantsOf(r, i) {
      assert i in r.mrs <==> i in r'.mrs;
    }
  }

  lemma RunGroupDisjoint(r: Repo, lead: Iid, queue: seq<Item>, a: Answers, c: Config)
    requires WellFormed(r) && lead in r.mrs && !c.dry && TenantsListed(r, queue)
    ensures DisjointGroup(Play(r, RunGroup(r, lead, Listing(r, Opened, OmmPending), queue, a, c).writes), lead)
  {
    var pending := Listing(r, Opened, OmmPending);
    var kept := Keep(r, pending, TenantsOf(r, lead));
    var w1 := Unpend(Overlapping(r, pending, TenantsOf(r, lead)));
    var r1 := Play(r, w1);
    var m := Members(r1, kept, a, false, 0, c.limit);
    var r2 := Play(r1, m.writes);
    AfterEjecting(GROUP_TERMS, r, lead, false);
    SelectNoDup(r, r.order, Opened, OmmPending);
    KeepDisjoint(r, pending, TenantsOf(r, lead));
    UnpendIsOwn(Overlapping(r, pending, TenantsOf(r, lead)));
    MembersAreOwn(r1, kept, a, false, 0, c.limit);
    KeptMidway(r, w1, m.writes, lead, kept, queue);
    var w3 := if m.capped then Close(r2, lead, Some(kept), false) else Expand(r2, lead, kept, queue, a, c, m.active);
    if m.capped {
      ClearEndsMembership(r2, Some(lead), Some(kept));
    } else {
      ExpandDisjoint(r2, lead, kept, queue, a, c, m.active);
    }
    PlayConcat(r1, m.writes, w3);
    PlayConcat(r, w1, m.writes + w3);
  }

  /** Between ejection and expansion the open pending MRs are kept ones, and tenants are as listed. */
  lemma KeptMidway(r: Repo, w1: seq<Write>, w2: seq<Write>, lead: Iid, kept: seq<Iid>, queue: seq<Item>)
    requires WellFormed(r) && lead in r.mrs && TenantsListed(r, queue) && KeptApart(r, lead, kept)
    requires OwnWrites(w1) && OwnWrites(w2) && forall i :: AddLabel(i, OmmPending) !in w2
    requires forall i :: i in kept ==> i in r.mrs
    requires forall i :: IsMember(Play(r, w1), i) ==> i in kept
    ensures var r2 := Play(Play(r, w1), w2);
            && WellFormed(r2) && lead in r2.mrs && TenantsListed(r2, queue) && KeptApart(r2, lead, kept)
            && (forall i :: i in kept ==> i in r2.mrs)
            && (forall i :: IsMember(r2, i) ==> i in kept)
  {
    var r1 := Play(r, w1);
    var r2 := Play(r1, w2);
    WellFormedPlay(r, w1);
    WellFormedPlay(r1, w2);
    PlayShell(r, w1);
    PlayShell(r1, w2);
    SameTenants(r, r1, lead, kept, queue);
    SameTenants(r1, r2, lead, kept, queue);
    forall i | IsMember(r2, i) ensures i in kept { NoNewMembers(r1, w2, i); }
  }

  /** The pass does not stop at a lead whose landing GitLab has not recorded yet. */
  predicate GetsPastLeadSha(r: Repo, lead: Iid, c: Config) {
    !c.windowOpen || !c.ciHealthy || LeadSha(r, lead).Some?
  }

  /** From any starting labels, a group pass that gets past the missing-lead-sha return leaves the
      lead and all open pending MRs with pairwise disjoint tenant labels. */
  lemma GroupPassDisjoint(r: Repo, lead: Iid, queue: seq<Item>, a: Answers, c: Config)
    requires WellFormed(r) && lead in r.mrs && !c.dry && TenantsListed(r, queue) && GetsPastLeadSha(r, lead, c)
    ensures DisjointGroup(Play(r, GroupPass(r, lead, queue, a, c).writes), lead)
  {
    var pending := Listing(r, Opened, OmmPending);
    if !c.windowOpen || !c.ciHealthy || !IsIntact(r, lead, LeadSha(r, lead).value) {
      ClearEndsMembership(r, Some(lead), None);
    } else if pending == [] {
      forall i ensures !IsMember(r, i) {
        assert i in r.mrs ==> i in r.order;
        assert i !in pending;
      }
      ClearEndsMembership(r, Some(lead), Some([]));
    } else {
      RunGroupDisjoint(r, lead, queue, a, c);
    }
  }
}
