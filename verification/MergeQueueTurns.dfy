/** When a group pass acts on a pending member, whom it takes in, and when the group stays open, told by
    labels, pipelines, commits and the number of landings alone. */
module MergeQueueTurns {
  import opened Common
  import opened GitLabRepo
  import opened MergeQueue
  import opened MergeQueueRules
  import opened MergeQueueLegal
  import opened MergeQueueGroups
  import opened MergeQueueProgress
  import opened MergeQueueRuns
  import opened MergeQueueLandings
  import opened MergeQueueRetries
  import opened MergeQueueMembers

  // --- Which members are kept -----------------------------------------------------------

  ghost predicate ShareTenant(xs: set<Label>, ys: set<Label>) {
    exists l :: l in xs && l in ys && l.Tenant?
  }

  /** GitLab lists `j` ahead of `i`. */
  ghost predicate Before(r: Repo, j: Iid, i: Iid) {
    exists p, q :: 0 <= p < q < |r.order| && r.order[p] == j && r.order[q] == i
  }

  /** Open, pending, and without a tenant label of the lead or of a kept MR listed ahead of it. */
  ghost predicate IsApart(r: Repo, lead: Iid, kept: set<Iid>, i: Iid) {
    && IsMember(r, i) && !ShareTenant(LabelsOf(r, lead), LabelsOf(r, i))
    && forall j :: j in kept && Before(r, j, i) ==> !ShareTenant(LabelsOf(r, j), LabelsOf(r, i))
  }

  /** First come, first kept. */
  ghost predicate IsFirstCome(r: Repo, lead: Iid, kept: set<Iid>) {
    forall i :: i in kept <==> IsApart(r, lead, kept, i)
  }

  /** There is always one such set. */
  lemma {:induction false} FirstComeUpTo(r: Repo, lead: Iid, p: nat) returns (kept: set<Iid>)
    requires NoDup(r.order) && p <= |r.order|
    ensures forall i :: i in kept <==> i in r.order[..p] && IsApart(r, lead, kept, i)
  {
    kept := {};
    if p > 0 {
      var i := r.order[p - 1];
      var before := FirstComeUpTo(r, lead, p - 1);
      kept := if IsApart(r, lead, before, i) then before + {i} else before;
      assert forall j :: j in r.order[..p] <==> j in r.order[..p - 1] || j == i;
      forall j | j in r.order[..p] ensures !Before(r, i, j) {
        var x :| 0 <= x < p && r.order[x] == j;
      }
      assert forall j :: j in r.order[..p] ==> (IsApart(r, lead, kept, j) <==> IsApart(r, lead, before, j));
    }
  }

  lemma FirstComeExists(r: Repo, lead: Iid)
    requires WellFormed(r)
    ensures exists kept :: IsFirstCome(r, lead, kept)
  {
    var kept := FirstComeUpTo(r, lead, |r.order|);
    assert r.order[..|r.order|] == r.order;
    assert IsFirstCome(r, lead, kept);
  }

  lemma BeforeIs(r: Repo, p: nat, j: Iid)
    requires NoDup(r.order) && p < |r.order|
    ensures Before(r, j, r.order[p]) <==> j in r.order[..p]
  {
    if Before(r, j, r.order[p]) {
      var x, y :| 0 <= x < y < |r.order| && r.order[x] == j && r.order[y] == r.order[p];
      assert y == p && r.order[..p][x] == j;
    }
    if j in r.order[..p] {
      var x :| 0 <= x < p && r.order[..p][x] == j;
      assert r.order[x] == j;
    }
  }

  /** The tenant labels of the lead and of the kept members among the first `p` MRs. */
  ghost predicate IsSeen(r: Repo, lead: Iid, kept: set<Iid>, p: nat, seen: set<Label>)
    requires p <= |r.order|
  {
    forall l :: l in seen <==> l.Tenant? && (l in LabelsOf(r, lead) || exists j :: j in kept && j in r.order[..p] && l in LabelsOf(r, j))
  }

  lemma SeenNext(r: Repo, lead: Iid, kept: set<Iid>, p: nat, seen: set<Label>)
    requires p < |r.order| && IsSeen(r, lead, kept, p, seen)
    ensures IsSeen(r, lead, kept, p + 1, if r.order[p] in kept then seen + TenantsOf(r, r.order[p]) else seen)
  {
    assert forall j :: j in r.order[..p + 1] <==> j in r.order[..p] || j == r.order[p];
  }

  lemma SeenMeets(r: Repo, lead: Iid, kept: set<Iid>, p: nat, seen: set<Label>, ls: set<Label>)
    requires p <= |r.order| && IsSeen(r, lead, kept, p, seen)
    ensures TenantLabels(ls) * seen != {} <==>
      ShareTenant(LabelsOf(r, lead), ls) || exists j :: j in kept && j in r.order[..p] && ShareTenant(LabelsOf(r, j), ls)
  {
    if l :| l in TenantLabels(ls) * seen {
      if l !in LabelsOf(r, lead) {
        var j :| j in kept && j in r.order[..p] && l in LabelsOf(r, j);
        assert ShareTenant(LabelsOf(r, j), ls);
      }
    }
    if ShareTenant(LabelsOf(r, lead), ls) {
      var l :| l in LabelsOf(r, lead) && l in ls && l.Tenant?;
      assert l in TenantLabels(ls) * seen;
    }
    if j :| j in kept && j in r.order[..p] && ShareTenant(LabelsOf(r, j), ls) {
      var l :| l in LabelsOf(r, j) && l in ls && l.Tenant?;
      assert l in TenantLabels(ls) * seen;
    }
  }

  lemma KeptIffApart(r: Repo, lead: Iid, kept: set<Iid>, p: nat, seen: set<Label>)
    requires NoDup(r.order) && p < |r.order| && IsFirstCome(r, lead, kept) && IsSeen(r, lead, kept, p, seen) && IsMember(r, r.order[p])
    ensures r.order[p] in kept <==> TenantsOf(r, r.order[p]) * seen == {}
  {
    forall j ensures Before(r, j, r.order[p]) <==> j in r.order[..p] { BeforeIs(r, p, j); }
    SeenMeets(r, lead, kept, p, seen, LabelsOf(r, r.order[p]));
  }

  lemma {:induction false} KeepIsFirstCome(r: Repo, lead: Iid, kept: set<Iid>, p: nat, seen: set<Label>)
    requires WellFormed(r) && p <= |r.order| && IsFirstCome(r, lead, kept) && IsSeen(r, lead, kept, p, seen)
    ensures forall i :: i in Keep(r, Select(r, r.order[p..], Opened, OmmPending), seen) <==> i in kept && i in r.order[p..]
    ensures forall i :: i in Overlapping(r, Select(r, r.order[p..], Opened, OmmPending), seen) <==> IsMember(r, i) && i !in kept && i in r.order[p..]
    decreases |r.order| - p
  {
    if p < |r.order| {
      var i := r.order[p];
      var seen' := if i in kept then seen + TenantsOf(r, i) else seen;
      assert r.order[p..][0] == i && r.order[p..][1..] == r.order[p + 1..];
      assert forall j :: j in r.order[p..] <==> j == i || j in r.order[p + 1..];
      assert i !in r.order[p + 1..];
      SeenNext(r, lead, kept, p, seen);
      KeepIsFirstCome(r, lead, kept, p + 1, seen');
      if IsMember(r, i) { KeptIffApart(r, lead, kept, p, seen); }
    }
  }

  ghost predicate InOrder(r: Repo, ids: seq<Iid>) {
    forall j, k :: 0 <= j < k < |ids| ==> Before(r, ids[j], ids[k])
  }

  lemma {:induction false} SelectInOrder(r: Repo, p: nat, st: MrState, l: Label)
    requires p <= |r.order|
    ensures InOrder(r, Select(r, r.order[p..], st, l))
    decreases |r.order| - p
  {
    if p < |r.order| {
      var rest := Select(r, r.order[p + 1..], st, l);
      assert r.order[p..][1..] == r.order[p + 1..];
      SelectInOrder(r, p + 1, st, l);
      forall k | 0 <= k < |rest| ensures Before(r, r.order[p], rest[k]) {
        assert rest[k] in r.order[p + 1..];
        var q :| p < q < |r.order| && r.order[q] == rest[k];
      }
    }
  }

  lemma {:induction false} KeepInOrder(r: Repo, ids: seq<Iid>, seen: set<Label>)
    requires InOrder(r, ids)
    ensures InOrder(r, Keep(r, ids, seen)) && forall i :: i in Keep(r, ids, seen) ==> i in ids
  {
    if ids != [] {
      var rest := ids[1..];
      forall j, k | 0 <= j < k < |rest| ensures Before(r, rest[j], rest[k]) { assert rest[j] == ids[j + 1] && rest[k] == ids[k + 1]; }
      KeepInOrder(r, rest, seen);
      KeepInOrder(r, rest, seen + TenantsOf(r, ids[0]));
      forall i | i in rest ensures Before(r, ids[0], i) {
        var k :| 0 <= k < |rest| && rest[k] == i;
        assert ids[k + 1] == i;
      }
    }
  }

  // --- Turns ----------------------------------------------------------------------------

  /** The kept members listed ahead of `i`. */
  ghost function Ahead(r: Repo, kept: set<Iid>, i: Iid): set<Iid> {
    set j | j in kept && Before(r, j, i)
  }

  /** The state that a pass with these writes has made by the turn of member `i`. */
  ghost function Turn(r: Repo, ws: seq<Write>, kept: set<Iid>, i: Iid): Repo {
    Play(r, About(ws, Ahead(r, kept, i)))
  }

  /** Less than the limit has landed, or nothing, by the turn of member `i`. */
  ghost predicate IsReached(r: Repo, ws: seq<Write>, kept: set<Iid>, i: Iid, limit: int) {
    BelowLimit(About(ws, Ahead(r, kept, i)), limit)
  }

  /** The same history, and the same records of these MRs. */
  ghost predicate Same(r: Repo, r': Repo, ids: set<Iid>) {
    && r'.heads == r.heads && r'.anc == r.anc && r'.next == r.next
    && forall i :: i in ids ==> i in r.mrs && i in r'.mrs && r'.mrs[i] == r.mrs[i]
  }

  lemma {:induction false} SamePlay(r: Repo, r': Repo, ids: set<Iid>, ws: seq<Write>)
    requires Same(r, r', ids) && forall w :: w in ws ==> w.iid in ids
    ensures Same(Play(r, ws), Play(r', ws), ids)
    decreases |ws|
  {
    if ws != [] {
      assert ws[0] in ws;
      SameStep(r, r', ids, ws[0]);
      SamePlay(Do(r, ws[0]), Do(r', ws[0]), ids, ws[1..]);
    }
  }

  lemma SameStep(r: Repo, r': Repo, ids: set<Iid>, w: Write)
    requires Same(r, r', ids) && w.iid in ids
    ensures Same(Do(r, w), Do(r', w), ids)
  {
  }

  lemma {:induction false} RemovalsLeave(r: Repo, ws: seq<Write>, ids: set<Iid>)
    requires forall w :: w in ws ==> w.RemoveLabel? && w.iid !in ids
    requires forall i :: i in ids ==> i in r.mrs
    ensures Same(r, Play(r, ws), ids)
    decreases |ws|
  {
    if ws != [] {
      assert ws[0] in ws;
      RemovalsLeave(Do(r, ws[0]), ws[1..], ids);
    }
  }

  /** Nothing a member is judged by differs. */
  lemma SameView(r: Repo, r': Repo, i: Iid, a: Answers)
    requires Same(r, r', {i})
    ensures IsReady(r', i, a) == IsReady(r, i, a) && IsGreen(r', i, a) == IsGreen(r, i, a) && ContainsHead(r', i) == ContainsHead(r, i)
    ensures Leaves(r', i, a) == Leaves(r, i, a) && IsAwaited(r', i, a) == IsAwaited(r, i, a)
  {
    assert i in {i} && Head(r', r.mrs[i].target) == Head(r, r.mrs[i].target);
    assert forall c :: Reach(r', c) == Reach(r, c);
    assert ContainsHead(r', i) == ContainsHead(r, i);
    assert IsHeldBack(r', i, a) == IsHeldBack(r, i, a);
    assert forall statuses :: Shows(r', i, statuses) == Shows(r, i, statuses);
  }

  // --- The parts of a pass --------------------------------------------------------------

  function KeptIds(r: Repo, lead: Iid): seq<Iid> {
    Keep(r, Listing(r, Opened, OmmPending), TenantsOf(r, lead))
  }

  function Ejecting(r: Repo, lead: Iid): seq<Write> {
    Unpend(Overlapping(r, Listing(r, Opened, OmmPending), TenantsOf(r, lead)))
  }

  function Loop(r: Repo, lead: Iid, a: Answers, c: Config): MembersOutcome {
    Members(Play(r, Ejecting(r, lead)), KeptIds(r, lead), a, false, 0, c.limit)
  }

  function Ending(r: Repo, lead: Iid, queue: seq<Item>, a: Answers, c: Config): seq<Write> {
    Rest(MembersDone(r, lead, a, c), lead, KeptIds(r, lead), queue, a, c, Loop(r, lead, a, c))
  }

  lemma KeptIs(r: Repo, lead: Iid, kept: set<Iid>)
    requires WellFormed(r) && IsFirstCome(r, lead, kept)
    ensures NoDup(KeptIds(r, lead)) && Elems(KeptIds(r, lead)) == kept && InOrder(r, KeptIds(r, lead))
    ensures forall w :: w in Ejecting(r, lead) ==> w.RemoveLabel? && w.tag == OmmPending && w.iid !in kept
    ensures forall i :: RemoveLabel(i, OmmPending) in Ejecting(r, lead) <==> IsMember(r, i) && i !in kept
    ensures forall i :: i in kept ==> i in r.mrs
  {
    assert r.order[0..] == r.order && r.order[..0] == [];
    assert IsSeen(r, lead, kept, 0, TenantsOf(r, lead));
    KeepIsFirstCome(r, lead, kept, 0, TenantsOf(r, lead));
    SelectInOrder(r, 0, Opened, OmmPending);
    KeepInOrder(r, Listing(r, Opened, OmmPending), TenantsOf(r, lead));
    SelectNoDup(r, r.order, Opened, OmmPending);
    KeepSplits(r, Listing(r, Opened, OmmPending), TenantsOf(r, lead));
    UnpendIs(Overlapping(r, Listing(r, Opened, OmmPending), TenantsOf(r, lead)));
  }

  lemma {:induction false} UnpendIs(ids: seq<Iid>)
    ensures forall w :: w in Unpend(ids) ==> w.RemoveLabel? && w.tag == OmmPending && w.iid in ids
    ensures forall i :: RemoveLabel(i, OmmPending) in Unpend(ids) <==> i in ids
  {
    if ids != [] { UnpendIs(ids[1..]); }
  }

  lemma AheadIs(r: Repo, lead: Iid, kept: set<Iid>, k: nat)
    requires WellFormed(r) && IsFirstCome(r, lead, kept) && k < |KeptIds(r, lead)|
    ensures Ahead(r, kept, KeptIds(r, lead)[k]) == Elems(KeptIds(r, lead)[..k])
  {
    var ids := KeptIds(r, lead);
    KeptIs(r, lead, kept);
    forall j | j in kept ensures Before(r, j, ids[k]) <==> j in ids[..k] {
      assert j in Elems(ids);
      var x :| 0 <= x < |ids| && ids[x] == j;
      BeforeIff(r, ids, x, k);
      if x < k { assert ids[..k][x] == j; }
    }
    forall j | j in ids[..k] ensures j in kept { assert j in Elems(ids); }
  }

  lemma BeforeIff(r: Repo, ids: seq<Iid>, x: nat, k: nat)
    requires NoDup(r.order) && InOrder(r, ids) && x < |ids| && k < |ids|
    ensures Before(r, ids[x], ids[k]) <==> x < k
  {
    if x > k { NotBoth(r, ids[k], ids[x]); }
  }

  lemma NotBoth(r: Repo, i: Iid, j: Iid)
    requires NoDup(r.order) && Before(r, i, j)
    ensures !Before(r, j, i)
  {
  }

  /** The history of a known lead commit is on HEAD, and HEAD is that commit or one a pending member was
      merged with. */
  ghost predicate IsUndisturbed(r: Repo, lead: Iid) {
    && lead in r.mrs
    && exists c :: IsCommitOf(r.mrs[lead], c) && (
         var b := r.mrs[lead].target;
         || Head(r, b) == c
         || ((forall d :: d in Reach(r, c) ==> d in Reach(r, Head(r, b)))
             && exists j :: IsMergedMember(r, j, b)))
  }

  /** The merge commit an MR landed with, or else the squash commit. */
  predicate IsCommitOf(mr: Mr, c: Sha) {
    mr.mergeSha == Some(c) || (mr.mergeSha == None && mr.squashSha == Some(c))
  }

  /** A merged pending MR that landed on `b` with its present HEAD. */
  predicate IsMergedMember(r: Repo, j: Iid, b: Branch) {
    && j in r.mrs && r.mrs[j].state == Merged && OmmPending in r.mrs[j].labels && r.mrs[j].target == b
    && (r.mrs[j].mergeSha == Some(Head(r, b)) || r.mrs[j].squashSha == Some(Head(r, b)))
  }

  lemma UndisturbedIs(r: Repo, lead: Iid)
    ensures IsUndisturbed(r, lead) <==> LeadSha(r, lead).Some? && IsIntact(r, lead, LeadSha(r, lead).value)
  {
    if lead in r.mrs {
      var b := r.mrs[lead].target;
      if IsMemberCommit(r, b, Head(r, b)) {
        var j :| j in r.mrs && r.mrs[j].state == Merged && OmmPending in r.mrs[j].labels && r.mrs[j].target == b
          && (r.mrs[j].mergeSha == Some(Head(r, b)) || r.mrs[j].squashSha == Some(Head(r, b)));
        assert IsMergedMember(r, j, b);
      }
      forall c: Sha ensures IsCommitOf(r.mrs[lead], c) <==> LeadSha(r, lead) == Some(c) {}
      if LeadSha(r, lead).Some? { assert IsCommitOf(r.mrs[lead], LeadSha(r, lead).value); }
    }
  }

  /** The pass goes through the members: the window is open, CI is healthy, nobody else has merged, and
      there is a member. */
  ghost predicate GoesThrough(r: Repo, lead: Iid, c: Config) {
    !c.dry && c.windowOpen && c.ciHealthy && IsUndisturbed(r, lead) && exists i :: IsMember(r, i)
  }

  lemma PassParts(r: Repo, lead: Iid, queue: seq<Item>, a: Answers, c: Config)
    requires WellFormed(r) && GoesThrough(r, lead, c)
    ensures GroupPass(r, lead, queue, a, c).writes == Ejecting(r, lead) + (Loop(r, lead, a, c).writes + Ending(r, lead, queue, a, c))
  {
    UndisturbedIs(r, lead);
    JoinedIff(r);
  }

  /** The end of a pass lands nobody, and only takes labels off the kept members. */
  lemma EndingIs(r: Repo, lead: Iid, queue: seq<Item>, a: Answers, c: Config)
    requires !c.dry
    ensures forall w :: w in Ending(r, lead, queue, a, c) ==> !w.Land? && (w.iid in KeptIds(r, lead) ==> w.RemoveLabel?)
  {
    var r2, ids, m := MembersDone(r, lead, a, c), KeptIds(r, lead), Loop(r, lead, a, c);
    var cands := Newcomers(r2, lead, ids, queue);
    ClearLandsNothing(r2, Some(lead), Some(ids));
    EnlistLandsNothing(a, cands);
    EnlistNames(a, cands);
    NewcomersListed(r2, lead, ids, queue);
    ClearLandsNothing(Play(r2, Enlist(a, cands)), Some(lead), None);
  }

  lemma {:induction false} EnlistNames(a: Answers, cands: seq<Iid>)
    ensures forall w :: w in Enlist(a, cands) ==> w.iid in cands
    ensures forall i :: AddLabel(i, OmmPending) in Enlist(a, cands) <==> i in cands
    ensures forall i :: AddLabel(i, MergeError) !in Enlist(a, cands)
  {
    if cands != [] { EnlistNames(a, cands[1..]); }
  }

  /** What a pass writes about some of the kept members: the loop's writes, and removals. */
  lemma AboutPass(r: Repo, lead: Iid, queue: seq<Item>, a: Answers, c: Config, kept: set<Iid>, some: set<Iid>)
    requires WellFormed(r) && GoesThrough(r, lead, c) && IsFirstCome(r, lead, kept) && some <= kept
    ensures var ws, mine, tail := GroupPass(r, lead, queue, a, c).writes, About(Loop(r, lead, a, c).writes, some), About(Ending(r, lead, queue, a, c), some);
            && About(ws, some) == mine + tail && LandsIn(About(ws, some)) == LandsIn(mine)
            && (forall w :: w in tail ==> w.RemoveLabel? && w.iid in some)
  {
    PassParts(r, lead, queue, a, c);
    KeptIs(r, lead, kept);
    EndingIs(r, lead, queue, a, c);
    assert forall i :: i in some ==> i in Elems(KeptIds(r, lead));
    AboutParts(Ejecting(r, lead), Loop(r, lead, a, c).writes, Ending(r, lead, queue, a, c), some);
  }

  lemma AboutParts(w1: seq<Write>, w2: seq<Write>, w3: seq<Write>, some: set<Iid>)
    requires forall w :: w in w1 ==> w.iid !in some
    requires forall w :: w in w3 && w.iid in some ==> w.RemoveLabel?
    ensures About(w1 + (w2 + w3), some) == About(w2, some) + About(w3, some)
    ensures LandsIn(About(w1 + (w2 + w3), some)) == LandsIn(About(w2, some))
    ensures forall w :: w in About(w3, some) ==> w.RemoveLabel? && w.iid in some
  {
    AboutIs(w1, some);
    AboutIs(w3, some);
    AboutConcat(w1, w2 + w3, some);
    AboutConcat(w2, w3, some);
    AboutIs(About(w3, some), some);
    LandsConcat(About(w2, some), About(w3, some));
  }

  /** By its turn a member sees what the loop has made by then. */
  lemma TurnIs(r: Repo, lead: Iid, queue: seq<Item>, a: Answers, c: Config, kept: set<Iid>, k: nat)
    requires WellFormed(r) && GoesThrough(r, lead, c) && IsFirstCome(r, lead, kept) && k < |KeptIds(r, lead)|
    requires var ids := KeptIds(r, lead); About(Loop(r, lead, a, c).writes, Elems(ids[..k])) == Firsts(Play(r, Ejecting(r, lead)), ids, a, k)
    ensures var ws, i := GroupPass(r, lead, queue, a, c).writes, KeptIds(r, lead)[k];
            Same(Midway(Play(r, Ejecting(r, lead)), KeptIds(r, lead), a, k), Turn(r, ws, kept, i), {i})
  {
    var ids, r1 := KeptIds(r, lead), Play(r, Ejecting(r, lead));
    var i, some := ids[k], Elems(ids[..k]);
    var first, tail := Firsts(r1, ids, a, k), About(Ending(r, lead, queue, a, c), some);
    KeptIs(r, lead, kept);
    AheadIs(r, lead, kept, k);
    forall j | j in some ensures j in kept && j != i { assert j in Elems(ids); }
    assert i in Elems(ids);
    AboutPass(r, lead, queue, a, c, kept, some);
    EjectingLeaves(r, lead, kept);
    FirstsAbout(r1, ids, a, k);
    SeenFrom(r, r1, kept, first, tail, i);
  }

  lemma EjectingLeaves(r: Repo, lead: Iid, kept: set<Iid>)
    requires WellFormed(r) && IsFirstCome(r, lead, kept)
    ensures Same(r, Play(r, Ejecting(r, lead)), kept) && AllIn(Play(r, Ejecting(r, lead)), KeptIds(r, lead))
  {
    KeptIs(r, lead, kept);
    RemovalsLeave(r, Ejecting(r, lead), kept);
    forall i | i in KeptIds(r, lead) ensures i in Play(r, Ejecting(r, lead)).mrs { assert i in Elems(KeptIds(r, lead)); }
  }

  lemma SeenFrom(r: Repo, r1: Repo, kept: set<Iid>, first: seq<Write>, tail: seq<Write>, i: Iid)
    requires Same(r, r1, kept) && (forall w :: w in first ==> w.iid in kept)
    requires i in kept && forall w :: w in tail ==> w.RemoveLabel? && w.iid != i
    ensures Same(Play(r1, first), Play(r, first + tail), {i})
  {
    SamePlay(r, r1, kept, first);
    RemovalsLeave(Play(r, first), tail, {i});
    PlayConcat(r, first, tail);
  }

  // --- What a pass does with a member ---------------------------------------------------

  /** What the rules call for at the turn of member `i`, if GitLab shows `t` then: a ready MR is merged, or
      flagged if GitLab refuses; a green one behind HEAD is rebased, if GitLab accepts. */
  ghost predicate ActsBy(t: Repo, i: Iid, a: Answers, ws: seq<Write>) {
    && (forall how :: Land(i, how) in ws <==> IsReady(t, i, a) && a.land(i) == Landed(how))
    && (AddLabel(i, MergeError) in ws <==> IsReady(t, i, a) && a.land(i) == Refused)
    && (forall moved :: Rebase(i, moved) in ws <==> IsGreen(t, i, a) && !ContainsHead(t, i) && a.rebase(i) == Accepted(moved))
    && (Leaves(t, i, a) ==> RemoveLabel(i, OmmPending) in ws)
  }

  lemma MemberActsBy(t: Repo, i: Iid, a: Answers)
    requires i in t.mrs
    ensures ActsBy(t, i, a, Member(t, i, a, false).writes)
  {
    MemberReacts(t, i, a);
    var ws := Member(t, i, a, false).writes;
    if ws != [] { assert ws == [ws[0]]; }
    forall w: Write ensures w in ws <==> ws == [w] {}
  }

  /** Seen from elsewhere in the pass, nothing differs but removals. */
  lemma ActsBySame(t: Repo, t': Repo, i: Iid, a: Answers, ws: seq<Write>, ws': seq<Write>)
    requires ActsBy(t, i, a, ws) && Same(t, t', {i})
    requires forall w: Write :: w.iid == i ==> (w in ws ==> w in ws') && (w in ws' && !w.RemoveLabel? ==> w in ws)
    ensures ActsBy(t', i, a, ws')
  {
    SameView(t, t', i, a);
    forall how ensures Land(i, how).iid == i && (Land(i, how) in ws' <==> Land(i, how) in ws) {}
    forall moved ensures Rebase(i, moved).iid == i && (Rebase(i, moved) in ws' <==> Rebase(i, moved) in ws) {}
    assert AddLabel(i, MergeError).iid == i && RemoveLabel(i, OmmPending).iid == i;
  }

  /** About a kept member the pass writes what the loop does, and removals. */
  lemma WritesAbout(r: Repo, lead: Iid, queue: seq<Item>, a: Answers, c: Config, kept: set<Iid>, i: Iid)
    requires WellFormed(r) && GoesThrough(r, lead, c) && IsFirstCome(r, lead, kept) && i in kept
    ensures var ws, loop := GroupPass(r, lead, queue, a, c).writes, Loop(r, lead, a, c).writes;
            forall w: Write :: w.iid == i ==> (w in loop ==> w in ws) && (w in ws && !w.RemoveLabel? ==> w in loop)
  {
    PassParts(r, lead, queue, a, c);
    KeptIs(r, lead, kept);
    EndingIs(r, lead, queue, a, c);
    assert i in Elems(KeptIds(r, lead));
  }

  /** The loop has got to member `k` below the limit exactly if the pass has. */
  lemma ReachedIs(r: Repo, lead: Iid, queue: seq<Item>, a: Answers, c: Config, kept: set<Iid>, k: nat)
    requires WellFormed(r) && GoesThrough(r, lead, c) && IsFirstCome(r, lead, kept) && k < |KeptIds(r, lead)|
    ensures var ids := KeptIds(r, lead);
            && AllIn(Play(r, Ejecting(r, lead)), ids) && ids[k] in kept
            && (IsReached(r, GroupPass(r, lead, queue, a, c).writes, kept, ids[k], c.limit)
                <==> BelowLimit(About(Loop(r, lead, a, c).writes, Elems(ids[..k])), c.limit))
  {
    var ids := KeptIds(r, lead);
    KeptIs(r, lead, kept);
    EjectingLeaves(r, lead, kept);
    AheadIs(r, lead, kept, k);
    assert ids[k] in Elems(ids);
    AboutPass(r, lead, queue, a, c, kept, Ahead(r, kept, ids[k]));
  }

  /** A pass that goes through the members gives every kept one its turn until the limit is reached.  At its
      turn a member is merged if and only if it is ready and GitLab accepts: no label or missing commit
      holds it back, its newest pipeline with a signal succeeded, and it contains HEAD.  A ready one that
      is refused is flagged, a green one behind HEAD is rebased, and one that is held back, failed or in
      conflict loses the label.  After the limit nothing but labels come off. */
  lemma MemberActs(r: Repo, lead: Iid, queue: seq<Item>, a: Answers, c: Config, kept: set<Iid>, i: Iid)
    requires WellFormed(r) && GoesThrough(r, lead, c) && IsFirstCome(r, lead, kept) && i in kept
    ensures var ws := GroupPass(r, lead, queue, a, c).writes;
            if IsReached(r, ws, kept, i, c.limit) then ActsBy(Turn(r, ws, kept, i), i, a, ws)
            else forall w :: w in ws && w.iid == i ==> w.RemoveLabel?
  {
    var ws, ids, r1 := GroupPass(r, lead, queue, a, c).writes, KeptIds(r, lead), Play(r, Ejecting(r, lead));
    KeptIs(r, lead, kept);
    assert i in Elems(ids);
    var k :| 0 <= k < |ids| && ids[k] == i;
    ReachedIs(r, lead, queue, a, c, kept, k);
    WritesAbout(r, lead, queue, a, c, kept, i);
    if IsReached(r, ws, kept, i, c.limit) {
      LoopReaches(r1, ids, a, c.limit, k);
      TurnIs(r, lead, queue, a, c, kept, k);
      LoopActs(r1, ids, a, c.limit, k);
      ActsBySame(Midway(r1, ids, a, k), Turn(r, ws, kept, i), i, a, Loop(r, lead, a, c).writes, ws);
    } else {
      LoopStops(r1, ids, a, c.limit, k);
    }
  }

  lemma LoopActs(r: Repo, ids: seq<Iid>, a: Answers, limit: int, k: nat)
    requires AllIn(r, ids) && k < |ids|
    requires BelowLimit(About(Members(r, ids, a, false, 0, limit).writes, Elems(ids[..k])), limit)
    ensures ActsBy(Midway(r, ids, a, k), ids[k], a, Members(r, ids, a, false, 0, limit).writes)
  {
    var s, i := Midway(r, ids, a, k), ids[k];
    LoopAt(r, ids, a, limit, k);
    MemberActsBy(s, i, a);
    assert i in {i} && Same(s, s, {i});
    ActsBySame(s, s, i, a, Member(s, i, a, false).writes, Members(r, ids, a, false, 0, limit).writes);
  }

  // --- When the group stays open --------------------------------------------------------

  /** At its turn some kept member is worth waiting for. */
  ghost predicate AnyAwaited(r: Repo, ws: seq<Write>, kept: set<Iid>, a: Answers) {
    exists i :: i in kept && IsAwaited(Turn(r, ws, kept, i), i, a)
  }

  /** Somebody was enlisted, and GitLab accepted the rebase. */
  ghost predicate AnyJoined(ws: seq<Write>, a: Answers) {
    exists i :: AddLabel(i, OmmPending) in ws && a.rebase(i).Accepted?
  }

  /** The limit stops the loop exactly if so many have landed. */
  lemma CappedIff(r: Repo, lead: Iid, queue: seq<Item>, a: Answers, c: Config, kept: set<Iid>)
    requires WellFormed(r) && GoesThrough(r, lead, c) && IsFirstCome(r, lead, kept)
    ensures Loop(r, lead, a, c).capped <==> !BelowLimit(About(GroupPass(r, lead, queue, a, c).writes, kept), c.limit)
    ensures BelowLimit(About(Loop(r, lead, a, c).writes, kept), c.limit) <==> BelowLimit(About(GroupPass(r, lead, queue, a, c).writes, kept), c.limit)
  {
    KeptIs(r, lead, kept);
    EjectingLeaves(r, lead, kept);
    AboutPass(r, lead, queue, a, c, kept, kept);
    LoopEnds(Play(r, Ejecting(r, lead)), KeptIds(r, lead), a, c.limit);
  }

  /** A loop that the limit does not stop is active exactly if somebody was worth waiting for. */
  lemma ActiveIff(r: Repo, lead: Iid, queue: seq<Item>, a: Answers, c: Config, kept: set<Iid>)
    requires WellFormed(r) && GoesThrough(r, lead, c) && IsFirstCome(r, lead, kept) && !Loop(r, lead, a, c).capped
    ensures Loop(r, lead, a, c).active <==> AnyAwaited(r, GroupPass(r, lead, queue, a, c).writes, kept, a)
  {
    var ws, ids, r1 := GroupPass(r, lead, queue, a, c).writes, KeptIds(r, lead), Play(r, Ejecting(r, lead));
    KeptIs(r, lead, kept);
    EjectingLeaves(r, lead, kept);
    CappedIff(r, lead, queue, a, c, kept);
    LoopEnds(r1, ids, a, c.limit);
    forall k | 0 <= k < |ids| ensures IsAwaited(Midway(r1, ids, a, k), ids[k], a) <==> IsAwaited(Turn(r, ws, kept, ids[k]), ids[k], a) {
      AwaitedThen(r, lead, queue, a, c, kept, k);
    }
    AwaitedByIndex(r1, ids, a, r, ws, kept);
  }

  lemma AwaitedThen(r: Repo, lead: Iid, queue: seq<Item>, a: Answers, c: Config, kept: set<Iid>, k: nat)
    requires WellFormed(r) && GoesThrough(r, lead, c) && IsFirstCome(r, lead, kept) && k < |KeptIds(r, lead)|
    requires BelowLimit(About(Loop(r, lead, a, c).writes, kept), c.limit)
    ensures var ws, ids, r1 := GroupPass(r, lead, queue, a, c).writes, KeptIds(r, lead), Play(r, Ejecting(r, lead));
            IsAwaited(Midway(r1, ids, a, k), ids[k], a) <==> IsAwaited(Turn(r, ws, kept, ids[k]), ids[k], a)
  {
    var ids, r1 := KeptIds(r, lead), Play(r, Ejecting(r, lead));
    KeptIs(r, lead, kept);
    EjectingLeaves(r, lead, kept);
    forall j | j in ids[..k] ensures j in kept { assert j in Elems(ids); }
    FewerLand(Loop(r, lead, a, c).writes, Elems(ids[..k]), kept);
    LoopReaches(r1, ids, a, c.limit, k);
    TurnIs(r, lead, queue, a, c, kept, k);
    SameView(Midway(r1, ids, a, k), Turn(r, GroupPass(r, lead, queue, a, c).writes, kept, ids[k]), ids[k], a);
  }

  lemma AwaitedByIndex(r1: Repo, ids: seq<Iid>, a: Answers, r: Repo, ws: seq<Write>, kept: set<Iid>)
    requires Elems(ids) == kept
    requires forall k :: 0 <= k < |ids| ==> (IsAwaited(Midway(r1, ids, a, k), ids[k], a) <==> IsAwaited(Turn(r, ws, kept, ids[k]), ids[k], a))
    ensures SomeAwaited(r1, ids, a, |ids|) <==> AnyAwaited(r, ws, kept, a)
  {
    if SomeAwaited(r1, ids, a, |ids|) {
      var k :| 0 <= k < |ids| && IsAwaited(Midway(r1, ids, a, k), ids[k], a);
      assert ids[k] in Elems(ids);
    }
    if AnyAwaited(r, ws, kept, a) {
      var i :| i in kept && IsAwaited(Turn(r, ws, kept, i), i, a);
      assert i in Elems(ids);
      var k :| 0 <= k < |ids| && ids[k] == i;
    }
  }

  lemma {:induction false} RetainedIs(a: Answers, cands: seq<Iid>)
    ensures Retained(a, false, cands) != [] <==> exists i :: i in cands && a.rebase(i).Accepted?
  {
    if cands != [] {
      RetainedIs(a, cands[1..]);
      assert forall i :: i in cands <==> i == cands[0] || i in cands[1..];
    }
  }

  /** A pass enlists the newcomers, unless the limit stops it. */
  lemma EnlistedAre(r: Repo, lead: Iid, queue: seq<Item>, a: Answers, c: Config)
    requires WellFormed(r) && GoesThrough(r, lead, c)
    ensures var ws, cands := GroupPass(r, lead, queue, a, c).writes, Newcomers(MembersDone(r, lead, a, c), lead, KeptIds(r, lead), queue);
            forall i :: AddLabel(i, OmmPending) in ws <==> !Loop(r, lead, a, c).capped && i in cands
  {
    var r2, ids, m := MembersDone(r, lead, a, c), KeptIds(r, lead), Loop(r, lead, a, c);
    var cands := Newcomers(r2, lead, ids, queue);
    PassParts(r, lead, queue, a, c);
    UnpendIsOwn(Overlapping(r, Listing(r, Opened, OmmPending), TenantsOf(r, lead)));
    MembersAreOwn(Play(r, Ejecting(r, lead)), ids, a, false, 0, c.limit);
    EnlistNames(a, cands);
    ClearLandsNothing(r2, Some(lead), Some(ids));
    ClearLandsNothing(Play(r2, Enlist(a, cands)), Some(lead), None);
  }

  /** The exact condition on a completed group pass: the lead keeps its label if and only if the window is
      open, CI is healthy, and either the commit it landed with is not known yet, or nobody else has
      merged, there is a member, fewer than the limit have landed, and somebody is worth waiting for at
      its turn or has just joined. */
  lemma GroupStaysOpenIff(r: Repo, lead: Iid, queue: seq<Item>, a: Answers, c: Config, kept: set<Iid>)
    requires WellFormed(r) && LeadsOk(r) && IsLead(r, lead) && IsListing(r, queue) && Plausible(r, a) && !c.dry && IsFirstCome(r, lead, kept)
    ensures var ws := GroupPass(r, lead, queue, a, c).writes;
            IsLead(Play(r, ws), lead) <==>
              && c.windowOpen && c.ciHealthy
              && (|| (r.mrs[lead].mergeSha == None && r.mrs[lead].squashSha == None)
                  || (&& IsUndisturbed(r, lead) && (exists i :: IsMember(r, i)) && BelowLimit(About(ws, kept), c.limit)
                      && (AnyAwaited(r, ws, kept, a) || AnyJoined(ws, a))))
  {
    GroupPassClosesIff(r, lead, queue, a, c);
    UndisturbedIs(r, lead);
    JoinedIff(r);
    if GoesThrough(r, lead, c) { RunGroupStaysIff(r, lead, queue, a, c, kept); }
  }

  lemma RunGroupStaysIff(r: Repo, lead: Iid, queue: seq<Item>, a: Answers, c: Config, kept: set<Iid>)
    requires WellFormed(r) && GoesThrough(r, lead, c) && IsFirstCome(r, lead, kept)
    ensures var ws := GroupPass(r, lead, queue, a, c).writes;
            !RunGroupCloses(r, lead, queue, a, c) <==> BelowLimit(About(ws, kept), c.limit) && (AnyAwaited(r, ws, kept, a) || AnyJoined(ws, a))
  {
    CappedIff(r, lead, queue, a, c, kept);
    EnlistedAre(r, lead, queue, a, c);
    RetainedIs(a, Newcomers(MembersDone(r, lead, a, c), lead, KeptIds(r, lead), queue));
    if !Loop(r, lead, a, c).capped { ActiveIff(r, lead, queue, a, c, kept); }
  }

  // --- Who stays a member ---------------------------------------------------------------

  lemma {:induction false} LabelAfter(r: Repo, ws: seq<Write>, i: Iid, l: Label)
    requires i in r.mrs && AddLabel(i, l) !in ws
    ensures i in Play(r, ws).mrs && (l in Play(r, ws).mrs[i].labels <==> l in r.mrs[i].labels && RemoveLabel(i, l) !in ws)
    decreases |ws|
  {
    if ws != [] {
      assert i in Do(r, ws[0]).mrs && forall w :: w in ws <==> w == ws[0] || w in ws[1..];
      LabelAfter(Do(r, ws[0]), ws[1..], i, l);
    }
  }

  /** In a group that stays open a kept member keeps its label if and only if nothing makes it leave at its
      turn: no label or missing commit, no failed pipeline, and no conflict when green but behind. */
  lemma StaysMemberIff(r: Repo, lead: Iid, queue: seq<Item>, a: Answers, c: Config, kept: set<Iid>, i: Iid)
    requires WellFormed(r) && LeadsOk(r) && IsLead(r, lead) && IsListing(r, queue) && Plausible(r, a)
    requires GoesThrough(r, lead, c) && IsFirstCome(r, lead, kept) && i in kept
    ensures var ws := GroupPass(r, lead, queue, a, c).writes;
            var r' := Play(r, ws);
            IsLead(r', lead) ==> i in r'.mrs && (OmmPending in r'.mrs[i].labels <==> !Leaves(Turn(r, ws, kept, i), i, a))
  {
    var ws, r' := GroupPass(r, lead, queue, a, c).writes, Play(r, GroupPass(r, lead, queue, a, c).writes);
    GroupPassClosesIff(r, lead, queue, a, c);
    UndisturbedIs(r, lead);
    JoinedIff(r);
    if IsLead(r', lead) {
      OpenPassRemoves(r, lead, queue, a, c, kept, i);
      LabelAfter(r, ws, i, OmmPending);
    }
  }

  lemma OpenPassRemoves(r: Repo, lead: Iid, queue: seq<Item>, a: Answers, c: Config, kept: set<Iid>, i: Iid)
    requires WellFormed(r) && GoesThrough(r, lead, c) && IsFirstCome(r, lead, kept) && i in kept && !RunGroupCloses(r, lead, queue, a, c)
    ensures var ws := GroupPass(r, lead, queue, a, c).writes;
            && i in r.mrs && OmmPending in r.mrs[i].labels && AddLabel(i, OmmPending) !in ws
            && (RemoveLabel(i, OmmPending) in ws <==> Leaves(Turn(r, ws, kept, i), i, a))
  {
    var ws, r2, ids, m := GroupPass(r, lead, queue, a, c).writes, MembersDone(r, lead, a, c), KeptIds(r, lead), Loop(r, lead, a, c);
    var cands, w := Newcomers(r2, lead, ids, queue), RemoveLabel(i, OmmPending);
    KeptIs(r, lead, kept);
    assert i in Elems(ids) && IsMember(r, i);
    NewcomersListed(r2, lead, ids, queue);
    EnlistedAre(r, lead, queue, a, c);
    PassParts(r, lead, queue, a, c);
    EnlistNames(a, cands);
    assert Ending(r, lead, queue, a, c) == Enlist(a, cands) + [] == Enlist(a, cands);
    assert w in ws <==> w in m.writes;
    LeavesThen(r, lead, queue, a, c, kept, i);
  }

  /** Below the limit the loop takes the label off exactly those that leave. */
  lemma LeavesThen(r: Repo, lead: Iid, queue: seq<Item>, a: Answers, c: Config, kept: set<Iid>, i: Iid)
    requires WellFormed(r) && GoesThrough(r, lead, c) && IsFirstCome(r, lead, kept) && i in kept && !Loop(r, lead, a, c).capped
    ensures RemoveLabel(i, OmmPending) in Loop(r, lead, a, c).writes
      <==> Leaves(Turn(r, GroupPass(r, lead, queue, a, c).writes, kept, i), i, a)
  {
    var ids, r1 := KeptIds(r, lead), Play(r, Ejecting(r, lead));
    KeptIs(r, lead, kept);
    EjectingLeaves(r, lead, kept);
    assert i in Elems(ids);
    var k :| 0 <= k < |ids| && ids[k] == i;
    CappedIff(r, lead, queue, a, c, kept);
    forall j | j in ids[..k] ensures j in kept { assert j in Elems(ids); }
    FewerLand(Loop(r, lead, a, c).writes, Elems(ids[..k]), kept);
    LoopReaches(r1, ids, a, c.limit, k);
    TurnIs(r, lead, queue, a, c, kept, k);
    SameView(Midway(r1, ids, a, k), Turn(r, GroupPass(r, lead, queue, a, c).writes, kept, i), i, a);
    LoopRemoves(r1, ids, a, c.limit, k);
  }

  lemma LoopRemoves(r: Repo, ids: seq<Iid>, a: Answers, limit: int, k: nat)
    requires AllIn(r, ids) && k < |ids|
    requires BelowLimit(About(Members(r, ids, a, false, 0, limit).writes, Elems(ids[..k])), limit)
    ensures RemoveLabel(ids[k], OmmPending) in Members(r, ids, a, false, 0, limit).writes <==> Leaves(Midway(r, ids, a, k), ids[k], a)
  {
    var s, i := Midway(r, ids, a, k), ids[k];
    LoopAt(r, ids, a, limit, k);
    MemberReacts(s, i, a);
    var ws := Member(s, i, a, false).writes;
    if ws != [] { assert ws == [ws[0]]; }
    assert RemoveLabel(i, OmmPending).iid == i && (RemoveLabel(i, OmmPending) in ws <==> ws == [RemoveLabel(i, OmmPending)]);
  }

  // --- Who is taken in ------------------------------------------------------------------

  /** The labels of these MRs. */
  function LabelsOfAll(r: Repo, ids: set<Iid>): set<Label> {
    set i, l | i in ids && l in LabelsOf(r, i) :: l
  }

  /** First come, first chosen: a queue position is chosen if and only if its MR may join, is not `inside`
      already, and shares no tenant label with `taken` or with an earlier choice. */
  ghost predicate IsSelection(r: Repo, queue: seq<Item>, inside: set<Iid>, taken: set<Label>, s: set<nat>) {
    forall k: nat :: k in s <==> k < |queue| && IsFree(r, queue, inside, taken, s, k)
  }

  ghost predicate IsFree(r: Repo, queue: seq<Item>, inside: set<Iid>, taken: set<Label>, s: set<nat>, k: nat)
    requires k < |queue|
  {
    && queue[k].iid !in inside && MayJoin(r, queue[k]) && !ShareTenant(taken, queue[k].labels)
    && forall j: nat :: j in s && j < k ==> !ShareTenant(queue[j].labels, queue[k].labels)
  }

  /** There is always one such choice. */
  lemma {:induction false} SelectionUpTo(r: Repo, queue: seq<Item>, inside: set<Iid>, taken: set<Label>, n: nat) returns (s: set<nat>)
    requires n <= |queue|
    ensures forall k: nat :: k in s <==> k < n && IsFree(r, queue, inside, taken, s, k)
  {
    s := {};
    if n > 0 {
      var before := SelectionUpTo(r, queue, inside, taken, n - 1);
      s := if IsFree(r, queue, inside, taken, before, n - 1) then before + {n - 1} else before;
      assert forall k: nat :: k < n ==> (IsFree(r, queue, inside, taken, s, k) <==> IsFree(r, queue, inside, taken, before, k));
    }
  }

  lemma SelectionExists(r: Repo, queue: seq<Item>, inside: set<Iid>, taken: set<Label>)
    ensures exists s :: IsSelection(r, queue, inside, taken, s)
  {
    var s := SelectionUpTo(r, queue, inside, taken, |queue|);
    assert IsSelection(r, queue, inside, taken, s);
  }

  /** The tenant labels taken before position `k`. */
  ghost predicate IsTaken(queue: seq<Item>, taken: set<Label>, s: set<nat>, k: nat, now: set<Label>) {
    forall l :: l in now <==> l.Tenant? && (l in taken || exists j: nat :: j in s && j < k && j < |queue| && l in queue[j].labels)
  }

  lemma TakenNext(queue: seq<Item>, taken: set<Label>, s: set<nat>, k: nat, now: set<Label>)
    requires k < |queue| && IsTaken(queue, taken, s, k, now)
    ensures IsTaken(queue, taken, s, k + 1, if k in s then now + TenantLabels(queue[k].labels) else now)
  {
  }

  lemma TakenMeets(queue: seq<Item>, taken: set<Label>, s: set<nat>, k: nat, now: set<Label>, ls: set<Label>)
    requires IsTaken(queue, taken, s, k, now)
    ensures TenantLabels(ls) * now != {} <==>
      ShareTenant(taken, ls) || exists j: nat :: j in s && j < k && j < |queue| && ShareTenant(queue[j].labels, ls)
  {
    if l :| l in TenantLabels(ls) * now {
      if l !in taken {
        var j: nat :| j in s && j < k && j < |queue| && l in queue[j].labels;
        assert ShareTenant(queue[j].labels, ls);
      }
    }
    if ShareTenant(taken, ls) {
      var l :| l in taken && l in ls && l.Tenant?;
      assert l in TenantLabels(ls) * now;
    }
    if j: nat :| j in s && j < k && j < |queue| && ShareTenant(queue[j].labels, ls) {
      var l :| l in queue[j].labels && l in ls && l.Tenant?;
      assert l in TenantLabels(ls) * now;
    }
  }

  /** `_form_omm_group` picks the selection. */
  lemma {:induction false} FormIsSelection(r: Repo, queue: seq<Item>, inside: seq<Iid>, taken: set<Label>, s: set<nat>, k: nat, now: set<Label>)
    requires k <= |queue| && IsSelection(r, queue, Elems(inside), taken, s) && IsTaken(queue, taken, s, k, now)
    ensures forall i :: i in Iids(Form(r, Without(queue[k..], inside), now)) <==> exists j: nat :: j in s && k <= j < |queue| && queue[j].iid == i
    decreases |queue| - k
  {
    if k < |queue| {
      var it := queue[k];
      assert queue[k..][0] == it && queue[k..][1..] == queue[k + 1..];
      TakenNext(queue, taken, s, k, now);
      TakenMeets(queue, taken, s, k, now, it.labels);
      CandidateIff(r, it);
      FormIsSelection(r, queue, inside, taken, s, k + 1, if k in s then now + TenantLabels(it.labels) else now);
      FormCons(r, queue[k..], inside, now);
    }
  }

  lemma FormCons(r: Repo, queue: seq<Item>, inside: seq<Iid>, now: set<Label>)
    requires queue != []
    ensures var it, rest := queue[0], Without(queue[1..], inside);
            Iids(Form(r, Without(queue, inside), now)) ==
              if it.iid !in inside && IsCandidate(r, it) && TenantLabels(it.labels) * now == {} then
                [it.iid] + Iids(Form(r, rest, now + TenantLabels(it.labels)))
              else Iids(Form(r, rest, now))
  {
    var it, rest := queue[0], Without(queue[1..], inside);
    if it.iid !in inside {
      assert ([it] + rest)[1..] == rest;
      assert ([it] + Form(r, rest, now + TenantLabels(it.labels)))[1..] == Form(r, rest, now + TenantLabels(it.labels));
    }
  }

  lemma {:induction false} AllTenantsAre(r: Repo, ids: seq<Iid>, l: Label)
    ensures l in AllTenants(r, ids) <==> l.Tenant? && l in LabelsOfAll(r, Elems(ids))
  {
    if ids != [] {
      AllTenantsAre(r, ids[1..], l);
      assert forall i :: i in ids <==> i == ids[0] || i in ids[1..];
      if l in LabelsOfAll(r, Elems(ids)) {
        var i :| i in ids && l in LabelsOf(r, i);
        assert i == ids[0] || i in Elems(ids[1..]);
      }
      assert ids[0] in Elems(ids);
    }
  }

  lemma TakenAtFirst(r: Repo, lead: Iid, ids: seq<Iid>, queue: seq<Item>, s: set<nat>)
    ensures IsTaken(queue, LabelsOfAll(r, Elems(ids) + {lead}), s, 0, TenantsOf(r, lead) + AllTenants(r, ids))
  {
    var all := LabelsOfAll(r, Elems(ids) + {lead});
    forall l ensures l in all <==> l in LabelsOf(r, lead) || l in LabelsOfAll(r, Elems(ids)) {
      if l in all { var i :| i in Elems(ids) + {lead} && l in LabelsOf(r, i); }
    }
    forall l ensures l in TenantsOf(r, lead) + AllTenants(r, ids) <==> l.Tenant? && l in all { AllTenantsAre(r, ids, l); }
  }

  lemma JoiningIs(r: Repo, lead: Iid, queue: seq<Item>, kept: set<Iid>, s: set<nat>)
    requires WellFormed(r) && IsFirstCome(r, lead, kept) && IsSelection(r, queue, kept, LabelsOfAll(r, kept + {lead}), s)
    ensures forall i :: i in Joining(r, lead, queue) <==> exists k: nat :: k in s && k < |queue| && queue[k].iid == i
  {
    var ids := KeptIds(r, lead);
    KeptIs(r, lead, kept);
    TakenAtFirst(r, lead, ids, queue, s);
    assert queue[0..] == queue;
    FormIsSelection(r, queue, ids, LabelsOfAll(r, kept + {lead}), s, 0, TenantsOf(r, lead) + AllTenants(r, ids));
  }

  /** A group pass that goes through its members and is not stopped by the limit enlists exactly the selection
      from its queue: first come, first chosen, apart from lead, members and one another.  An enlisted MR
      that GitLab rebases is rebased; the others get an error flag.  A stopped pass enlists nobody. */
  lemma EnlistedIff(r: Repo, lead: Iid, queue: seq<Item>, a: Answers, c: Config, kept: set<Iid>, s: set<nat>, i: Iid)
    requires WellFormed(r) && LeadsOk(r) && IsLead(r, lead) && IsListing(r, queue) && Plausible(r, a)
    requires GoesThrough(r, lead, c) && IsFirstCome(r, lead, kept) && IsSelection(r, queue, kept, LabelsOfAll(r, kept + {lead}), s)
    ensures var ws := GroupPass(r, lead, queue, a, c).writes;
            var chosen := BelowLimit(About(ws, kept), c.limit) && exists k: nat :: k in s && k < |queue| && queue[k].iid == i;
            && (AddLabel(i, OmmPending) in ws <==> chosen)
            && (i !in kept ==>
                  && (forall moved :: Rebase(i, moved) in ws <==> chosen && a.rebase(i) == Accepted(moved))
                  && (AddLabel(i, RebaseError) in ws <==> chosen && a.rebase(i) == Conflict))
  {
    var r2, ids := MembersDone(r, lead, a, c), KeptIds(r, lead);
    UndisturbedIs(r, lead);
    JoinedIff(r);
    MidGroup(GROUP_TERMS, r, lead, queue, a, c);
    JoiningIs(r, lead, queue, kept, s);
    CappedIff(r, lead, queue, a, c, kept);
    EnlistedAre(r, lead, queue, a, c);
    if i !in kept { OutsiderWrites(r, lead, queue, a, c, kept, i); }
  }

  lemma {:induction false} EnlistAnswers(a: Answers, cands: seq<Iid>, i: Iid)
    ensures forall moved :: Rebase(i, moved) in Enlist(a, cands) <==> i in cands && a.rebase(i) == Accepted(moved)
    ensures AddLabel(i, RebaseError) in Enlist(a, cands) <==> i in cands && a.rebase(i) == Conflict
  {
    if cands != [] { EnlistAnswers(a, cands[1..], i); }
  }

  lemma FromEnding(w1: seq<Write>, w2: seq<Write>, w3: seq<Write>, i: Iid)
    requires (forall w :: w in w1 ==> w.RemoveLabel?) && (forall w :: w in w2 ==> w.iid != i)
    ensures forall w: Write :: w.iid == i && !w.RemoveLabel? ==> (w in w1 + (w2 + w3) <==> w in w3)
  {
  }

  lemma EndingEnlists(r: Repo, lead: Iid, queue: seq<Item>, a: Answers, c: Config)
    requires !c.dry
    ensures var cands := Newcomers(MembersDone(r, lead, a, c), lead, KeptIds(r, lead), queue);
            forall w: Write :: !w.RemoveLabel? ==> (w in Ending(r, lead, queue, a, c) <==> !Loop(r, lead, a, c).capped && w in Enlist(a, cands))
  {
    var r2, ids := MembersDone(r, lead, a, c), KeptIds(r, lead);
    ClearLandsNothing(r2, Some(lead), Some(ids));
    ClearLandsNothing(Play(r2, Enlist(a, Newcomers(r2, lead, ids, queue))), Some(lead), None);
  }

  /** Beyond removals the pass writes about an MR that is not kept only if it enlists it. */
  lemma OutsiderWrites(r: Repo, lead: Iid, queue: seq<Item>, a: Answers, c: Config, kept: set<Iid>, i: Iid)
    requires WellFormed(r) && GoesThrough(r, lead, c) && IsFirstCome(r, lead, kept) && i !in kept
    ensures var ws := GroupPass(r, lead, queue, a, c).writes;
            var chosen := AddLabel(i, OmmPending) in ws;
            && (forall moved :: Rebase(i, moved) in ws <==> chosen && a.rebase(i) == Accepted(moved))
            && (AddLabel(i, RebaseError) in ws <==> chosen && a.rebase(i) == Conflict)
  {
    var ids := KeptIds(r, lead);
    var cands := Newcomers(MembersDone(r, lead, a, c), lead, ids, queue);
    PassParts(r, lead, queue, a, c);
    KeptIs(r, lead, kept);
    EjectingLeaves(r, lead, kept);
    MembersAbout(Play(r, Ejecting(r, lead)), ids, a, 0, c.limit);
    assert i in ids <==> i in Elems(ids);
    FromEnding(Ejecting(r, lead), Loop(r, lead, a, c).writes, Ending(r, lead, queue, a, c), i);
    EndingEnlists(r, lead, queue, a, c);
    EnlistNames(a, cands);
    EnlistAnswers(a, cands, i);
    assert AddLabel(i, OmmPending).iid == i && AddLabel(i, RebaseError).iid == i && forall moved :: Rebase(i, moved).iid == i;
  }

  // --- What a pass reports --------------------------------------------------------------

  lemma {:induction false} MembersCounted(r: Repo, ids: seq<Iid>, a: Answers, merges: nat, limit: int)
    requires forall i :: i in ids ==> i in r.mrs
    ensures Members(r, ids, a, false, merges, limit).merges == merges + LandsIn(Members(r, ids, a, false, merges, limit).writes)
    decreases |ids|
  {
    if ids != [] {
      var m := Member(r, ids[0], a, false);
      var n := if m.merged then merges + 1 else merges;
      assert ids[0] in ids;
      MemberWrites(r, ids[0], a);
      if !(m.merged && merges + 1 >= limit) {
        PlayKeys(r, m.writes);
        forall i | i in ids[1..] ensures i in Play(r, m.writes).mrs { assert i in ids && i in r.mrs.Keys; }
        MembersCounted(Play(r, m.writes), ids[1..], a, n, limit);
        LandsConcat(m.writes, Members(Play(r, m.writes), ids[1..], a, false, n, limit).writes);
      }
    }
  }

  lemma NothingLands(ws: seq<Write>)
    requires forall w :: w in ws ==> !w.Land?
    ensures LandsIn(ws) == 0
  {
    AboutIs(ws, {});
  }

  /** A group pass that is not dry reports as many merges as it has made. */
  lemma GroupMergesAre(r: Repo, lead: Iid, queue: seq<Item>, a: Answers, c: Config)
    requires WellFormed(r) && !c.dry
    ensures GroupPass(r, lead, queue, a, c).merges == LandsIn(GroupPass(r, lead, queue, a, c).writes)
  {
    UndisturbedIs(r, lead);
    JoinedIff(r);
    ClearLandsNothing(r, Some(lead), None);
    ClearLandsNothing(r, Some(lead), Some([]));
    if GoesThrough(r, lead, c) { RunGroupMerges(r, lead, queue, a, c); } else { NothingLands(GroupPass(r, lead, queue, a, c).writes); }
  }

  lemma RunGroupMerges(r: Repo, lead: Iid, queue: seq<Item>, a: Answers, c: Config)
    requires WellFormed(r) && GoesThrough(r, lead, c)
    ensures GroupPass(r, lead, queue, a, c).merges == LandsIn(GroupPass(r, lead, queue, a, c).writes)
  {
    var w1, m, w3 := Ejecting(r, lead), Loop(r, lead, a, c), Ending(r, lead, queue, a, c);
    PassParts(r, lead, queue, a, c);
    UndisturbedIs(r, lead);
    AfterEjecting(GROUP_TERMS, r, lead, false);
    MembersCounted(Play(r, w1), KeptIds(r, lead), a, 0, c.limit);
    UnpendLandsNothing(Overlapping(r, Listing(r, Opened, OmmPending), TenantsOf(r, lead)));
    EndingIs(r, lead, queue, a, c);
    NothingLands(w1);
    NothingLands(w3);
    LandsConcat(m.writes, w3);
    LandsConcat(w1, m.writes + w3);
  }

  ghost function ReadyNow(r: Repo, a: Answers): Iid -> bool {
    (i: Iid) => IsReady(r, i, a)
  }

  ghost function CountIn(ids: seq<Iid>, p: Iid -> bool): nat {
    if ids == [] then 0 else (if p(ids[0]) then 1 else 0) + CountIn(ids[1..], p)
  }

  ghost function Those(ids: set<Iid>, p: Iid -> bool): set<Iid> {
    set i | i in ids && p(i)
  }

  lemma {:induction false} CountIs(ids: seq<Iid>, p: Iid -> bool)
    requires NoDup(ids)
    ensures CountIn(ids, p) == |Those(Elems(ids), p)|
  {
    if ids == [] {
      assert Those(Elems(ids), p) == {};
    } else {
      NoDupTail(ids);
      CountIs(ids[1..], p);
      assert Elems(ids) == Elems(ids[1..]) + {ids[0]};
      assert Those(Elems(ids), p) == Those(Elems(ids[1..]), p) + if p(ids[0]) then {ids[0]} else {};
    }
  }

  /** So many more, but once one has been counted no more than the limit. */
  function CountUpTo(merges: nat, n: nat, limit: int): nat {
    if n == 0 then merges else if merges + n < limit then merges + n else if merges + 1 < limit then limit else merges + 1
  }

  lemma DryMemberIs(r: Repo, i: Iid, a: Answers)
    requires i in r.mrs
    ensures Member(r, i, a, true).merged <==> IsReady(r, i, a)
    ensures Member(r, i, a, true).writes == []
  {
    ShownIs(r, i, a);
  }

  lemma {:induction false} DryMembersCounted(r: Repo, ids: seq<Iid>, a: Answers, merges: nat, limit: int)
    requires forall i :: i in ids ==> i in r.mrs
    ensures Members(r, ids, a, true, merges, limit).merges == CountUpTo(merges, CountIn(ids, ReadyNow(r, a)), limit)
    decreases |ids|
  {
    if ids != [] {
      var m := Member(r, ids[0], a, true);
      assert ids[0] in ids;
      DryMemberIs(r, ids[0], a);
      if !(m.merged && merges + 1 >= limit) { DryMembersCounted(r, ids[1..], a, if m.merged then merges + 1 else merges, limit); }
    }
  }

  /** A dry group pass reports all kept members that are ready now, up to the limit - and the first one whatever
      the limit is - although a real one would land them one by one, each moving HEAD under the others. */
  lemma DryGroupMergesAre(r: Repo, lead: Iid, queue: seq<Item>, a: Answers, c: Config, kept: set<Iid>)
    requires WellFormed(r) && c.dry && IsFirstCome(r, lead, kept)
    ensures GroupPass(r, lead, queue, a, c).merges ==
      if GoesThrough(r, lead, c.(dry := false)) then CountUpTo(0, |Those(kept, ReadyNow(r, a))|, c.limit) else 0
  {
    UndisturbedIs(r, lead);
    JoinedIff(r);
    if GoesThrough(r, lead, c.(dry := false)) {
      ReadyKept(r, lead, a, kept);
      DryMembersCounted(r, KeptIds(r, lead), a, 0, c.limit);
    }
  }

  lemma ReadyKept(r: Repo, lead: Iid, a: Answers, kept: set<Iid>)
    requires WellFormed(r) && IsFirstCome(r, lead, kept)
    ensures forall i :: i in KeptIds(r, lead) ==> i in r.mrs
    ensures CountIn(KeptIds(r, lead), ReadyNow(r, a)) == |Those(kept, ReadyNow(r, a))|
  {
    var ids := KeptIds(r, lead);
    KeptIs(r, lead, kept);
    forall i | i in ids ensures i in r.mrs { assert i in Elems(ids); }
    CountIs(ids, ReadyNow(r, a));
  }
}
