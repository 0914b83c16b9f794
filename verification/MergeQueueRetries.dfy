/** Merge passes on an old listing.  An attempt that raises is retried with the listing it started from, so
    the queue may hold MRs that have been relabelled, pushed to or merged since.  What a fresh listing
    is safe from, what an old one can do, and exactly when it does. */
module MergeQueueRetries {
  import opened Common
  import opened GitLabRepo
  import opened MergeQueue
  import opened MergeQueueRules
  import opened MergeQueueLegal
  import opened MergeQueueGroups
  import opened MergeQueueProgress
  import opened MergeQueueRuns
  import opened MergeQueueLandings

  // --- Fresh listings -------------------------------------------------------------------

  /** A pass on a fresh listing lands nobody unfit, and with intact groups it takes no voucher away. */
  lemma FreshListingIsSafe(r: Repo, queue: seq<Item>, c: Config)
    requires WellFormed(r) && LeadsOk(r) && GroupsIntact(r) && IsQueue(r, queue)
    ensures Spoilt(r, queue, c) == {} && VouchersStay(r, queue, c)
  {
    forall it | it in queue ensures Unspoilt(c.rebase, r, it) {
      assert StillListed(r, it);
    }
    if OnGroupPath(r, c) {
      var lead := FindLead(r).value;
      forall l | IsLead(r, l) && LeadSha(r, l).Some? && Head(r, TargetOf(r, l)) != LeadSha(r, l).value
        ensures exists j :: j !in Elems(Joining(r, lead, queue)) && Vouches(r, j, TargetOf(r, l))
      {
        VouchedIsMemberCommit(r, TargetOf(r, l));
        var j :| Vouches(r, j, TargetOf(r, l));
        JoiningAreOpen(r, lead, queue);
        assert j !in Elems(Joining(r, lead, queue));
      }
    }
  }

  lemma JoiningAreOpen(r: Repo, lead: Iid, queue: seq<Item>)
    requires IsQueue(r, queue)
    ensures forall i :: i in Joining(r, lead, queue) ==> i in r.mrs && r.mrs[i].state == Opened
  {
    var kept := Keep(r, Listing(r, Opened, OmmPending), TenantsOf(r, lead));
    NewcomersListed(r, lead, kept, queue);
    forall i | i in Joining(r, lead, queue) ensures i in r.mrs && r.mrs[i].state == Opened {
      var it :| it in queue && it.iid == i;
      assert StillListed(r, it);
    }
  }

  // --- Landing a held MR ----------------------------------------------------------------

  /** An approved, green and rebased MR that has been put on hold. */
  function HeldRepo(): Repo {
    Repo(map[2 := Mr(Opened, {Lgtm, DoNotMergeHold}, 2, "main", [Pipeline(Success, false)], None, None)],
         [2], map["main" := 1], map[0 := {0}, 1 := {0, 1}, 2 := {0, 1, 2}], 3)
  }

  function OldItem(): Item {
    Item(2, {Lgtm}, 2, false)
  }

  lemma OldItemIsSpoilt(c: Config)
    requires c.rebase
    ensures IsListing(HeldRepo(), [OldItem()]) && Spoilt(HeldRepo(), [OldItem()], c) == {2} && !FitToLand(true, HeldRepo(), 2)
  {
    var r, it := HeldRepo(), OldItem();
    assert Lgtm in it.labels && IsApproval(Lgtm) && it.labels * HOLD_LABELS == {} && it.labels * ERROR_LABELS == {};
    assert DoNotMergeHold in (r.mrs[2].labels - it.labels) * (HOLD_LABELS + ERROR_LABELS);
    assert DoNotMergeHold in r.mrs[2].labels * HOLD_LABELS;
    NoGroupThere(r);
    assert it in [it] && !Unspoilt(true, r, it);
  }

  /** On a listing from before the hold, a pass merges it. */
  lemma OldLabelsLand(a: Answers, c: Config)
    requires a.land(2) == Landed(MergeCommit) && c.rebase && !c.dry && c.limit > 0
    ensures var r, queue := HeldRepo(), [OldItem()];
            && IsListing(r, queue) && Spoilt(r, queue, c) == {2}
            && MergePass(r, queue, a, c) == [Land(2, MergeCommit)] && !FitToLand(true, r, 2)
  {
    var r, it := HeldRepo(), OldItem();
    OldItemIsSpoilt(c);
    NoGroupThere(r);
    var ps := r.mrs[2].pipelines;
    assert ps[1..] == [] && NonSkipped(ps) == ps;
    assert CleanUp(r, c) == [] && Play(r, []) == r;
    assert TenantLabels(it.labels) == {};
    assert Serial(r, [it], [it], a, c, 0, {}) == [Land(2, MergeCommit)];
  }

  lemma NoGroupThere(r: Repo)
    requires r == HeldRepo()
    ensures FindLead(r).None? && Listing(r, Opened, OmmPending) == []
  {
    assert r.order[1..] == [];
  }

  // --- Losing the voucher for HEAD ------------------------------------------------------

  lemma {:induction false} NoLandingFrame(r: Repo, ws: seq<Write>)
    requires forall w :: w in ws ==> !w.Land?
    ensures var r' := Play(r, ws);
            && r'.heads == r.heads && r'.mrs.Keys == r.mrs.Keys
            && forall j :: j in r.mrs ==>
                 && r'.mrs[j].state == r.mrs[j].state && r'.mrs[j].target == r.mrs[j].target
                 && r'.mrs[j].mergeSha == r.mrs[j].mergeSha && r'.mrs[j].squashSha == r.mrs[j].squashSha
    decreases |ws|
  {
    if ws != [] {
      assert ws[0] in ws;
      forall w | w in ws[1..] ensures w in ws {}
      assert Do(r, ws[0]).mrs.Keys == r.mrs.Keys;
      NoLandingFrame(Do(r, ws[0]), ws[1..]);
    }
  }

  /** A merged MR that is enlisted ends up without the pending label: GitLab refuses its rebase. */
  lemma {:induction false} EnlistedMergedLeaves(r: Repo, a: Answers, cands: seq<Iid>, j: Iid)
    requires (forall i :: i in cands ==> CanEnlist(r, a, i)) && j in cands && j in r.mrs && r.mrs[j].state == Merged
    ensures !Matches(Play(r, Enlist(a, cands)), j, Merged, OmmPending)
    decreases |cands|
  {
    var c, rest := cands[0], cands[1..];
    var r1 := Play(r, EnlistOne(a, c));
    assert c in cands;
    EnlistOneLegal(GROUP_TERMS, r, a, c, {c});
    forall i | i in rest ensures CanEnlist(r1, a, i) && i in r.mrs && (i != c ==> r1.mrs[i] == r.mrs[i]) {
      assert i in cands && CanEnlist(r, a, i);
      if i != c { PlayLeaves(r, EnlistOne(a, c), i); }
    }
    PlayConcat(r, EnlistOne(a, c), Enlist(a, rest));
    if j in rest {
      EnlistedMergedLeaves(r1, a, rest, j);
    } else {
      PlayThree(r, AddLabel(c, OmmPending), RemoveLabel(c, OmmPending), AddLabel(c, RebaseError));
      EnlistLegal(GROUP_TERMS, r1, a, rest, Elems(rest));
      PlayLeaves(r1, Enlist(a, rest), c);
    }
  }

  lemma OnlyLead(r: Repo, l: Iid, leaving: set<Iid>)
    requires LeadsOk(r) && IsLead(r, l)
    ensures GroupsIntact(r) <==> (LeadSha(r, l).Some? ==> IsIntact(r, l, LeadSha(r, l).value))
    ensures Vouched(r, leaving) <==>
      (LeadSha(r, l).Some? && Head(r, TargetOf(r, l)) != LeadSha(r, l).value ==> exists j :: j !in leaving && Vouches(r, j, TargetOf(r, l)))
  {
  }

  /** The exact condition on enlisting newcomers in an intact group: it stays intact if and only if HEAD is
      the lead's commit or vouched for by a member that is not among them. */
  lemma EnlistIntactIff(r: Repo, l: Iid, a: Answers, cands: seq<Iid>)
    requires WellFormed(r) && LeadsOk(r) && IsLead(r, l) && GroupsIntact(r) && forall i :: i in cands ==> CanEnlist(r, a, i)
    ensures GroupsIntact(Play(r, Enlist(a, cands))) <==> Vouched(r, Elems(cands))
  {
    var ws, r' := Enlist(a, cands), Play(r, Enlist(a, cands));
    EnlistLegal(GROUP_TERMS, r, a, cands, Elems(cands));
    EnlistLandsNothing(a, cands);
    LeadsOkPlay(GROUP_TERMS, r, ws);
    LeadStays(r, ws, l);
    if Vouched(r, Elems(cands)) {
      var t := Terms(true, {}, true);
      EnlistLegal(t, r, a, cands, Elems(cands));
      IntactPlay(t, r, ws);
    } else {
      NoLandingFrame(r, ws);
      OnlyLead(r, l, Elems(cands));
      OnlyLead(r', l, {});
      NoVoucherLeft(r, a, cands, r.mrs[l].target);
    }
  }

  lemma NoVoucherLeft(r: Repo, a: Answers, cands: seq<Iid>, b: Branch)
    requires forall i :: i in cands ==> CanEnlist(r, a, i)
    requires forall j :: Vouches(r, j, b) ==> j in cands
    ensures var r' := Play(r, Enlist(a, cands)); Head(r', b) == Head(r, b) && !IsMemberCommit(r', b, Head(r', b))
  {
    var r' := Play(r, Enlist(a, cands));
    EnlistLandsNothing(a, cands);
    NoLandingFrame(r, Enlist(a, cands));
    EnlistLegal(GROUP_TERMS, r, a, cands, Elems(cands));
    VouchedIsMemberCommit(r', b);
    forall j ensures !Vouches(r', j, b) {
      if Vouches(r', j, b) {
        if j in cands {
          EnlistedMergedLeaves(r, a, cands, j);
        } else {
          PlayLeaves(r, Enlist(a, cands), j);
        }
      }
    }
  }

  /** What the member loop does to the HEAD of `b`: it stays, or a member that landed vouches for it; and
      members that land record new commits. */
  ghost predicate MovedByMembers(r: Repo, r': Repo, ids: seq<Iid>, b: Branch) {
    && (Head(r', b) == Head(r, b) || exists j :: j in ids && Vouches(r', j, b))
    && (forall j :: j in ids ==> j in r'.mrs && RecordsSince(r'.mrs[j], r.next))
  }

  predicate RecordsSince(mr: Mr, next: Sha) {
    (mr.mergeSha.Some? ==> mr.mergeSha.value >= next) && (mr.squashSha.Some? ==> mr.squashSha.value >= next)
  }

  lemma WriteMoves(r: Repo, w: Write, b: Branch)
    requires WellFormed(r) && Matches(r, w.iid, Opened, OmmPending) && (w.Land? ==> w.how != FastForward)
    ensures var r1 := Do(r, w);
            && r.next <= r1.next && w.iid in r1.mrs && RecordsSince(r1.mrs[w.iid], r.next)
            && (Head(r1, b) == Head(r, b) || Vouches(r1, w.iid, b))
  {
  }

  lemma MemberMoves(r: Repo, i: Iid, a: Answers, b: Branch)
    requires WellFormed(r) && Matches(r, i, Opened, OmmPending) && AllRecorded(a)
    ensures var r1 := Play(r, Member(r, i, a, false).writes);
            && WellFormed(r1) && r.next <= r1.next && i in r1.mrs && RecordsSince(r1.mrs[i], r.next)
            && (Head(r1, b) == Head(r, b) || Vouches(r1, i, b))
  {
    var ws := Member(r, i, a, false).writes;
    WellFormedPlay(r, ws);
    MemberShape(r, i, a, false);
    if ws != [] {
      WriteMoves(r, ws[0], b);
      LegalPlaysOne(r, ws);
    }
  }

  lemma LegalPlaysOne(r: Repo, ws: seq<Write>)
    requires |ws| == 1
    ensures Play(r, ws) == Do(r, ws[0])
  {
    assert ws[1..] == [];
  }

  lemma {:induction false} MembersMove(r: Repo, ids: seq<Iid>, a: Answers, merges: nat, limit: int, b: Branch)
    requires WellFormed(r) && NoDup(ids) && (forall i :: i in ids ==> Matches(r, i, Opened, OmmPending)) && AllRecorded(a)
    ensures MovedByMembers(r, Play(r, Members(r, ids, a, false, merges, limit).writes), ids, b)
    decreases |ids|
  {
    if ids != [] {
      var m := Member(r, ids[0], a, false);
      var r1 := Play(r, m.writes);
      var n := if m.merged then merges + 1 else merges;
      FirstMoves(r, ids, a, b);
      if m.merged && merges + 1 >= limit {
        OneMoved(r, r1, ids, b);
      } else {
        var rest := Members(r1, ids[1..], a, false, n, limit).writes;
        MembersMove(r1, ids[1..], a, n, limit, b);
        MembersLegal(GROUP_TERMS, r1, ids[1..], a, false, n, limit);
        PlayLeaves(r1, rest, ids[0]);
        PlayConcat(r, m.writes, rest);
        MovedCons(r, r1, Play(r1, rest), ids, b);
      }
    }
  }

  /** What the first member's step leaves for the others. */
  lemma FirstMoves(r: Repo, ids: seq<Iid>, a: Answers, b: Branch)
    requires WellFormed(r) && NoDup(ids) && ids != [] && (forall i :: i in ids ==> Matches(r, i, Opened, OmmPending)) && AllRecorded(a)
    ensures var r1 := Play(r, Member(r, ids[0], a, false).writes);
            && WellFormed(r1) && r.next <= r1.next && ids[0] in r1.mrs && RecordsSince(r1.mrs[ids[0]], r.next)
            && (Head(r1, b) == Head(r, b) || Vouches(r1, ids[0], b))
            && NoDup(ids[1..]) && ids[0] !in ids[1..]
            && (forall i :: i in ids[1..] ==> Matches(r1, i, Opened, OmmPending))
  {
    assert ids[0] in ids;
    NoDupTail(ids);
    MemberMoves(r, ids[0], a, b);
    MemberLegal(GROUP_TERMS, r, ids[0], a, false);
    forall i | i in ids[1..] ensures Matches(Play(r, Member(r, ids[0], a, false).writes), i, Opened, OmmPending) {
      assert i in ids;
      PlayLeaves(r, Member(r, ids[0], a, false).writes, i);
    }
  }

  lemma OneMoved(r: Repo, r1: Repo, ids: seq<Iid>, b: Branch)
    requires WellFormed(r1) && ids != [] && ids[0] in r1.mrs && RecordsSince(r1.mrs[ids[0]], r.next)
    requires Head(r1, b) == Head(r, b) || Vouches(r1, ids[0], b)
    requires forall i :: i in ids[1..] ==> Matches(r1, i, Opened, OmmPending)
    ensures MovedByMembers(r, r1, ids, b)
  {
    forall j | j in ids ensures j in r1.mrs && RecordsSince(r1.mrs[j], r.next) {
      assert j == ids[0] || j in ids[1..];
    }
    assert ids[0] in ids;
  }

  lemma MovedCons(r: Repo, r1: Repo, r': Repo, ids: seq<Iid>, b: Branch)
    requires ids != [] && ids[0] in r1.mrs && ids[0] in r'.mrs && r'.mrs[ids[0]] == r1.mrs[ids[0]]
    requires r.next <= r1.next && RecordsSince(r1.mrs[ids[0]], r.next)
    requires Head(r1, b) == Head(r, b) || Vouches(r1, ids[0], b)
    requires MovedByMembers(r1, r', ids[1..], b)
    ensures MovedByMembers(r, r', ids, b)
  {
    assert forall j :: j in ids <==> j == ids[0] || j in ids[1..];
    if Head(r', b) == Head(r1, b) {
      assert Head(r1, b) != Head(r, b) ==> ids[0] in ids && Vouches(r', ids[0], b);
    } else {
      var j :| j in ids[1..] && Vouches(r', j, b);
      assert j in ids;
    }
  }

  /** Ejection and members make nobody vouch for a HEAD they do not move. */
  lemma VouchedBefore(r: Repo, out: seq<Iid>, r2: Repo, ws: seq<Write>, kept: seq<Iid>, j: Iid, b: Branch)
    requires WellFormed(r) && b in r.heads && r2 == Play(Play(r, Unpend(out)), ws) && (forall w :: w in ws ==> w.iid in kept)
    requires r2.mrs.Keys == r.mrs.Keys && MovedByMembers(r, r2, kept, b)
    requires Vouches(r2, j, b) && Head(r2, b) == Head(r, b)
    ensures Vouches(r, j, b) && j !in kept
  {
    assert Head(r, b) < r.next;
    PlayUnpend(r, out);
    assert j in r.mrs.Keys;
    PlayLeaves(Play(r, Unpend(out)), ws, j);
  }

  /** The state after the member loop. */
  function MembersDone(r: Repo, lead: Iid, a: Answers, c: Config): Repo {
    var pending := Listing(r, Opened, OmmPending);
    var r1 := Play(r, Unpend(Overlapping(r, pending, TenantsOf(r, lead))));
    Play(r1, Members(r1, Keep(r, pending, TenantsOf(r, lead)), a, false, 0, c.limit).writes)
  }

  /** Once the members are processed, HEAD is vouched for without the newcomers if and only if it was so
      before, or a member's landing has moved it. */
  lemma VouchedMidway(r: Repo, lead: Iid, queue: seq<Item>, a: Answers, c: Config)
    requires WellFormed(r) && LeadsOk(r) && IsLead(r, lead) && IsListing(r, queue) && Plausible(r, a)
    requires !c.dry && AllRecorded(a) && LeadSha(r, lead).Some?
    ensures var r2, b, newcomers := MembersDone(r, lead, a, c), TargetOf(r, lead), Elems(Joining(r, lead, queue));
            Vouched(r2, newcomers) <==> Vouched(r, newcomers) || Head(r2, b) != Head(r, b)
  {
    var kept := Keep(r, Listing(r, Opened, OmmPending), TenantsOf(r, lead));
    var out := Overlapping(r, Listing(r, Opened, OmmPending), TenantsOf(r, lead));
    var r1, r2 := Play(r, Unpend(out)), MembersDone(r, lead, a, c);
    var b, newcomers := TargetOf(r, lead), Elems(Joining(r, lead, queue));
    if Vouched(r, newcomers) { MidGroupVouched(Terms(true, {}, true), r, lead, queue, a, c); }
    MidwayFacts(r, lead, queue, a, c);
    OnlyLead(r, lead, newcomers);
    OnlyLead(r2, lead, newcomers);
    if Vouched(r2, newcomers) && Head(r2, b) == Head(r, b) && Head(r, b) != LeadSha(r, lead).value {
      var j :| j !in newcomers && Vouches(r2, j, b);
      VouchedBefore(r, out, r2, Members(r1, kept, a, false, 0, c.limit).writes, kept, j, b);
    }
  }

  lemma MidwayFacts(r: Repo, lead: Iid, queue: seq<Item>, a: Answers, c: Config)
    requires WellFormed(r) && LeadsOk(r) && IsLead(r, lead) && IsListing(r, queue) && Plausible(r, a)
    requires !c.dry && AllRecorded(a)
    ensures var pending := Listing(r, Opened, OmmPending);
            var kept := Keep(r, pending, TenantsOf(r, lead));
            var r1 := Play(r, Unpend(Overlapping(r, pending, TenantsOf(r, lead))));
            var ws := Members(r1, kept, a, false, 0, c.limit).writes;
            var r2 := Play(r1, ws);
            var b := TargetOf(r, lead);
            && LeadsOk(r2) && IsLead(r2, lead) && TargetOf(r2, lead) == b && LeadSha(r2, lead) == LeadSha(r, lead)
            && r2.mrs.Keys == r.mrs.Keys && (forall w :: w in ws ==> w.iid in kept)
            && MovedByMembers(r, r2, kept, b) && b in r.heads
            && (forall j :: j in kept ==> j !in Elems(Joining(r, lead, queue)))
  {
    var kept := Keep(r, Listing(r, Opened, OmmPending), TenantsOf(r, lead));
    var out := Overlapping(r, Listing(r, Opened, OmmPending), TenantsOf(r, lead));
    MidGroup(GROUP_TERMS, r, lead, queue, a, c);
    AfterEjecting(GROUP_TERMS, r, lead, c.dry);
    UnpendFrame(r, out, lead);
    MembersFrame(r, Play(r, Unpend(out)), lead, kept, a, c.limit);
    NewcomersListed(r, lead, kept, queue);
  }

  lemma UnpendFrame(r: Repo, out: seq<Iid>, lead: Iid)
    requires WellFormed(r) && lead in r.mrs && lead !in out
    ensures var r1 := Play(r, Unpend(out));
            WellFormed(r1) && r1.heads == r.heads && r1.next == r.next && r1.mrs.Keys == r.mrs.Keys && r1.mrs[lead] == r.mrs[lead]
  {
    WellFormedPlay(r, Unpend(out));
    PlayUnpend(r, out);
  }

  lemma MembersFrame(r: Repo, r1: Repo, lead: Iid, kept: seq<Iid>, a: Answers, limit: int)
    requires WellFormed(r1) && r1.heads == r.heads && r1.next == r.next && r1.mrs.Keys == r.mrs.Keys
    requires lead in r.mrs && lead in r1.mrs && r1.mrs[lead] == r.mrs[lead] && r.mrs[lead].state == Merged && AllRecorded(a)
    requires NoDup(kept) && forall i :: i in kept ==> Matches(r1, i, Opened, OmmPending)
    ensures var ws := Members(r1, kept, a, false, 0, limit).writes;
            var r2 := Play(r1, ws);
            && r2.mrs.Keys == r.mrs.Keys && r2.mrs[lead] == r.mrs[lead]
            && (forall w :: w in ws ==> w.iid in kept)
            && MovedByMembers(r, r2, kept, TargetOf(r, lead))
  {
    var ws := Members(r1, kept, a, false, 0, limit).writes;
    MembersLegal(GROUP_TERMS, r1, kept, a, false, 0, limit);
    MembersMove(r1, kept, a, 0, limit, TargetOf(r, lead));
    PlayKeys(r1, ws);
    PlayLeaves(r1, ws, lead);
  }

  /** The exact condition on a whole pass with recorded landings: its group stays intact if and only if the
      pass clears it, or a member's landing moves HEAD, or HEAD is the lead's commit or vouched for by a
      member that is not among those about to join. */
  lemma GroupPassIntactIff(r: Repo, lead: Iid, queue: seq<Item>, a: Answers, c: Config)
    requires WellFormed(r) && LeadsOk(r) && IsLead(r, lead) && GroupsIntact(r) && IsListing(r, queue) && Plausible(r, a)
    requires !c.dry && AllRecorded(a)
    ensures var r' := Play(r, GroupPass(r, lead, queue, a, c).writes);
            var b := TargetOf(r, lead);
            GroupsIntact(r') <==>
              GroupCloses(r, lead, queue, a, c) || Head(r', b) != Head(r, b) || Vouched(r, Elems(Joining(r, lead, queue)))
  {
    GroupPassClosesIff(r, lead, queue, a, c);
    if GroupCloses(r, lead, queue, a, c) {
      NoLabelsNoLeads(Play(r, GroupPass(r, lead, queue, a, c).writes));
    } else if LeadSha(r, lead).Some? {
      OpenGroupIntactIff(r, lead, queue, a, c);
    }
  }

  lemma OpenGroupIntactIff(r: Repo, lead: Iid, queue: seq<Item>, a: Answers, c: Config)
    requires WellFormed(r) && LeadsOk(r) && IsLead(r, lead) && GroupsIntact(r) && IsListing(r, queue) && Plausible(r, a)
    requires !c.dry && AllRecorded(a) && LeadSha(r, lead).Some? && !RunGroupCloses(r, lead, queue, a, c)
    ensures var r' := Play(r, RunGroup(r, lead, Listing(r, Opened, OmmPending), queue, a, c).writes);
            GroupsIntact(r') <==> Head(r', TargetOf(r, lead)) != Head(r, TargetOf(r, lead)) || Vouched(r, Elems(Joining(r, lead, queue)))
  {
    var r2, cands := MembersDone(r, lead, a, c), Joining(r, lead, queue);
    MidGroup(GROUP_TERMS, r, lead, queue, a, c);
    MidwayIntact(r, lead, a, c);
    VouchedMidway(r, lead, queue, a, c);
    NewcomersListed(r, lead, Keep(r, Listing(r, Opened, OmmPending), TenantsOf(r, lead)), queue);
    EnlistIntactIff(r2, lead, a, cands);
    EnlistLandsNothing(a, cands);
    NoLandingFrame(r2, Enlist(a, cands));
    OpenGroupEnds(r, lead, queue, a, c);
  }

  /** A pass that leaves its group open ends by enlisting the newcomers. */
  lemma OpenGroupEnds(r: Repo, lead: Iid, queue: seq<Item>, a: Answers, c: Config)
    requires WellFormed(r) && LeadsOk(r) && IsLead(r, lead) && IsListing(r, queue) && Plausible(r, a)
    requires !c.dry && !RunGroupCloses(r, lead, queue, a, c)
    ensures Play(r, RunGroup(r, lead, Listing(r, Opened, OmmPending), queue, a, c).writes)
      == Play(MembersDone(r, lead, a, c), Enlist(a, Joining(r, lead, queue)))
  {
    var pending := Listing(r, Opened, OmmPending);
    var w1 := Unpend(Overlapping(r, pending, TenantsOf(r, lead)));
    var r1 := Play(r, w1);
    var m := Members(r1, Keep(r, pending, TenantsOf(r, lead)), a, false, 0, c.limit);
    var w3 := Enlist(a, Joining(r, lead, queue));
    MidGroup(GROUP_TERMS, r, lead, queue, a, c);
    assert Expand(Play(r1, m.writes), lead, Keep(r, pending, TenantsOf(r, lead)), queue, a, c, m.active) == w3 + [] == w3;
    PlayConcat(r1, m.writes, w3);
    PlayConcat(r, w1, m.writes + w3);
  }

  /** The member loop keeps groups intact. */
  lemma MidwayIntact(r: Repo, lead: Iid, a: Answers, c: Config)
    requires WellFormed(r) && LeadsOk(r) && GroupsIntact(r) && AllRecorded(a)
    ensures GroupsIntact(MembersDone(r, lead, a, c))
  {
    var t := Terms(true, {}, true);
    var kept := Keep(r, Listing(r, Opened, OmmPending), TenantsOf(r, lead));
    var out := Overlapping(r, Listing(r, Opened, OmmPending), TenantsOf(r, lead));
    var r1 := Play(r, Unpend(out));
    AfterEjecting(t, r, lead, false);
    UnpendLandsNothing(out);
    IntactPlay(t, r, Unpend(out));
    WellFormedPlay(r, Unpend(out));
    LeadsOkPlay(t, r, Unpend(out));
    MembersLegal(t, r1, kept, a, false, 0, c.limit);
    MembersAnswered(r1, kept, a, false, 0, c.limit);
    IntactPlay(t, r1, Members(r1, kept, a, false, 0, c.limit).writes);
  }

  // --- The retry that cancels a healthy group -------------------------------------------

  /** A lead landed as commit 1, a green and rebased member 2, and a member 3 whose pipeline runs. */
  function ThreeMrs(): Repo {
    Repo(map[1 := Mr(Merged, {OmmGroupLead, Tenant("a")}, 0, "main", [], None, Some(1)),
             2 := Mr(Opened, {OmmPending, Lgtm, Tenant("b")}, 2, "main", [Pipeline(Success, false)], None, None),
             3 := Mr(Opened, {OmmPending, Lgtm, Tenant("c")}, 3, "main", [Pipeline(Running, false)], None, None)],
         [1, 2, 3], map["main" := 1], map[0 := {0}, 1 := {0, 1}, 2 := {0, 1, 2}, 3 := {0, 1, 3}], 4)
  }

  function ThreeListed(): seq<Item> {
    [Item(2, {OmmPending, Lgtm, Tenant("b")}, 2, false), Item(3, {OmmPending, Lgtm, Tenant("c")}, 3, false)]
  }

  /** The state after an attempt that has landed member 2 and then raised. */
  function OneLanded(): Repo {
    Do(ThreeMrs(), Land(2, MergeCommit))
  }

  lemma ThreeWereMergeable()
    ensures forall it :: it in ThreeListed() ==> WasMergeable(it)
  {
    var queue := ThreeListed();
    assert Lgtm in queue[0].labels && Lgtm in queue[1].labels && IsApproval(Lgtm);
    forall it | it in queue ensures WasMergeable(it) {
      assert it.labels * HOLD_LABELS == {} && it.labels * ERROR_LABELS == {};
    }
  }

  lemma QueueWasFresh()
    ensures IsQueue(ThreeMrs(), ThreeListed()) && IsListing(OneLanded(), ThreeListed())
  {
    ThreeWereMergeable();
  }

  lemma OneLandedPending()
    ensures Listing(OneLanded(), Opened, OmmPending) == [3] && TenantsOf(OneLanded(), 1) == {Tenant("a")}
    ensures TenantsOf(OneLanded(), 3) == {Tenant("c")}
    ensures Keep(OneLanded(), [3], {Tenant("a")}) == [3] && Overlapping(OneLanded(), [3], {Tenant("a")}) == []
  {
    var r := OneLanded();
    assert r.order == [1, 2, 3] && r.order[1..] == [2, 3] && [2, 3][1..] == [3] && [3][1..] == [];
    assert r.mrs[1] == ThreeMrs().mrs[1] && r.mrs[3] == ThreeMrs().mrs[3];
    assert Select(r, [3], Opened, OmmPending) == [3] && Select(r, [2, 3], Opened, OmmPending) == [3];
    assert TenantLabels(r.mrs[1].labels) == {Tenant("a")} && TenantLabels(r.mrs[3].labels) == {Tenant("c")};
    assert {Tenant("c")} * {Tenant("a")} == {};
  }

  lemma RetryJoins()
    ensures Joining(OneLanded(), 1, ThreeListed()) == [2]
  {
    var r, queue := OneLanded(), ThreeListed();
    OneLandedPending();
    assert queue[1..] == [queue[1]] && queue[1..][1..] == [];
    assert Without(queue, [3]) == [queue[0]];
    assert AllTenants(r, [3]) == {Tenant("c")};
    assert TenantLabels(queue[0].labels) == {Tenant("b")};
    var ps := PipelinesOf(r, 2);
    assert ps == [Pipeline(Success, false)] && ps[1..] == [] && NonSkipped(ps) == ps;
    assert IsCandidate(r, queue[0]);
    var taken := {Tenant("a")} + {Tenant("c")};
    assert TenantLabels(queue[0].labels) * taken == {};
    assert [queue[0]][1..] == [] && Form(r, [queue[0]], taken) == [queue[0]];
    assert Iids([queue[0]]) == [2];
  }

  lemma OneLandedIntact()
    ensures IsIntact(OneLanded(), 1, 1) && Vouches(OneLanded(), 2, "main") && Head(OneLanded(), "main") == 4
    ensures forall j :: Vouches(OneLanded(), j, "main") ==> j in [2]
  {
    var r := OneLanded();
    assert Head(r, "main") == 4 && Vouches(r, 2, "main");
    VouchedIsMemberCommit(r, "main");
  }

  /** GitLab refuses to rebase member 2, and with its label goes the only voucher for HEAD. */
  lemma VoucherLost(a: Answers)
    requires a.rebase(2) == Conflict
    ensures !IsIntact(Play(OneLanded(), EnlistOne(a, 2)), 1, 1)
  {
    var r := OneLanded();
    OneLandedIntact();
    assert [2][1..] == [] && Enlist(a, [2]) == EnlistOne(a, 2) + [] == EnlistOne(a, 2);
    NoVoucherLeft(r, a, [2], "main");
    NoLandingFrame(r, EnlistOne(a, 2));
  }

  /** A rebasing multi-merge pass that is not dry, in an open window with healthy CI. */
  predicate IsActive(c: Config) {
    c.multi && c.rebase && !c.dry && c.windowOpen && c.ciHealthy
  }

  lemma LeadIsOne(r: Repo)
    requires r == ThreeMrs() || r == OneLanded()
    ensures FindLead(r) == Some(1) && LeadSha(r, 1) == Some(1)
  {
    assert r.order == [1, 2, 3] && r.order[1..] == [2, 3];
    assert r.mrs[1] == ThreeMrs().mrs[1];
  }

  lemma ThreePending()
    ensures var r := ThreeMrs();
            && Listing(r, Opened, OmmPending) == [2, 3] && TenantsOf(r, 1) == {Tenant("a")}
            && Keep(r, [2, 3], {Tenant("a")}) == [2, 3] && Overlapping(r, [2, 3], {Tenant("a")}) == []
  {
    var r := ThreeMrs();
    assert r.order[1..] == [2, 3] && [2, 3][1..] == [3] && [3][1..] == [];
    assert Select(r, [3], Opened, OmmPending) == [3] && Select(r, [2, 3], Opened, OmmPending) == [2, 3];
    assert TenantsOf(r, 1) == {Tenant("a")} && TenantsOf(r, 2) == {Tenant("b")} && TenantsOf(r, 3) == {Tenant("c")};
    var seen := {Tenant("a")} + {Tenant("b")};
    assert "c"[0] != "b"[0] && "c"[0] != "a"[0] && Tenant("c") !in seen;
    assert {Tenant("b")} * {Tenant("a")} == {} && TenantsOf(r, 3) * seen == {};
    assert Keep(r, [3], seen) == [3] + Keep(r, [], seen + {Tenant("c")}) && Overlapping(r, [3], seen) == Overlapping(r, [], seen + {Tenant("c")});
  }

  /** The first attempt starts by landing member 2. */
  lemma FirstAttempt(a: Answers, c: Config)
    requires IsActive(c) && a.land(2) == Landed(MergeCommit) && !a.missing(2)
    ensures var ws := MergePass(ThreeMrs(), ThreeListed(), a, c); |ws| > 0 && ws[0] == Land(2, MergeCommit)
  {
    var r, queue := ThreeMrs(), ThreeListed();
    LeadIsOne(r);
    ThreePending();
    MemberTwoLands(a);
    assert Play(r, []) == r;
    var m := Members(r, [2, 3], a, false, 0, c.limit);
    assert [2, 3][0] == 2 && |m.writes| > 0 && m.writes[0] == Land(2, MergeCommit);
    assert IsIntact(r, 1, 1);
    assert MergePass(r, queue, a, c) == RunGroup(r, 1, [2, 3], queue, a, c).writes;
  }

  lemma MemberTwoLands(a: Answers)
    requires a.land(2) == Landed(MergeCommit) && !a.missing(2)
    ensures Member(ThreeMrs(), 2, a, false) == Outcome([Land(2, MergeCommit)], true, false)
  {
    var ps := PipelinesOf(ThreeMrs(), 2);
    assert ps[1..] == [] && Signal(ps) == ps;
    assert LabelsOf(ThreeMrs(), 2) * ERROR_LABELS == {} && LabelsOf(ThreeMrs(), 2) * HOLD_LABELS == {};
  }

  lemma MemberThreeWaits(a: Answers)
    requires !a.missing(3)
    ensures Member(OneLanded(), 3, a, false) == Outcome([], false, true)
  {
    var ps := PipelinesOf(OneLanded(), 3);
    assert OneLanded().mrs[3] == ThreeMrs().mrs[3];
    assert ps[1..] == [] && Signal(ps) == ps;
    assert LabelsOf(OneLanded(), 3) * ERROR_LABELS == {} && LabelsOf(OneLanded(), 3) * HOLD_LABELS == {};
  }

  /** The second one enlists it again. */
  lemma SecondAttempt(a: Answers, c: Config)
    requires IsActive(c) && !a.missing(3)
    ensures MergePass(OneLanded(), ThreeListed(), a, c) == EnlistOne(a, 2)
  {
    var r, queue := OneLanded(), ThreeListed();
    LeadIsOne(r);
    OneLandedPending();
    OneLandedIntact();
    SecondRunGroup(a, c);
    assert MergePass(r, queue, a, c) == RunGroup(r, 1, [3], queue, a, c).writes;
  }

  lemma SecondRunGroup(a: Answers, c: Config)
    requires IsActive(c) && !a.missing(3)
    ensures RunGroup(OneLanded(), 1, [3], ThreeListed(), a, c).writes == EnlistOne(a, 2)
  {
    var r, queue := OneLanded(), ThreeListed();
    OneLandedPending();
    SecondMembers(a, c.limit);
    SecondExpansion(a, c);
    var w1 := Emit(c.dry, Unpend(Overlapping(r, [3], TenantsOf(r, 1))));
    assert w1 == [] && Play(r, w1) == r;
    assert RunGroup(r, 1, [3], queue, a, c).writes == w1 + ([] + EnlistOne(a, 2));
  }

  lemma SecondMembers(a: Answers, limit: int)
    requires !a.missing(3)
    ensures Members(OneLanded(), [3], a, false, 0, limit) == MembersOutcome([], 0, true, false)
  {
    MemberThreeWaits(a);
    assert [3][1..] == [];
  }

  lemma SecondExpansion(a: Answers, c: Config)
    requires IsActive(c)
    ensures Expand(OneLanded(), 1, [3], ThreeListed(), a, c, true) == EnlistOne(a, 2)
  {
    OneLandedPending();
    RetryJoins();
    assert [2][1..] == [] && Enlist(a, [2]) == EnlistOne(a, 2) + [] == EnlistOne(a, 2);
  }

  /** An attempt that has landed member 2 and then raises, and its retry on the same listing. */
  function Retried(a1: Answers, a2: Answers, c: Config): seq<Step> {
    [Pass(ThreeListed(), a1, c, 1), Pass(ThreeListed(), a2, c, 3)]
  }

  lemma FirstRuns(a: Answers, c: Config)
    requires IsActive(c) && a.land(2) == Landed(MergeCommit) && !a.missing(2)
    ensures After(ThreeMrs(), Pass(ThreeListed(), a, c, 1)) == OneLanded()
  {
    FirstAttempt(a, c);
    LegalPlaysOne(ThreeMrs(), [Land(2, MergeCommit)]);
    assert Writes(ThreeMrs(), Pass(ThreeListed(), a, c, 1)) == [Land(2, MergeCommit)];
  }

  lemma SecondRuns(a: Answers, c: Config)
    requires IsActive(c) && a.rebase(2) == Conflict && !a.missing(3)
    ensures After(OneLanded(), Pass(ThreeListed(), a, c, 3)) == Play(OneLanded(), EnlistOne(a, 2))
  {
    SecondAttempt(a, c);
  }

  lemma RunTwo(r: Repo, s: seq<Step>)
    requires |s| == 2
    ensures Run(r, s) == After(After(r, s[0]), s[1])
    ensures PossibleRun(true, r, s) <==> Possible(true, r, s[0]) && Possible(true, After(r, s[0]), s[1])
  {
    var r1, rest := After(r, s[0]), s[1..];
    assert Run(r1, rest) == Run(After(r1, rest[0]), rest[1..]);
    assert PossibleRun(true, r1, rest) <==> Possible(true, r1, rest[0]) && PossibleRun(true, After(r1, rest[0]), rest[1..]);
  }

  lemma RetryIsPossible(a1: Answers, a2: Answers, c: Config)
    requires c.rebase && Plausible(ThreeMrs(), a1) && Plausible(OneLanded(), a2)
    requires After(ThreeMrs(), Pass(ThreeListed(), a1, c, 1)) == OneLanded()
    ensures PossibleRun(true, ThreeMrs(), Retried(a1, a2, c))
  {
    QueueWasFresh();
    RunTwo(ThreeMrs(), Retried(a1, a2, c));
  }

  lemma TwoIsRefused(a: Answers)
    requires Plausible(OneLanded(), a)
    ensures a.rebase(2) == Conflict
  {
    assert OneLanded().mrs[2].state == Merged;
  }

  /** The retry takes the landed member 2 for a newcomer, and the group, intact after the landing, fails the
      integrity check, although nobody else has merged and every landing was recorded. */
  lemma RetryCancels(a1: Answers, a2: Answers, c: Config)
    requires IsActive(c) && a1.land(2) == Landed(MergeCommit) && !a1.missing(2) && !a2.missing(3)
    requires Plausible(ThreeMrs(), a1) && Plausible(OneLanded(), a2)
    ensures var s := Retried(a1, a2, c);
            && IsQueue(ThreeMrs(), ThreeListed()) && PossibleRun(true, ThreeMrs(), s)
            && After(ThreeMrs(), s[0]) == OneLanded() && IsIntact(OneLanded(), 1, 1)
            && Joining(OneLanded(), 1, ThreeListed()) == [2]
            && !IsIntact(Run(ThreeMrs(), s), 1, 1)
  {
    TwoIsRefused(a2);
    FirstRuns(a1, c);
    SecondRuns(a2, c);
    RetryIsPossible(a1, a2, c);
    RunTwo(ThreeMrs(), Retried(a1, a2, c));
    QueueWasFresh();
    RetryJoins();
    OneLandedIntact();
    VoucherLost(a2);
  }

  // --- Old tenant labels ----------------------------------------------------------------

  /** Whoever is enlisted and not refused becomes a member; the others stay what they were. */
  lemma {:induction false} EnlistMembers(r: Repo, a: Answers, cands: seq<Iid>, i: Iid)
    requires NoDup(cands) && forall j :: j in cands ==> CanEnlist(r, a, j) && !IsMember(r, j)
    ensures IsMember(Play(r, Enlist(a, cands)), i) <==> IsMember(r, i) || i in Retained(a, false, cands)
    decreases |cands|
  {
    if cands != [] {
      var c, rest := cands[0], cands[1..];
      var r1 := Play(r, EnlistOne(a, c));
      assert c in cands;
      NoDupTail(cands);
      EnlistOneLegal(GROUP_TERMS, r, a, c, {c});
      EnlistedOrNot(r, a, c, i);
      forall j | j in rest ensures CanEnlist(r1, a, j) && !IsMember(r1, j) {
        PlayLeaves(r, EnlistOne(a, c), j);
      }
      EnlistMembers(r1, a, rest, i);
      PlayConcat(r, EnlistOne(a, c), Enlist(a, rest));
    }
  }

  lemma EnlistedOrNot(r: Repo, a: Answers, c: Iid, i: Iid)
    requires CanEnlist(r, a, c) && !IsMember(r, c)
    ensures IsMember(Play(r, EnlistOne(a, c)), i) <==> IsMember(r, i) || (i == c && a.rebase(c).Accepted?)
  {
    match a.rebase(c)
    case Conflict => PlayThree(r, AddLabel(c, OmmPending), RemoveLabel(c, OmmPending), AddLabel(c, RebaseError));
    case Accepted(moved) => PlayTwo(r, AddLabel(c, OmmPending), Rebase(c, moved));
  }

  /** The tenant labels `ids` carry now are apart from the lead's, the members' and one another's. */
  ghost predicate ApartNow(r: Repo, lead: Iid, ids: seq<Iid>) {
    forall i :: i in ids ==>
      && TenantsOf(r, i) * TenantsOf(r, lead) == {}
      && forall j :: j != i && (IsMember(r, j) || j in ids) ==> TenantsOf(r, i) * TenantsOf(r, j) == {}
  }

  /** The exact condition on newcomers picked by their listed tenant labels: they leave the group disjoint if
      and only if the labels that the retained ones carry now are apart. */
  lemma EnlistDisjointIff(r: Repo, lead: Iid, a: Answers, cands: seq<Iid>)
    requires lead in r.mrs && DisjointGroup(r, lead)
    requires NoDup(cands) && forall j :: j in cands ==> CanEnlist(r, a, j) && !IsMember(r, j)
    ensures DisjointGroup(Play(r, Enlist(a, cands)), lead) <==> ApartNow(r, lead, Retained(a, false, cands))
  {
    var r', kept := Play(r, Enlist(a, cands)), Retained(a, false, cands);
    EnlistIsOwn(a, cands);
    PlayShell(r, Enlist(a, cands));
    forall i ensures TenantsOf(r', i) == TenantsOf(r, i) && (IsMember(r', i) <==> IsMember(r, i) || i in kept) {
      assert i in r.mrs <==> i in r'.mrs;
      EnlistMembers(r, a, cands, i);
    }
    if DisjointGroup(r', lead) {
      forall i | i in kept ensures IsMember(r', i) {}
    } else {
      forall i, j | IsMember(r', i) && IsMember(r', j) && i != j && ApartNow(r, lead, kept)
        ensures TenantsOf(r', i) * TenantsOf(r', j) == {}
      {
        assert TenantsOf(r, i) * TenantsOf(r, j) == TenantsOf(r, j) * TenantsOf(r, i);
      }
    }
  }

  /** The pass gets as far as looking for newcomers. */
  predicate Expands(r: Repo, lead: Iid, a: Answers, c: Config) {
    var pending := Listing(r, Opened, OmmPending);
    var r1 := Play(r, Unpend(Overlapping(r, pending, TenantsOf(r, lead))));
    && c.windowOpen && c.ciHealthy && LeadSha(r, lead).Some? && IsIntact(r, lead, LeadSha(r, lead).value) && pending != []
    && !Members(r1, Keep(r, pending, TenantsOf(r, lead)), a, false, 0, c.limit).capped
  }

  /** After the member loop the members left are kept ones, apart from the lead and each other. */
  lemma MembersDoneApart(r: Repo, lead: Iid, queue: seq<Item>, a: Answers, c: Config)
    requires WellFormed(r) && lead in r.mrs && IsListing(r, queue) && Plausible(r, a)
    ensures var r2, kept := MembersDone(r, lead, a, c), Keep(r, Listing(r, Opened, OmmPending), TenantsOf(r, lead));
            && WellFormed(r2) && lead in r2.mrs && DisjointGroup(r2, lead) && CanJoin(r2, a, queue, kept)
            && (forall i :: IsMember(r2, i) ==> i in kept) && (forall i :: i in kept ==> i in r2.mrs)
            && Newcomers(r2, lead, kept, queue) == Joining(r, lead, queue)
  {
    var pending := Listing(r, Opened, OmmPending);
    var kept := Keep(r, pending, TenantsOf(r, lead));
    var out := Overlapping(r, pending, TenantsOf(r, lead));
    var r1 := Play(r, Unpend(out));
    var ws := Members(r1, kept, a, false, 0, c.limit).writes;
    AfterEjecting(GROUP_TERMS, r, lead, false);
    SelectNoDup(r, r.order, Opened, OmmPending);
    KeepDisjoint(r, pending, TenantsOf(r, lead));
    UnpendIsOwn(out);
    MembersAreOwn(r1, kept, a, false, 0, c.limit);
    KeptMidway(r, Unpend(out), ws, lead, kept, []);
    MembersLegal(GROUP_TERMS, r1, kept, a, false, 0, c.limit);
    QueueCanJoin(r, queue, a, out, false, kept, ws);
    PlayShell(r, Unpend(out));
    PlayShell(r1, ws);
    NewcomersSame(r, r1, lead, kept, queue);
    NewcomersSame(r1, Play(r1, ws), lead, kept, queue);
  }

  lemma ExpandDisjointIff(r: Repo, lead: Iid, kept: seq<Iid>, queue: seq<Item>, a: Answers, c: Config, active: bool)
    requires WellFormed(r) && lead in r.mrs && !c.dry && DisjointGroup(r, lead) && DistinctItems(queue)
    requires CanJoin(r, a, queue, kept) && forall i :: IsMember(r, i) ==> i in kept
    ensures DisjointGroup(Play(r, Expand(r, lead, kept, queue, a, c, active)), lead)
      <==> ApartNow(r, lead, Retained(a, false, Newcomers(r, lead, kept, queue)))
  {
    var cands := Newcomers(r, lead, kept, queue);
    var w := Enlist(a, cands);
    NewcomersListed(r, lead, kept, queue);
    NewcomersAreNew(r, lead, kept, queue);
    if active || Retained(a, c.dry, cands) != [] {
      assert Expand(r, lead, kept, queue, a, c, active) == w + [] == w;
      EnlistDisjointIff(r, lead, a, cands);
    } else {
      WellFormedPlay(r, w);
      ClearEndsMembership(Play(r, w), Some(lead), None);
      PlayConcat(r, w, Close(Play(r, w), lead, None, false));
    }
  }

  lemma RunGroupDisjointIff(r: Repo, lead: Iid, queue: seq<Item>, a: Answers, c: Config)
    requires WellFormed(r) && lead in r.mrs && !c.dry && IsListing(r, queue) && Plausible(r, a)
    ensures var pending := Listing(r, Opened, OmmPending);
            var kept := Keep(r, pending, TenantsOf(r, lead));
            var m := Members(Play(r, Unpend(Overlapping(r, pending, TenantsOf(r, lead)))), kept, a, false, 0, c.limit);
            var r' := Play(r, RunGroup(r, lead, pending, queue, a, c).writes);
            DisjointGroup(r', lead) <==> m.capped || ApartNow(MembersDone(r, lead, a, c), lead, Retained(a, false, Joining(r, lead, queue)))
  {
    var pending := Listing(r, Opened, OmmPending);
    var kept := Keep(r, pending, TenantsOf(r, lead));
    var w1 := Unpend(Overlapping(r, pending, TenantsOf(r, lead)));
    var r1 := Play(r, w1);
    var m := Members(r1, kept, a, false, 0, c.limit);
    var r2 := MembersDone(r, lead, a, c);
    var w3 := if m.capped then Close(r2, lead, Some(kept), false) else Expand(r2, lead, kept, queue, a, c, m.active);
    MembersDoneApart(r, lead, queue, a, c);
    if m.capped {
      ClearEndsMembership(r2, Some(lead), Some(kept));
    } else {
      ExpandDisjointIff(r2, lead, kept, queue, a, c, m.active);
    }
    PlayConcat(r1, m.writes, w3);
    PlayConcat(r, w1, m.writes + w3);
  }

  /** The exact condition on a completed group pass, from any labels and on any earlier listing: it leaves the
      lead and all open pending MRs with pairwise disjoint tenant labels if and only if it does not get
      as far as looking for newcomers, or the labels that the retained ones carry now are apart. */
  lemma GroupPassDisjointIff(r: Repo, lead: Iid, queue: seq<Item>, a: Answers, c: Config)
    requires WellFormed(r) && lead in r.mrs && !c.dry && GetsPastLeadSha(r, lead, c) && IsListing(r, queue) && Plausible(r, a)
    ensures DisjointGroup(Play(r, GroupPass(r, lead, queue, a, c).writes), lead)
      <==> !Expands(r, lead, a, c) || ApartNow(MembersDone(r, lead, a, c), lead, Retained(a, false, Joining(r, lead, queue)))
  {
    var pending := Listing(r, Opened, OmmPending);
    if !c.windowOpen || !c.ciHealthy || !IsIntact(r, lead, LeadSha(r, lead).value) {
      ClearEndsMembership(r, Some(lead), None);
    } else if pending == [] {
      forall i ensures !IsMember(r, i) {
        assert i in r.mrs ==> i in r.order;
        assert i !in pending;
      }
      ClearEndsMembership(r, Some(lead), Some([]));
    } else {
      RunGroupDisjointIff(r, lead, queue, a, c);
    }
  }

  /** A lead and an MR that was given the lead's tenant label after it had been listed with another one. */
  function RelabelledRepo(): Repo {
    Repo(map[1 := Mr(Merged, {OmmGroupLead, Tenant("a")}, 0, "main", [], None, Some(1)),
             2 := Mr(Opened, {Lgtm, Tenant("a")}, 2, "main", [Pipeline(Success, false)], None, None)],
         [1, 2], map["main" := 1], map[0 := {0}, 1 := {0, 1}, 2 := {0, 1, 2}], 3)
  }

  function RelabelledItem(): Item {
    Item(2, {Lgtm, Tenant("b")}, 2, false)
  }

  lemma RelabelledTenants()
    ensures TenantLabels(RelabelledItem().labels) == {Tenant("b")}
    ensures TenantsOf(RelabelledRepo(), 1) == {Tenant("a")} && TenantsOf(RelabelledRepo(), 2) == {Tenant("a")}
  {
  }

  lemma RelabelledJoins()
    ensures Newcomers(RelabelledRepo(), 1, [], [RelabelledItem()]) == [2]
  {
    var r, it := RelabelledRepo(), RelabelledItem();
    RelabelledTenants();
    var ps := PipelinesOf(r, 2);
    assert ps == [Pipeline(Success, false)] && ps[1..] == [] && NonSkipped(ps) == ps;
    assert Without([it], []) == [it] && [it][1..] == [];
    var taken := TenantsOf(r, 1) + AllTenants(r, []);
    assert "a"[0] != "b"[0] && taken == {Tenant("a")};
    assert TenantLabels(it.labels) * taken == {};
    assert Form(r, [it], taken) == [it] + Form(r, [], taken + TenantLabels(it.labels)) && Iids([it]) == [2] + Iids([]);
  }

  lemma RelabelledListing()
    ensures IsListing(RelabelledRepo(), [RelabelledItem()])
  {
    var it := RelabelledItem();
    assert Lgtm in it.labels && IsApproval(Lgtm) && it.labels * HOLD_LABELS == {} && it.labels * ERROR_LABELS == {};
  }

  /** It joins the group it overlaps. */
  lemma OldTenantsOverlap(a: Answers)
    requires a.rebase(2).Accepted?
    ensures var r, queue := RelabelledRepo(), [RelabelledItem()];
            && IsListing(r, queue) && DisjointGroup(r, 1) && Newcomers(r, 1, [], queue) == [2]
            && !DisjointGroup(Play(r, Enlist(a, [2])), 1)
  {
    var r := RelabelledRepo();
    RelabelledListing();
    RelabelledTenants();
    RelabelledJoins();
    assert r.mrs[2].state == Opened && OmmPending !in r.mrs[2].labels;
    assert [2][1..] == [] && Retained(a, false, [2]) == [2];
    EnlistDisjointIff(r, 1, a, [2]);
    assert 2 in [2] && Tenant("a") in TenantsOf(r, 2) * TenantsOf(r, 1);
  }
}
