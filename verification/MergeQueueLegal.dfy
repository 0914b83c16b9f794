/** Every write of every merge pass obeys the rule of module MergeQueueRules. */
module MergeQueueLegal {
  import opened Common
  import opened GitLabRepo
  import opened MergeQueue
  import opened MergeQueueRules

  // --- What legal writes preserve -------------------------------------------------------

  lemma LeadsOkStep(t: Terms, r: Repo, w: Write)
    requires LeadsOk(r) && Legal(t, r, w)
    ensures LeadsOk(Do(r, w))
  {
    var r' := Do(r, w);
    forall i | IsLead(r', i) ensures r'.mrs[i].state == Merged && (IsLead(r, i) || w == AddLabel(i, OmmGroupLead)) {
      assert IsLead(r, i) || w == AddLabel(i, OmmGroupLead);
    }
    forall i, j | IsLead(r', i) && IsLead(r', j) ensures i == j {
    }
  }

  lemma {:induction false} LeadsOkPlay(t: Terms, r: Repo, ws: seq<Write>)
    requires LeadsOk(r) && AllLegal(t, r, ws)
    ensures LeadsOk(Play(r, ws))
    decreases |ws|
  {
    if ws != [] {
      assert Rule(t)(r, ws[0]);
      LeadsOkStep(t, r, ws[0]);
      LeadsOkPlay(t, Do(r, ws[0]), ws[1..]);
    }
  }

  lemma {:induction false} LeadStays(r: Repo, ws: seq<Write>, lead: Iid)
    requires IsLead(r, lead) && RemoveLabel(lead, OmmGroupLead) !in ws
    ensures IsLead(Play(r, ws), lead)
    decreases |ws|
  {
    if ws != [] {
      assert ws[0] in ws && IsLead(Do(r, ws[0]), lead);
      LeadStays(Do(r, ws[0]), ws[1..], lead);
    }
  }

  /** Without enlisting, no MR becomes an open pending one. */
  lemma {:induction false} NoNewMembers(r: Repo, ws: seq<Write>, i: Iid)
    requires Matches(Play(r, ws), i, Opened, OmmPending)
    requires forall w :: w in ws ==> w != AddLabel(i, OmmPending)
    ensures Matches(r, i, Opened, OmmPending)
    decreases |ws|
  {
    if ws != [] {
      forall w | w in ws[1..] ensures w in ws {}
      NoNewMembers(Do(r, ws[0]), ws[1..], i);
      assert ws[0] in ws;
    }
  }

  /** The terms of every group pass. */
  const GROUP_TERMS := Terms(true, {}, false)

  lemma LegalOne(t: Terms, r: Repo, w: Write)
    requires Legal(t, r, w)
    ensures AllLegal(t, r, [w]) && Play(r, [w]) == Do(r, w)
  {
    assert Rule(t)(r, w);
    assert [w][1..] == [];
  }

  /** HEADs stay vouched for when members outside `leaving` land with a recorded commit and merged ones
      keep their label. */
  lemma VouchedStep(t: Terms, r: Repo, w: Write, leaving: set<Iid>)
    requires t.on && LeadsOk(r) && Legal(t, r, w) && Vouched(r, leaving)
    requires w.Land? ==> w.iid !in leaving && w.how != FastForward
    requires w == RemoveLabel(w.iid, OmmPending) && r.mrs[w.iid].state == Merged ==> w.iid in leaving
    ensures Vouched(Do(r, w), leaving)
  {
    var r' := Do(r, w);
    forall l | IsLead(r', l) && LeadSha(r', l).Some? && Head(r', TargetOf(r', l)) != LeadSha(r', l).value
      ensures exists j :: j !in leaving && Vouches(r', j, TargetOf(r', l))
    {
      var b := TargetOf(r', l);
      if w != AddLabel(l, OmmGroupLead) {
        assert IsLead(r, l) && b == TargetOf(r, l);
        if w.Land? && r.mrs[w.iid].target == b {
          assert Vouches(r', w.iid, b);
        } else {
          var j :| j !in leaving && Vouches(r, j, b);
          assert Vouches(r', j, b);
        }
      }
    }
  }

  // --- Enlisting ------------------------------------------------------------------------

  /** GitLab knows the MR, and rebases it only if it is open. */
  predicate CanEnlist(r: Repo, a: Answers, i: Iid) {
    i in r.mrs && (a.rebase(i).Accepted? ==> r.mrs[i].state == Opened)
  }

  /** Whoever of `leaving` is merged may lose the pending label without harm. */
  ghost predicate MayLeave(t: Terms, r: Repo, leaving: set<Iid>) {
    t.keep ==> t.on && LeadsOk(r) && Vouched(r, leaving)
  }

  lemma MayLeaveStep(t: Terms, r: Repo, w: Write, leaving: set<Iid>)
    requires MayLeave(t, r, leaving) && Legal(t, r, w) && !w.Land? && w.iid in leaving
    ensures MayLeave(t, Do(r, w), leaving)
  {
    if t.keep {
      LeadsOkStep(t, r, w);
      VouchedStep(t, r, w, leaving);
    }
  }

  lemma UnpendOneLegal(t: Terms, r: Repo, i: Iid, leaving: set<Iid>)
    requires i in r.mrs && i in leaving && MayLeave(t, r, leaving)
    ensures Legal(t, r, RemoveLabel(i, OmmPending))
  {
    if t.keep {
      forall l | IsLead(r, l) && LeadSha(r, l).Some? && Head(r, TargetOf(r, l)) != LeadSha(r, l).value
        ensures exists j :: j !in {i} && Vouches(r, j, TargetOf(r, l))
      {
        var j :| j !in leaving && Vouches(r, j, TargetOf(r, l));
        assert j !in {i};
      }
    }
  }

  lemma EnlistOneLegal(t: Terms, r: Repo, a: Answers, i: Iid, leaving: set<Iid>)
    requires CanEnlist(r, a, i) && i in leaving && MayLeave(t, r, leaving)
    ensures AllLegal(t, r, EnlistOne(a, i)) && MayLeave(t, Play(r, EnlistOne(a, i)), leaving)
    ensures Play(r, EnlistOne(a, i)).mrs.Keys == r.mrs.Keys
    ensures Play(r, EnlistOne(a, i)).mrs[i].state == r.mrs[i].state
    ensures forall w :: w in EnlistOne(a, i) ==> w.iid == i && w != RemoveLabel(i, OmmGroupLead)
  {
    var w1 := AddLabel(i, OmmPending);
    var r1 := Do(r, w1);
    LegalOne(t, r, w1);
    MayLeaveStep(t, r, w1, leaving);
    match a.rebase(i)
    case Conflict =>
      EnlistConflict(t, r1, i, leaving);
      var rest := [RemoveLabel(i, OmmPending), AddLabel(i, RebaseError)];
      EachConcat(Rule(t), r, [w1], rest);
      PlayConcat(r, [w1], rest);
      assert EnlistOne(a, i) == [w1] + rest;
    case Accepted(moved) =>
      var w2 := Rebase(i, moved);
      LegalOne(t, r1, w2);
      MayLeaveStep(t, r1, w2, leaving);
      EachConcat(Rule(t), r, [w1], [w2]);
      PlayConcat(r, [w1], [w2]);
      assert EnlistOne(a, i) == [w1] + [w2];
  }

  /** The refused half of it. */
  lemma EnlistConflict(t: Terms, r: Repo, i: Iid, leaving: set<Iid>)
    requires i in r.mrs && i in leaving && MayLeave(t, r, leaving)
    ensures var ws := [RemoveLabel(i, OmmPending), AddLabel(i, RebaseError)];
            && AllLegal(t, r, ws) && MayLeave(t, Play(r, ws), leaving)
            && Play(r, ws).mrs.Keys == r.mrs.Keys && Play(r, ws).mrs[i].state == r.mrs[i].state
  {
    var w2, w3 := RemoveLabel(i, OmmPending), AddLabel(i, RebaseError);
    var r1 := Do(r, w2);
    UnpendOneLegal(t, r, i, leaving);
    LegalOne(t, r, w2);
    MayLeaveStep(t, r, w2, leaving);
    LegalOne(t, r1, w3);
    MayLeaveStep(t, r1, w3, leaving);
    EachConcat(Rule(t), r, [w2], [w3]);
    PlayConcat(r, [w2], [w3]);
    assert [w2, w3] == [w2] + [w3];
  }

  lemma {:induction false} EnlistLegal(t: Terms, r: Repo, a: Answers, cands: seq<Iid>, leaving: set<Iid>)
    requires (forall i :: i in cands ==> CanEnlist(r, a, i) && i in leaving) && MayLeave(t, r, leaving)
    ensures AllLegal(t, r, Enlist(a, cands))
    ensures forall w :: w in Enlist(a, cands) ==> w.iid in cands && w != RemoveLabel(w.iid, OmmGroupLead)
    decreases |cands|
  {
    if cands != [] {
      var c := cands[0];
      var r1 := Play(r, EnlistOne(a, c));
      assert c in cands;
      EnlistOneLegal(t, r, a, c, leaving);
      forall i | i in cands[1..] ensures CanEnlist(r1, a, i) && i in leaving {
        assert i in cands;
        if i != c { PlayLeaves(r, EnlistOne(a, c), i); }
      }
      EnlistLegal(t, r1, a, cands[1..], leaving);
      EachConcat(Rule(t), r, EnlistOne(a, c), Enlist(a, cands[1..]));
    }
  }

  // --- Members --------------------------------------------------------------------------

  lemma MemberLegal(t: Terms, r: Repo, i: Iid, a: Answers, dry: bool)
    requires Matches(r, i, Opened, OmmPending) && i !in t.spoilt
    ensures AllLegal(t, r, Member(r, i, a, dry).writes)
    ensures forall w :: w in Member(r, i, a, dry).writes ==> w.iid == i && w != AddLabel(i, OmmPending)
    ensures |Member(r, i, a, dry).writes| <= 1
  {
    var ws := Member(r, i, a, dry).writes;
    if ws != [] {
      assert ws == [ws[0]];
      LegalOne(t, r, ws[0]);
    }
  }

  lemma {:induction false} MembersLegal(t: Terms, r: Repo, ids: seq<Iid>, a: Answers, dry: bool, merges: nat, limit: int)
    requires NoDup(ids) && forall i :: i in ids ==> Matches(r, i, Opened, OmmPending) && i !in t.spoilt
    ensures AllLegal(t, r, Members(r, ids, a, dry, merges, limit).writes)
    ensures forall w :: w in Members(r, ids, a, dry, merges, limit).writes ==> w.iid in ids && w != AddLabel(w.iid, OmmPending)
    decreases |ids|
  {
    if ids != [] {
      var m := Member(r, ids[0], a, dry);
      assert ids[0] in ids;
      MemberLegal(t, r, ids[0], a, dry);
      if !(m.merged && merges + 1 >= limit) {
        var r1 := Play(r, m.writes);
        var n := if m.merged then merges + 1 else merges;
        forall i | i in ids[1..] ensures Matches(r1, i, Opened, OmmPending) && i !in t.spoilt {
          assert i in ids && i != ids[0];
          PlayLeaves(r, m.writes, i);
        }
        MembersLegal(t, r1, ids[1..], a, dry, n, limit);
        EachConcat(Rule(t), r, m.writes, Members(r1, ids[1..], a, dry, n, limit).writes);
      }
    }
  }

  /** Every landing GitLab grants leaves a commit the integrity check can recognise. */
  ghost predicate AllRecorded(a: Answers) {
    forall i :: a.land(i).Landed? ==> a.land(i).how != FastForward
  }

  /** Members that are no candidates for leaving keep HEADs vouched for. */
  lemma {:induction false} MembersVouched(t: Terms, r: Repo, ids: seq<Iid>, a: Answers, dry: bool, merges: nat, limit: int, leaving: set<Iid>)
    requires NoDup(ids) && forall i :: i in ids ==> Matches(r, i, Opened, OmmPending) && i !in t.spoilt && i !in leaving
    requires MayLeave(t, r, leaving) && AllRecorded(a)
    ensures MayLeave(t, Play(r, Members(r, ids, a, dry, merges, limit).writes), leaving)
    decreases |ids|
  {
    if ids != [] {
      var m := Member(r, ids[0], a, dry);
      var r1 := Play(r, m.writes);
      assert ids[0] in ids;
      MemberLegal(t, r, ids[0], a, dry);
      MemberVouched(t, r, ids[0], a, dry, leaving);
      if !(m.merged && merges + 1 >= limit) {
        var n := if m.merged then merges + 1 else merges;
        forall i | i in ids[1..] ensures Matches(r1, i, Opened, OmmPending) && i !in t.spoilt && i !in leaving {
          assert i in ids && i != ids[0];
          PlayLeaves(r, m.writes, i);
        }
        MembersVouched(t, r1, ids[1..], a, dry, n, limit, leaving);
        PlayConcat(r, m.writes, Members(r1, ids[1..], a, dry, n, limit).writes);
      }
    }
  }

  lemma MemberVouched(t: Terms, r: Repo, i: Iid, a: Answers, dry: bool, leaving: set<Iid>)
    requires Matches(r, i, Opened, OmmPending) && i !in t.spoilt && i !in leaving
    requires MayLeave(t, r, leaving) && AllRecorded(a)
    ensures MayLeave(t, Play(r, Member(r, i, a, dry).writes), leaving)
  {
    var ws := Member(r, i, a, dry).writes;
    if ws != [] && t.keep {
      var w := ws[0];
      assert ws == [w] && Play(r, [w]) == Do(r, w);
      assert w.Land? ==> a.land(i) == Landed(w.how);
      MemberLegal(t, r, i, a, dry);
      assert Rule(t)(r, w);
      LeadsOkStep(t, r, w);
      VouchedStep(t, r, w, leaving);
    }
  }

  // --- Splitting the pending list -------------------------------------------------------

  lemma {:induction false} KeepSplits(r: Repo, ids: seq<Iid>, seen: set<Label>)
    requires NoDup(ids)
    ensures NoDup(Keep(r, ids, seen))
    ensures forall i :: i in ids <==> i in Keep(r, ids, seen) || i in Overlapping(r, ids, seen)
    ensures forall i :: !(i in Keep(r, ids, seen) && i in Overlapping(r, ids, seen))
    decreases |ids|
  {
    if ids != [] {
      var overlaps := TenantsOf(r, ids[0]) * seen != {};
      var seen1 := if overlaps then seen else seen + TenantsOf(r, ids[0]);
      KeepSplits(r, ids[1..], seen1);
      assert ids[0] !in ids[1..];
      forall i ensures i in ids <==> i == ids[0] || i in ids[1..] {}
    }
  }

  // --- Queues ---------------------------------------------------------------------------

  /** The labels were those of a mergeable MR when it was listed, and the error flag was read off them. */
  predicate WasMergeable(it: Item) {
    IsGoodToMerge(it.labels) && it.error == (it.labels * ERROR_LABELS != {})
  }

  ghost predicate DistinctItems(queue: seq<Item>) {
    forall j, k :: 0 <= j < k < |queue| ==> queue[j].iid != queue[k].iid
  }

  /** A queue as `preprocess_merge_requests` builds it, in any order, from a listing made at any time:
      its MRs may have been relabelled, pushed to, closed or merged since. */
  ghost predicate IsListing(r: Repo, queue: seq<Item>) {
    DistinctItems(queue) && forall it :: it in queue ==> it.iid in r.mrs && WasMergeable(it)
  }

  /** The item still describes an open MR. */
  predicate StillListed(r: Repo, it: Item) {
    && it.iid in r.mrs
    && r.mrs[it.iid].state == Opened && r.mrs[it.iid].sha == it.sha && r.mrs[it.iid].labels == it.labels
  }

  /** A queue built from a listing of the state `r`. */
  ghost predicate IsQueue(r: Repo, queue: seq<Item>) {
    IsListing(r, queue) && forall it :: it in queue ==> StillListed(r, it)
  }

  /** What GitLab guarantees, whatever it is asked: it neither rebases nor lands an MR that is not
      open, and fast-forwards only to a commit that contains HEAD. */
  ghost predicate Plausible(r: Repo, a: Answers) {
    forall i :: i in r.mrs ==>
      && (r.mrs[i].state != Opened ==> a.rebase(i) == Conflict && a.land(i) == Refused)
      && (a.land(i) == Landed(FastForward) ==> IsRebased(r, r.mrs[i].sha, r.mrs[i].target))
  }

  /** Since its listing the MR has gained no label that holds it back, and with rebasing on its commit
      is the listed one or contains HEAD. */
  predicate Unspoilt(on: bool, r: Repo, it: Item) {
    it.iid in r.mrs && (
      var mr := r.mrs[it.iid];
      && (mr.labels - it.labels) * (HOLD_LABELS + ERROR_LABELS) == {}
      && (on ==> mr.sha == it.sha || IsRebased(r, mr.sha, mr.target)))
  }

  lemma {:induction false} FormPicks(r: Repo, queue: seq<Item>, taken: set<Label>)
    ensures forall it :: it in Form(r, queue, taken) ==> it in queue && IsCandidate(r, it) && TenantLabels(it.labels) * taken == {}
  {
    if queue != [] {
      var it := queue[0];
      FormPicks(r, queue[1..], taken + TenantLabels(it.labels));
      FormPicks(r, queue[1..], taken);
      forall p | p in Form(r, queue, taken)
        ensures p in queue && IsCandidate(r, p) && TenantLabels(p.labels) * taken == {}
      {
        assert TenantLabels(p.labels) * taken <= TenantLabels(p.labels) * (taken + TenantLabels(it.labels));
      }
    }
  }

  lemma {:induction false} IidsFrom(items: seq<Item>)
    ensures forall i :: i in Iids(items) <==> exists it :: it in items && it.iid == i
    ensures Iids(items) == [] <==> items == []
  {
    if items != [] { IidsFrom(items[1..]); }
  }

  lemma {:induction false} WithoutDrops(queue: seq<Item>, ids: seq<Iid>)
    ensures forall it :: it in Without(queue, ids) <==> it in queue && it.iid !in ids
  {
    if queue != [] { WithoutDrops(queue[1..], ids); }
  }

  // --- The group pass -------------------------------------------------------------------

  lemma CloseLegal(t: Terms, r: Repo, lead: Iid, pending: Option<seq<Iid>>, dry: bool)
    requires WellFormed(r) && LeadsOk(r) && IsLead(r, lead) && Covers(r, pending)
    ensures AllLegal(t, r, Close(r, lead, pending, dry))
    ensures !dry ==> NoOmmLabels(Play(r, Close(r, lead, pending, dry)))
  {
    ClearLegal(t, r, Some(lead), pending);
  }

  /** Everything known of a state in the middle of a group pass, after writes `ws` from `r`. */
  lemma MidPass(t: Terms, r: Repo, ws: seq<Write>, lead: Iid)
    requires WellFormed(r) && LeadsOk(r) && IsLead(r, lead) && AllLegal(t, r, ws)
    requires RemoveLabel(lead, OmmGroupLead) !in ws
    ensures WellFormed(Play(r, ws)) && LeadsOk(Play(r, ws)) && IsLead(Play(r, ws), lead) && SameShell(r, Play(r, ws))
  {
    WellFormedPlay(r, ws);
    LeadsOkPlay(t, r, ws);
    LeadStays(r, ws, lead);
    LegalIsOwn(t, r, ws);
    PlayShell(r, ws);
  }

  lemma StandStillLegal(t: Terms, r: Repo, lead: Iid, dry: bool, active: bool)
    requires WellFormed(r) && LeadsOk(r) && IsLead(r, lead)
    ensures AllLegal(t, r, StandStill(r, lead, dry, active))
  {
    if !active { CloseLegal(t, r, lead, None, dry); }
  }

  /** What expansion needs of the queue: the items it may pick can be enlisted. */
  ghost predicate CanJoin(r: Repo, a: Answers, queue: seq<Item>, kept: seq<Iid>) {
    forall it :: it in queue && it.iid !in kept ==> CanEnlist(r, a, it.iid)
  }

  /** Newcomers come from the queue minus the kept members. */
  lemma NewcomersListed(r: Repo, lead: Iid, kept: seq<Iid>, queue: seq<Item>)
    ensures forall i :: i in Newcomers(r, lead, kept, queue) ==> i !in kept && exists it :: it in queue && it.iid == i
  {
    var taken := TenantsOf(r, lead) + AllTenants(r, kept);
    WithoutDrops(queue, kept);
    FormPicks(r, Without(queue, kept), taken);
    IidsFrom(Form(r, Without(queue, kept), taken));
  }

  lemma {:induction false} FormSame(r: Repo, r': Repo, queue: seq<Item>, taken: set<Label>)
    requires SameShell(r, r')
    ensures Form(r', queue, taken) == Form(r, queue, taken)
  {
    if queue != [] {
      var i := queue[0].iid;
      assert i in r.mrs <==> i in r'.mrs;
      FormSame(r, r', queue[1..], taken);
      FormSame(r, r', queue[1..], taken + TenantLabels(queue[0].labels));
    }
  }

  lemma {:induction false} AllTenantsSame(r: Repo, r': Repo, ids: seq<Iid>)
    requires SameShell(r, r')
    ensures AllTenants(r', ids) == AllTenants(r, ids)
  {
    if ids != [] {
      assert ids[0] in r.mrs <==> ids[0] in r'.mrs;
      AllTenantsSame(r, r', ids[1..]);
    }
  }

  /** Who joins does not depend on what the pass has written so far. */
  lemma NewcomersSame(r: Repo, r': Repo, lead: Iid, kept: seq<Iid>, queue: seq<Item>)
    requires SameShell(r, r')
    ensures Newcomers(r', lead, kept, queue) == Newcomers(r, lead, kept, queue)
  {
    assert lead in r.mrs <==> lead in r'.mrs;
    AllTenantsSame(r, r', kept);
    FormSame(r, r', Without(queue, kept), TenantsOf(r, lead) + AllTenants(r, kept));
  }

  lemma NewcomersLegal(t: Terms, r: Repo, lead: Iid, kept: seq<Iid>, queue: seq<Item>, a: Answers)
    requires CanJoin(r, a, queue, kept) && MayLeave(t, r, Elems(Newcomers(r, lead, kept, queue)))
    ensures var ws := Enlist(a, Newcomers(r, lead, kept, queue));
            && AllLegal(t, r, ws)
            && (forall w :: w in ws ==> w.iid in Newcomers(r, lead, kept, queue) && w.iid !in kept && w != RemoveLabel(w.iid, OmmGroupLead))
  {
    var cands := Newcomers(r, lead, kept, queue);
    NewcomersListed(r, lead, kept, queue);
    EnlistLegal(t, r, a, cands, Elems(cands));
  }

  lemma ExpandLegal(t: Terms, r: Repo, lead: Iid, kept: seq<Iid>, queue: seq<Item>, a: Answers, c: Config, active: bool)
    requires WellFormed(r) && LeadsOk(r) && IsLead(r, lead)
    requires CanJoin(r, a, queue, kept) && MayLeave(t, r, Elems(Newcomers(r, lead, kept, queue)))
    ensures AllLegal(t, r, Expand(r, lead, kept, queue, a, c, active))
  {
    var cands := Newcomers(r, lead, kept, queue);
    var w := Emit(c.dry, Enlist(a, cands));
    NewcomersLegal(t, r, lead, kept, queue, a);
    MidPass(t, r, w, lead);
    var waits := active || Retained(a, c.dry, cands) != [];
    StandStillLegal(t, Play(r, w), lead, c.dry, waits);
    EachConcat(Rule(t), r, w, StandStill(Play(r, w), lead, c.dry, waits));
  }

  /** The open pending MRs after ejecting overlaps are exactly the kept ones. */
  lemma AfterEjecting(t: Terms, r: Repo, lead: Iid, dry: bool)
    requires WellFormed(r)
    ensures var pending := Listing(r, Opened, OmmPending);
            var kept := Keep(r, pending, TenantsOf(r, lead));
            var out := Overlapping(r, pending, TenantsOf(r, lead));
            var r1 := Play(r, Emit(dry, Unpend(out)));
            && AllLegal(t, r, Emit(dry, Unpend(out)))
            && NoDup(kept)
            && (forall w :: w in Emit(dry, Unpend(out)) ==> w.iid in out && w.iid !in kept)
            && (forall i :: i in out ==> Matches(r, i, Opened, OmmPending))
            && (forall i :: i in kept ==> Matches(r, i, Opened, OmmPending))
            && (forall i :: i in kept ==> Matches(r1, i, Opened, OmmPending))
            && (!dry ==> forall i :: Matches(r1, i, Opened, OmmPending) ==> i in kept)
  {
    var pending := Listing(r, Opened, OmmPending);
    var out := Overlapping(r, pending, TenantsOf(r, lead));
    SelectNoDup(r, r.order, Opened, OmmPending);
    KeepSplits(r, pending, TenantsOf(r, lead));
    PlayUnpend(r, out);
    UnpendLegal(t, r, out);
    UnpendNames(out);
    forall i | Matches(Strip(r, Elems(out), OmmPending), i, Opened, OmmPending) ensures Matches(r, i, Opened, OmmPending) {}
  }

  lemma {:induction false} UnpendNames(ids: seq<Iid>)
    ensures forall w :: w in Unpend(ids) ==> w.iid in ids
  {
    if ids != [] { UnpendNames(ids[1..]); }
  }

  /** Taking the pending label off open MRs leaves every HEAD vouched for. */
  lemma {:induction false} UnpendVouched(t: Terms, r: Repo, ids: seq<Iid>, leaving: set<Iid>)
    requires (forall i :: i in ids ==> i in r.mrs && r.mrs[i].state == Opened) && MayLeave(t, r, leaving)
    ensures MayLeave(t, Play(r, Unpend(ids)), leaving)
    decreases |ids|
  {
    if ids != [] {
      var w := RemoveLabel(ids[0], OmmPending);
      assert ids[0] in ids;
      if t.keep {
        LeadsOkStep(t, r, w);
        VouchedStep(t, r, w, leaving);
      }
      forall i | i in ids[1..] ensures i in ids {}
      UnpendVouched(t, Do(r, w), ids[1..], leaving);
    }
  }

  /** Who joins the group of `lead` in a pass that starts now. */
  function Joining(r: Repo, lead: Iid, queue: seq<Item>): seq<Iid> {
    Newcomers(r, lead, Keep(r, Listing(r, Opened, OmmPending), TenantsOf(r, lead)), queue)
  }

  /** The state after the members have been processed, and what is known of it. */
  lemma MidGroup(t: Terms, r: Repo, lead: Iid, queue: seq<Item>, a: Answers, c: Config)
    requires WellFormed(r) && LeadsOk(r) && IsLead(r, lead) && IsListing(r, queue) && Plausible(r, a) && t.spoilt == {}
    ensures var pending := Listing(r, Opened, OmmPending);
            var kept := Keep(r, pending, TenantsOf(r, lead));
            var w1 := Emit(c.dry, Unpend(Overlapping(r, pending, TenantsOf(r, lead))));
            var r1 := Play(r, w1);
            var ws := Members(r1, kept, a, c.dry, 0, c.limit).writes;
            var r2 := Play(r1, ws);
            && AllLegal(t, r, w1) && AllLegal(t, r1, ws)
            && WellFormed(r1) && LeadsOk(r1) && IsLead(r1, lead)
            && WellFormed(r2) && LeadsOk(r2) && IsLead(r2, lead)
            && CanJoin(r2, a, queue, kept) && Newcomers(r2, lead, kept, queue) == Joining(r, lead, queue)
  {
    var pending := Listing(r, Opened, OmmPending);
    var kept := Keep(r, pending, TenantsOf(r, lead));
    var out := Overlapping(r, pending, TenantsOf(r, lead));
    var w1 := Emit(c.dry, Unpend(out));
    var r1 := Play(r, w1);
    var ws := Members(r1, kept, a, c.dry, 0, c.limit).writes;
    AfterEjecting(t, r, lead, c.dry);
    MidPass(t, r, w1, lead);
    MembersLegal(t, r1, kept, a, c.dry, 0, c.limit);
    MidPass(t, r1, ws, lead);
    QueueCanJoin(r, queue, a, out, c.dry, kept, ws);
    NewcomersSame(r, r1, lead, kept, queue);
    NewcomersSame(r1, Play(r1, ws), lead, kept, queue);
  }

  /** Ejection and members keep HEADs vouched for without those who are about to join. */
  lemma MidGroupVouched(t: Terms, r: Repo, lead: Iid, queue: seq<Item>, a: Answers, c: Config)
    requires WellFormed(r) && t.spoilt == {}
    requires t.keep ==> AllRecorded(a) && MayLeave(t, r, Elems(Joining(r, lead, queue)))
    ensures var pending := Listing(r, Opened, OmmPending);
            var kept := Keep(r, pending, TenantsOf(r, lead));
            var r1 := Play(r, Emit(c.dry, Unpend(Overlapping(r, pending, TenantsOf(r, lead)))));
            MayLeave(t, Play(r1, Members(r1, kept, a, c.dry, 0, c.limit).writes), Elems(Joining(r, lead, queue)))
  {
    if t.keep {
      var pending := Listing(r, Opened, OmmPending);
      var kept := Keep(r, pending, TenantsOf(r, lead));
      var out := Overlapping(r, pending, TenantsOf(r, lead));
      AfterEjecting(t, r, lead, c.dry);
      NewcomersListed(r, lead, kept, queue);
      if !c.dry { UnpendVouched(t, r, out, Elems(Joining(r, lead, queue))); }
      MembersVouched(t, Play(r, Emit(c.dry, Unpend(out))), kept, a, c.dry, 0, c.limit, Elems(Joining(r, lead, queue)));
    }
  }

  lemma QueueCanJoin(r: Repo, queue: seq<Item>, a: Answers, out: seq<Iid>, dry: bool, kept: seq<Iid>, ws: seq<Write>)
    requires IsListing(r, queue) && Plausible(r, a)
    requires forall w :: w in ws ==> w.iid in kept
    ensures CanJoin(Play(Play(r, Emit(dry, Unpend(out))), ws), a, queue, kept)
  {
    var r1 := Play(r, Emit(dry, Unpend(out)));
    PlayUnpend(r, out);
    forall it | it in queue && it.iid !in kept ensures CanEnlist(Play(r1, ws), a, it.iid) {
      assert r1.mrs[it.iid].state == r.mrs[it.iid].state;
      PlayLeaves(r1, ws, it.iid);
    }
  }

  lemma RunGroupLegal(t: Terms, r: Repo, lead: Iid, queue: seq<Item>, a: Answers, c: Config)
    requires WellFormed(r) && LeadsOk(r) && IsLead(r, lead) && IsListing(r, queue) && Plausible(r, a) && t.spoilt == {}
    requires t.keep ==> AllRecorded(a) && MayLeave(t, r, Elems(Joining(r, lead, queue)))
    ensures AllLegal(t, r, RunGroup(r, lead, Listing(r, Opened, OmmPending), queue, a, c).writes)
  {
    var pending := Listing(r, Opened, OmmPending);
    var kept := Keep(r, pending, TenantsOf(r, lead));
    var w1 := Emit(c.dry, Unpend(Overlapping(r, pending, TenantsOf(r, lead))));
    var r1 := Play(r, w1);
    var m := Members(r1, kept, a, c.dry, 0, c.limit);
    var r2 := Play(r1, m.writes);
    MidGroup(t, r, lead, queue, a, c);
    MidGroupVouched(t, r, lead, queue, a, c);
    AfterEjecting(t, r, lead, c.dry);
    RunGroupEnds(t, r1, lead, kept, a, c);
    var w3 := if m.capped then Close(r2, lead, Some(kept), c.dry) else Expand(r2, lead, kept, queue, a, c, m.active);
    if !m.capped { ExpandLegal(t, r2, lead, kept, queue, a, c, m.active); }
    EachConcat(Rule(t), r1, m.writes, w3);
    EachConcat(Rule(t), r, w1, m.writes + w3);
  }

  /** When the merge limit closes the group, the pre-fetched members still cover every open one. */
  lemma RunGroupEnds(t: Terms, r: Repo, lead: Iid, kept: seq<Iid>, a: Answers, c: Config)
    requires WellFormed(r) && LeadsOk(r) && IsLead(r, lead) && NoDup(kept) && t.spoilt == {}
    requires forall i :: i in kept ==> Matches(r, i, Opened, OmmPending)
    requires !c.dry ==> forall i :: Matches(r, i, Opened, OmmPending) ==> i in kept
    ensures var m := Members(r, kept, a, c.dry, 0, c.limit);
            var r2 := Play(r, m.writes);
            && AllLegal(t, r2, Close(r2, lead, Some(kept), c.dry))
            && (!c.dry ==> NoOmmLabels(Play(r2, Close(r2, lead, Some(kept), c.dry))))
  {
    var m := Members(r, kept, a, c.dry, 0, c.limit);
    var r2 := Play(r, m.writes);
    MembersLegal(t, r, kept, a, c.dry, 0, c.limit);
    MidPass(t, r, m.writes, lead);
    if !c.dry {
      forall i | Matches(r2, i, Opened, OmmPending) ensures i in kept {
        NoNewMembers(r, m.writes, i);
      }
      CloseLegal(t, r2, lead, Some(kept), c.dry);
    }
  }

  lemma GroupPassLegal(t: Terms, r: Repo, lead: Iid, queue: seq<Item>, a: Answers, c: Config)
    requires WellFormed(r) && LeadsOk(r) && IsLead(r, lead) && IsListing(r, queue) && Plausible(r, a) && t.spoilt == {}
    requires t.keep ==> AllRecorded(a) && MayLeave(t, r, Elems(Joining(r, lead, queue)))
    ensures AllLegal(t, r, GroupPass(r, lead, queue, a, c).writes)
  {
    var pending := Listing(r, Opened, OmmPending);
    CloseLegal(t, r, lead, None, c.dry);
    if pending == [] {
      forall i ensures !Matches(r, i, Opened, OmmPending) {
        assert i in r.mrs ==> i in r.order;
        assert i !in pending;
      }
      CloseLegal(t, r, lead, Some([]), c.dry);
    }
    RunGroupLegal(t, r, lead, queue, a, c);
  }

  // --- The serial path ------------------------------------------------------------------

  /** What a serial pass knows of an item until its turn comes. */
  ghost predicate IsDue(t: Terms, r: Repo, a: Answers, it: Item) {
    && it.iid in r.mrs && WasMergeable(it)
    && (a.land(it.iid).Landed? ==> r.mrs[it.iid].state == Opened)
    && (t.on && a.land(it.iid) == Landed(FastForward) ==> IsRebased(r, r.mrs[it.iid].sha, r.mrs[it.iid].target))
    && (Unspoilt(t.on, r, it) <==> it.iid !in t.spoilt)
  }

  ghost predicate AllDue(t: Terms, r: Repo, a: Answers, rest: seq<Item>) {
    DistinctItems(rest) && forall it :: it in rest ==> IsDue(t, r, a, it)
  }

  /** What a rebasing serial pass knows of its whole queue until its one landing. */
  ghost predicate QueueCanEnlist(r: Repo, a: Answers, queue: seq<Item>) {
    DistinctItems(queue) && forall it :: it in queue ==> CanEnlist(r, a, it.iid)
  }

  /** An item that is ready to land is fit to land if and only if it is unspoilt. */
  lemma ReadyFitIffUnspoilt(on: bool, r: Repo, it: Item, c: Config)
    requires it.iid in r.mrs && r.mrs[it.iid].state == Opened && WasMergeable(it)
    requires ReadyToLand(r, it, c) && c.rebase == on && (on ==> NoLead(r))
    ensures FitToLand(on, r, it.iid) <==> Unspoilt(on, r, it)
  {
    var now := r.mrs[it.iid].labels;
    var bad := HOLD_LABELS + ERROR_LABELS;
    assert now * ERROR_LABELS <= now * bad && now * HOLD_LABELS <= now * bad;
    assert now * bad == now * HOLD_LABELS + now * ERROR_LABELS;
    assert it.labels * bad == it.labels * HOLD_LABELS + it.labels * ERROR_LABELS == {};
    assert (now - it.labels) * bad == now * bad - it.labels * bad == now * bad;
  }

  lemma LandLegal(t: Terms, r: Repo, it: Item, a: Answers, c: Config)
    requires WellFormed(r) && IsDue(t, r, a, it) && ReadyToLand(r, it, c) && t.on == c.rebase && (t.on ==> NoLead(r))
    requires a.land(it.iid).Landed?
    ensures var w := Land(it.iid, a.land(it.iid).how);
            var r1 := Do(r, w);
            Legal(t, r, w) && r1.mrs[it.iid].state == Merged && LandedAtHead(r1, it.iid) && (NoLead(r) ==> NoLead(r1))
  {
    var w := Land(it.iid, a.land(it.iid).how);
    ReadyFitIffUnspoilt(t.on, r, it, c);
    if NoLead(r) {
      forall i ensures !IsLead(Do(r, w), i) { assert !IsLead(r, i); }
    }
  }

  lemma StartGroupLegal(t: Terms, r: Repo, it: Item, queue: seq<Item>, taken: set<Label>, a: Answers, c: Config)
    requires t.on && NoLead(r) && it in queue && DistinctItems(queue)
    requires !c.dry ==> it.iid in r.mrs && r.mrs[it.iid].state == Merged && LandedAtHead(r, it.iid)
    requires forall q :: q in queue && q.iid != it.iid ==> CanEnlist(r, a, q.iid)
    requires TenantLabels(it.labels) <= taken
    ensures AllLegal(t, r, StartGroup(r, it, queue, taken, a, c))
  {
    var picks := Form(r, queue, taken);
    var cands := Iids(picks);
    FormPicks(r, queue, taken);
    IidsFrom(picks);
    if c.multi && TenantLabels(it.labels) != {} && cands != [] && !c.dry {
      var w := AddLabel(it.iid, OmmGroupLead);
      LegalOne(t, r, w);
      LeadsOkStep(t, r, w);
      VouchedStep(t, r, w, Elems(cands));
      forall i | i in cands ensures CanEnlist(Do(r, w), a, i) {
        var p :| p in picks && p.iid == i;
        assert TenantLabels(it.labels) * taken == TenantLabels(it.labels);
        assert p != it;
      }
      EnlistLegal(t, Do(r, w), a, cands, Elems(cands));
      EachConcat(Rule(t), r, [w], Enlist(a, cands));
    }
  }

  /** A rebasing serial pass: it lands at most one MR and may then open a group behind it. */
  lemma {:induction false} RebasingSerialLegal(t: Terms, r: Repo, rest: seq<Item>, queue: seq<Item>, a: Answers, c: Config, taken: set<Label>)
    requires t.on && c.rebase && WellFormed(r) && AllDue(t, r, a, rest) && (forall it :: it in rest ==> it in queue)
    requires NoLead(r) && QueueCanEnlist(r, a, queue)
    ensures AllLegal(t, r, Serial(r, rest, queue, a, c, 0, taken))
    decreases |rest|
  {
    if rest == [] { return; }
    QueueTail(t, r, a, rest);
    if Insists(r, rest[0], c, 0) {
    } else if !ReadyToLand(r, rest[0], c) || 0 >= c.limit {
      RebasingSerialLegal(t, r, rest[1..], queue, a, c, taken);
    } else if !c.dry && a.land(rest[0].iid).Refused? {
      var w := AddLabel(rest[0].iid, MergeError);
      RefusedLegal(t, r, rest, queue, a, c);
      RebasingSerialLegal(t, Do(r, w), rest[1..], queue, a, c, taken);
      EachConcat(Rule(t), r, [w], Serial(Do(r, w), rest[1..], queue, a, c, 0, taken));
    } else {
      SerialLandLegal(t, r, rest[0], queue, a, c, taken);
    }
  }

  /** Without rebasing there are no groups, and every ready MR up to the limit is landed. */
  lemma {:induction false} PlainSerialLegal(t: Terms, r: Repo, rest: seq<Item>, queue: seq<Item>, a: Answers, c: Config, merges: nat, taken: set<Label>)
    requires !t.on && !c.rebase && WellFormed(r) && AllDue(t, r, a, rest)
    ensures AllLegal(t, r, Serial(r, rest, queue, a, c, merges, taken))
    decreases |rest|, 1
  {
    if rest == [] { return; }
    QueueTail(t, r, a, rest);
    if Insists(r, rest[0], c, merges) {
    } else if !ReadyToLand(r, rest[0], c) || merges >= c.limit {
      PlainSerialLegal(t, r, rest[1..], queue, a, c, merges, taken);
    } else if !c.dry && a.land(rest[0].iid).Refused? {
      PlainRefused(t, r, rest, queue, a, c, merges, taken);
    } else {
      PlainLanded(t, r, rest, queue, a, c, merges, taken);
    }
  }

  lemma {:induction false} PlainRefused(t: Terms, r: Repo, rest: seq<Item>, queue: seq<Item>, a: Answers, c: Config, merges: nat, taken: set<Label>)
    requires !t.on && !c.rebase && WellFormed(r) && AllDue(t, r, a, rest) && rest != []
    requires ReadyToLand(r, rest[0], c) && !Insists(r, rest[0], c, merges) && merges < c.limit && !c.dry && a.land(rest[0].iid).Refused?
    ensures AllLegal(t, r, Serial(r, rest, queue, a, c, merges, taken))
    decreases |rest|, 0
  {
    var w := AddLabel(rest[0].iid, MergeError);
    RefusedLegal(t, r, rest, queue, a, c);
    PlainSerialLegal(t, Do(r, w), rest[1..], queue, a, c, merges, taken);
    EachConcat(Rule(t), r, [w], Serial(Do(r, w), rest[1..], queue, a, c, merges, taken));
  }

  lemma {:induction false} PlainLanded(t: Terms, r: Repo, rest: seq<Item>, queue: seq<Item>, a: Answers, c: Config, merges: nat, taken: set<Label>)
    requires !t.on && !c.rebase && WellFormed(r) && AllDue(t, r, a, rest) && rest != []
    requires ReadyToLand(r, rest[0], c) && !Insists(r, rest[0], c, merges) && merges < c.limit && (c.dry || a.land(rest[0].iid).Landed?)
    ensures AllLegal(t, r, Serial(r, rest, queue, a, c, merges, taken))
    decreases |rest|, 0
  {
    var w, now := Landings(rest[0], a, c.dry), taken + TenantLabels(rest[0].labels);
    PlainLanding(t, r, rest, a, c);
    PlainSerialLegal(t, Play(r, w), rest[1..], queue, a, c, merges + 1, now);
    EachConcat(Rule(t), r, w, Serial(Play(r, w), rest[1..], queue, a, c, merges + 1, now));
  }

  lemma PlainLanding(t: Terms, r: Repo, rest: seq<Item>, a: Answers, c: Config)
    requires !t.on && !c.rebase && WellFormed(r) && AllDue(t, r, a, rest) && rest != [] && ReadyToLand(r, rest[0], c)
    requires !c.dry ==> a.land(rest[0].iid).Landed?
    ensures var w := Landings(rest[0], a, c.dry);
            AllLegal(t, r, w) && WellFormed(Play(r, w)) && AllDue(t, Play(r, w), a, rest[1..])
  {
    QueueTail(t, r, a, rest);
    LandingsLegal(t, r, rest[0], a, c);
  }

  lemma QueueTail(t: Terms, r: Repo, a: Answers, rest: seq<Item>)
    requires AllDue(t, r, a, rest) && rest != []
    ensures IsDue(t, r, a, rest[0]) && AllDue(t, r, a, rest[1..])
    ensures forall q :: q in rest[1..] ==> q in rest && q.iid != rest[0].iid
  {
    assert rest[0] in rest;
    forall q | q in rest[1..] ensures q in rest && q.iid != rest[0].iid {
      var k :| 0 <= k < |rest[1..]| && rest[1..][k] == q;
      assert q == rest[k + 1];
    }
  }

  /** Flagging the head of a queue disturbs neither the rest of it nor the absence of a lead. */
  lemma FlagKeepsQueues(t: Terms, r: Repo, rest: seq<Item>, queue: seq<Item>, a: Answers)
    requires AllDue(t, r, a, rest) && rest != []
    ensures var r1 := Do(r, AddLabel(rest[0].iid, MergeError));
            && AllDue(t, r1, a, rest[1..]) && (NoLead(r) ==> NoLead(r1)) && (QueueCanEnlist(r, a, queue) ==> QueueCanEnlist(r1, a, queue))
  {
    var r1 := Do(r, AddLabel(rest[0].iid, MergeError));
    QueueTail(t, r, a, rest);
    forall q | q in rest[1..] ensures IsDue(t, r1, a, q) { assert IsDue(t, r, a, q) && r1.mrs[q.iid] == r.mrs[q.iid]; }
    if NoLead(r) {
      forall i ensures !IsLead(r1, i) { assert !IsLead(r, i); }
    }
  }

  lemma RefusedLegal(t: Terms, r: Repo, rest: seq<Item>, queue: seq<Item>, a: Answers, c: Config)
    requires WellFormed(r) && AllDue(t, r, a, rest) && rest != [] && (t.on ==> NoLead(r) && QueueCanEnlist(r, a, queue))
    ensures var w := AddLabel(rest[0].iid, MergeError);
            var r1 := Do(r, w);
            && AllLegal(t, r, [w]) && Play(r, [w]) == r1 && WellFormed(r1)
            && AllDue(t, r1, a, rest[1..]) && (t.on ==> NoLead(r1) && QueueCanEnlist(r1, a, queue))
  {
    var w := AddLabel(rest[0].iid, MergeError);
    QueueTail(t, r, a, rest);
    FlagKeepsQueues(t, r, rest, queue, a);
    LegalOne(t, r, w);
    WellFormedStep(r, w);
  }

  function Landings(it: Item, a: Answers, dry: bool): seq<Write> {
    if dry || a.land(it.iid).Refused? then [] else [Land(it.iid, a.land(it.iid).how)]
  }

  lemma LandingsLegal(t: Terms, r: Repo, it: Item, a: Answers, c: Config)
    requires WellFormed(r) && IsDue(t, r, a, it) && ReadyToLand(r, it, c) && t.on == c.rebase && (t.on ==> NoLead(r))
    requires !c.dry ==> a.land(it.iid).Landed?
    ensures var w := Landings(it, a, c.dry);
            var r1 := Play(r, w);
            && AllLegal(t, r, w) && WellFormed(r1) && (t.on ==> NoLead(r1))
            && (forall i :: i in r.mrs && i != it.iid ==> i in r1.mrs && r1.mrs[i] == r.mrs[i])
            && (!c.dry ==> it.iid in r1.mrs && r1.mrs[it.iid].state == Merged && LandedAtHead(r1, it.iid))
  {
    if !c.dry {
      var w := Land(it.iid, a.land(it.iid).how);
      LandLegal(t, r, it, a, c);
      LegalOne(t, r, w);
      WellFormedStep(r, w);
      LandLeavesOthers(r, w);
    }
  }

  lemma LandLeavesOthers(r: Repo, w: Write)
    requires w.Land? && w.iid in r.mrs
    ensures forall i :: i in r.mrs && i != w.iid ==> i in Do(r, w).mrs && Do(r, w).mrs[i] == r.mrs[i]
  {
  }

  lemma SerialLandLegal(t: Terms, r: Repo, it: Item, queue: seq<Item>, a: Answers, c: Config, taken: set<Label>)
    requires WellFormed(r) && IsDue(t, r, a, it) && ReadyToLand(r, it, c) && it in queue
    requires t.on && c.rebase && NoLead(r) && QueueCanEnlist(r, a, queue) && (!c.dry ==> a.land(it.iid).Landed?)
    ensures var w := Landings(it, a, c.dry);
            AllLegal(t, r, w + StartGroup(Play(r, w), it, queue, taken + TenantLabels(it.labels), a, c))
  {
    var w := Landings(it, a, c.dry);
    var r1 := Play(r, w);
    LandingsLegal(t, r, it, a, c);
    StartGroupLegal(t, r1, it, queue, taken + TenantLabels(it.labels), a, c);
    EachConcat(Rule(t), r, w, StartGroup(r1, it, queue, taken + TenantLabels(it.labels), a, c));
  }

  // --- The whole pass -------------------------------------------------------------------

  lemma ClearedQueue(t: Terms, r: Repo, queue: seq<Item>, a: Answers)
    requires AllDue(t, r, a, queue)
    ensures AllDue(t, Cleared(r), a, queue)
  {
    forall it | it in queue ensures IsDue(t, Cleared(r), a, it) {
      var ls := r.mrs[it.iid].labels;
      assert IsDue(t, r, a, it);
      assert Cleared(r).mrs[it.iid].labels == ls - {OmmGroupLead} - {OmmPending};
      assert (ls - it.labels) * (HOLD_LABELS + ERROR_LABELS)
        == (ls - {OmmGroupLead} - {OmmPending} - it.labels) * (HOLD_LABELS + ERROR_LABELS);
    }
  }

  lemma CleanUpLegal(t: Terms, r: Repo, queue: seq<Item>, a: Answers, c: Config)
    requires WellFormed(r) && LeadsOk(r) && AllDue(t, r, a, queue)
    ensures AllLegal(t, r, CleanUp(r, c))
    ensures WellFormed(Play(r, CleanUp(r, c))) && AllDue(t, Play(r, CleanUp(r, c)), a, queue)
    ensures QueueCanEnlist(r, a, queue) ==> QueueCanEnlist(Play(r, CleanUp(r, c)), a, queue)
    ensures NoLead(r) ==> NoLead(Play(r, CleanUp(r, c)))
    ensures c.rebase && !c.multi && !c.dry ==> NoLead(Play(r, CleanUp(r, c)))
  {
    var pending := Listing(r, Opened, OmmPending);
    forall i | Matches(r, i, Opened, OmmPending) ensures i in pending { assert i in r.order; }
    FindLeadFinds(r);
    WellFormedPlay(r, CleanUp(r, c));
    ClearLegal(t, r, FindLead(r), None);
    ClearLegal(t, r, None, Some(pending));
    ClearedQueue(t, r, queue, a);
  }

  lemma {:induction false} DrySerial(r: Repo, rest: seq<Item>, queue: seq<Item>, a: Answers, c: Config, merges: nat, taken: set<Label>)
    requires c.dry
    ensures Serial(r, rest, queue, a, c, merges, taken) == []
    decreases |rest|
  {
    if rest != [] {
      DrySerial(r, rest[1..], queue, a, c, merges, taken);
      DrySerial(r, rest[1..], queue, a, c, merges + 1, taken + TenantLabels(rest[0].labels));
    }
  }

  lemma {:induction false} DryMembers(r: Repo, ids: seq<Iid>, a: Answers, merges: nat, limit: int)
    ensures Members(r, ids, a, true, merges, limit).writes == []
    decreases |ids|
  {
    if ids != [] {
      assert Member(r, ids[0], a, true).writes == [];
      DryMembers(r, ids[1..], a, merges, limit);
      DryMembers(r, ids[1..], a, merges + 1, limit);
    }
  }

  /** A dry run writes nothing, in every mode. */
  lemma DryPass(r: Repo, queue: seq<Item>, a: Answers, c: Config)
    requires c.dry
    ensures MergePass(r, queue, a, c) == []
  {
    DrySerial(r, queue, queue, a, c, 0, {});
    if FindLead(r).Some? {
      var kept := Keep(r, Listing(r, Opened, OmmPending), TenantsOf(r, FindLead(r).value));
      DryMembers(r, kept, a, 0, c.limit);
    }
  }

  predicate OnGroupPath(r: Repo, c: Config) {
    c.rebase && c.multi && FindLead(r).Some?
  }

  /** The MRs a pass may land unfit: on the serial path those spoilt since their listing. */
  function Spoilt(r: Repo, queue: seq<Item>, c: Config): set<Iid> {
    if OnGroupPath(r, c) then {} else set it | it in queue && !Unspoilt(c.rebase, r, it) :: it.iid
  }

  /** No newcomer takes with it the last merged member that vouches for HEAD. */
  ghost predicate VouchersStay(r: Repo, queue: seq<Item>, c: Config) {
    OnGroupPath(r, c) ==> Vouched(r, Elems(Joining(r, FindLead(r).value, queue)))
  }

  /** The terms a pass is held to. */
  function PassTerms(r: Repo, queue: seq<Item>, c: Config, keep: bool): Terms {
    Terms(c.rebase, Spoilt(r, queue, c), keep)
  }

  lemma QueueIsDue(r: Repo, queue: seq<Item>, a: Answers, c: Config, keep: bool)
    requires IsListing(r, queue) && Plausible(r, a) && !OnGroupPath(r, c)
    ensures AllDue(PassTerms(r, queue, c, keep), r, a, queue) && QueueCanEnlist(r, a, queue)
  {
    var t := PassTerms(r, queue, c, keep);
    forall it | it in queue ensures IsDue(t, r, a, it) {
      if it.iid in t.spoilt {
        var other :| other in queue && !Unspoilt(c.rebase, r, other) && other.iid == it.iid;
        SameItem(queue, it, other);
      }
    }
  }

  lemma SameItem(queue: seq<Item>, p: Item, q: Item)
    requires DistinctItems(queue) && p in queue && q in queue && p.iid == q.iid
    ensures p == q
  {
    var j :| 0 <= j < |queue| && queue[j] == p;
    var k :| 0 <= k < |queue| && queue[k] == q;
  }

  /** Every write of every merge pass, on a fresh or an old listing and whatever GitLab answers, is
      legal when it is made. */
  lemma MergePassLegal(r: Repo, queue: seq<Item>, a: Answers, c: Config, keep: bool)
    requires WellFormed(r) && LeadsOk(r) && IsListing(r, queue) && Plausible(r, a)
    requires keep ==> c.rebase && AllRecorded(a) && VouchersStay(r, queue, c)
    ensures AllLegal(PassTerms(r, queue, c, keep), r, MergePass(r, queue, a, c))
  {
    var t := PassTerms(r, queue, c, keep);
    FindLeadFinds(r);
    if c.dry {
      DryPass(r, queue, a, c);
    } else if OnGroupPath(r, c) {
      GroupPassLegal(t, r, FindLead(r).value, queue, a, c);
    } else {
      var w := CleanUp(r, c);
      var r1 := Play(r, w);
      QueueIsDue(r, queue, a, c, t.keep);
      CleanUpLegal(t, r, queue, a, c);
      if c.rebase { RebasingSerialLegal(t, r1, queue, queue, a, c, {}); } else { PlainSerialLegal(t, r1, queue, queue, a, c, 0, {}); }
      EachConcat(Rule(t), r, w, Serial(r1, queue, queue, a, c, 0, {}));
    }
  }
}
