/** How a completed group pass ends, and why it lands at most one MR per target branch. */
module MergeQueueLandings {
  import opened Common
  import opened GitLabRepo
  import opened MergeQueue
  import opened MergeQueueRules
  import opened MergeQueueLegal
  import opened MergeQueueGroups
  import opened MergeQueueRuns

  // --- A completed pass closes the group entirely or keeps its lead ----------------------

  /** Nobody is active and no newcomer is retained. */
  predicate StandsStill(r: Repo, lead: Iid, kept: seq<Iid>, queue: seq<Item>, a: Answers, active: bool) {
    !active && Retained(a, false, Newcomers(r, lead, kept, queue)) == []
  }

  /** The members' pass reaches the merge limit, or the group stands still after it. */
  predicate RunGroupCloses(r: Repo, lead: Iid, queue: seq<Item>, a: Answers, c: Config) {
    var pending := Listing(r, Opened, OmmPending);
    var kept := Keep(r, pending, TenantsOf(r, lead));
    var r1 := Play(r, Unpend(Overlapping(r, pending, TenantsOf(r, lead))));
    var m := Members(r1, kept, a, false, 0, c.limit);
    m.capped || StandsStill(Play(r1, m.writes), lead, kept, queue, a, m.active)
  }

  /** The reasons to clear a group, one for each clearing call of `_process_omm_group`. */
  predicate GroupCloses(r: Repo, lead: Iid, queue: seq<Item>, a: Answers, c: Config) {
    || !c.windowOpen || !c.ciHealthy
    || (LeadSha(r, lead).Some? &&
        (|| !IsIntact(r, lead, LeadSha(r, lead).value)
         || Listing(r, Opened, OmmPending) == []
         || RunGroupCloses(r, lead, queue, a, c)))
  }

  /** The state has no group label, if `closed`, and still its lead otherwise. */
  ghost predicate Ended(r: Repo, lead: Iid, closed: bool) {
    if closed then NoOmmLabels(r) else IsLead(r, lead)
  }

  lemma StandStillEnds(r: Repo, lead: Iid, active: bool)
    requires WellFormed(r) && LeadsOk(r) && IsLead(r, lead)
    ensures Ended(Play(r, StandStill(r, lead, false, active)), lead, !active)
  {
    if !active { CloseLegal(GROUP_TERMS, r, lead, None, false); }
  }

  lemma ExpandEnds(r: Repo, lead: Iid, kept: seq<Iid>, queue: seq<Item>, a: Answers, c: Config, active: bool)
    requires WellFormed(r) && LeadsOk(r) && IsLead(r, lead) && !c.dry && CanJoin(r, a, queue, kept)
    ensures Ended(Play(r, Expand(r, lead, kept, queue, a, c, active)), lead, StandsStill(r, lead, kept, queue, a, active))
  {
    var cands := Newcomers(r, lead, kept, queue);
    var w := Enlist(a, cands);
    NewcomersLegal(GROUP_TERMS, r, lead, kept, queue, a);
    MidPass(GROUP_TERMS, r, w, lead);
    var waits := active || Retained(a, c.dry, cands) != [];
    StandStillEnds(Play(r, w), lead, waits);
    PlayConcat(r, w, StandStill(Play(r, w), lead, false, waits));
  }

  /** The merge-limit call is made with the kept members, which cover every open pending MR: it leaves no
      label.  Otherwise the pass ends as the expansion does. */
  lemma RunGroupEndsWhole(r: Repo, lead: Iid, queue: seq<Item>, a: Answers, c: Config)
    requires WellFormed(r) && LeadsOk(r) && IsLead(r, lead) && IsListing(r, queue) && Plausible(r, a) && !c.dry
    ensures Ended(Play(r, RunGroup(r, lead, Listing(r, Opened, OmmPending), queue, a, c).writes), lead, RunGroupCloses(r, lead, queue, a, c))
  {
    var pending := Listing(r, Opened, OmmPending);
    var kept := Keep(r, pending, TenantsOf(r, lead));
    var w1 := Unpend(Overlapping(r, pending, TenantsOf(r, lead)));
    var r1 := Play(r, w1);
    var m := Members(r1, kept, a, c.dry, 0, c.limit);
    var r2 := Play(r1, m.writes);
    var w3 := if m.capped then Close(r2, lead, Some(kept), c.dry) else Expand(r2, lead, kept, queue, a, c, m.active);
    AfterEjecting(GROUP_TERMS, r, lead, c.dry);
    MidGroup(GROUP_TERMS, r, lead, queue, a, c);
    if m.capped {
      RunGroupEnds(GROUP_TERMS, r1, lead, kept, a, c);
    } else {
      ExpandEnds(r2, lead, kept, queue, a, c, m.active);
    }
    PlayConcat(r1, m.writes, w3);
    PlayConcat(r, w1, m.writes + w3);
  }

  /** With a unique lead, a completed group pass leaves no group label on open, closed or merged MRs if
      and only if it had one of its reasons to clear the group - a closed window, failed CI, a foreign
      HEAD, no pending member, the merge limit, or standing still - and otherwise keeps its lead. */
  lemma GroupPassClosesIff(r: Repo, lead: Iid, queue: seq<Item>, a: Answers, c: Config)
    requires WellFormed(r) && LeadsOk(r) && IsLead(r, lead) && IsListing(r, queue) && Plausible(r, a) && !c.dry
    ensures var r' := Play(r, GroupPass(r, lead, queue, a, c).writes);
            && (NoOmmLabels(r') <==> GroupCloses(r, lead, queue, a, c))
            && (!NoOmmLabels(r') ==> IsLead(r', lead))
  {
    var pending := Listing(r, Opened, OmmPending);
    CloseLegal(GROUP_TERMS, r, lead, None, c.dry);
    if pending == [] {
      forall i ensures !Matches(r, i, Opened, OmmPending) {
        assert i in r.mrs ==> i in r.order;
        assert i !in pending;
      }
      CloseLegal(GROUP_TERMS, r, lead, Some([]), c.dry);
    }
    RunGroupEndsWhole(r, lead, queue, a, c);
    assert Ended(Play(r, GroupPass(r, lead, queue, a, c).writes), lead, GroupCloses(r, lead, queue, a, c));
  }

  /** So a completed group pass leaves no group label at all, or its lead - with a disjoint group, once
      past the missing-lead-sha return and if no listed MR has changed its tenants since. */
  lemma GroupPassAllOrNothing(r: Repo, lead: Iid, queue: seq<Item>, a: Answers, c: Config)
    requires WellFormed(r) && LeadsOk(r) && IsLead(r, lead) && IsListing(r, queue) && Plausible(r, a) && !c.dry
    ensures var r' := Play(r, GroupPass(r, lead, queue, a, c).writes);
            NoOmmLabels(r') || (IsLead(r', lead) && (GetsPastLeadSha(r, lead, c) && TenantsListed(r, queue) ==> DisjointGroup(r', lead)))
  {
    if GetsPastLeadSha(r, lead, c) && TenantsListed(r, queue) { GroupPassDisjoint(r, lead, queue, a, c); }
    GroupPassClosesIff(r, lead, queue, a, c);
  }

  // --- Pre-fetched member lists ---------------------------------------------------------

  /** The exact condition on a pre-fetched member list: with a unique lead, `clear_omm_group` leaves
      no group label anywhere if and only if the list names every open pending MR. */
  lemma ClearIffCovering(r: Repo, lead: Option<Iid>, pending: seq<Iid>)
    requires WellFormed(r) && LeadsOk(r) && (lead.Some? ==> IsLead(r, lead.value))
    requires forall i :: i in pending ==> i in r.mrs
    ensures NoOmmLabels(Play(r, Clear(r, lead, Some(pending)))) <==> Covers(r, Some(pending))
  {
    if Covers(r, Some(pending)) {
      ClearLegal(GROUP_TERMS, r, lead, Some(pending));
    } else {
      var i :| Matches(r, i, Opened, OmmPending) && i !in pending;
      UntouchedMember(r, lead, pending, i);
    }
  }

  lemma UntouchedMember(r: Repo, lead: Option<Iid>, pending: seq<Iid>, i: Iid)
    requires WellFormed(r) && LeadsOk(r) && (lead.Some? ==> IsLead(r, lead.value))
    requires Matches(r, i, Opened, OmmPending) && i !in pending
    ensures Matches(Play(r, Clear(r, lead, Some(pending))), i, Opened, OmmPending)
  {
    var w := Dethrone(r, lead);
    var r1 := Play(r, w);
    DethroneLegal(GROUP_TERMS, r, lead);
    assert Matches(r1, i, Opened, OmmPending);
    UntouchedByUnpending(r1, pending, i);
    assert Clear(r, lead, Some(pending)) == w + UnpendEverywhere(r1, pending);
    PlayConcat(r, w, UnpendEverywhere(r1, pending));
  }

  lemma UntouchedByUnpending(r: Repo, pending: seq<Iid>, i: Iid)
    requires Matches(r, i, Opened, OmmPending) && i !in pending
    ensures Matches(Play(r, UnpendEverywhere(r, pending)), i, Opened, OmmPending)
  {
    var r2 := Play(r, Unpend(pending));
    var closed := Listing(r2, Closed, OmmPending);
    var r3 := Play(r2, Unpend(closed));
    var merged := Listing(r3, Merged, OmmPending);
    PlayUnpend(r, pending);
    PlayUnpend(r2, closed);
    PlayUnpend(r3, merged);
    PlayConcat(r2, Unpend(closed), Unpend(merged));
    PlayConcat(r, Unpend(pending), Unpend(closed) + Unpend(merged));
  }

  // --- At most one landing per branch ---------------------------------------------------

  function CountLands(r: Repo, ws: seq<Write>, b: Branch): nat {
    if ws == [] then 0
    else (if ws[0].Land? && TargetOf(r, ws[0].iid) == b then 1 else 0) + CountLands(r, ws[1..], b)
  }

  lemma {:induction false} CountConcat(r: Repo, a: seq<Write>, b: seq<Write>, t: Branch)
    ensures CountLands(r, a + b, t) == CountLands(r, a, t) + CountLands(r, b, t)
    decreases |a|
  {
    if a == [] {
      assert a + b == b;
    } else {
      assert (a + b)[1..] == a[1..] + b;
      CountConcat(r, a[1..], b, t);
    }
  }

  lemma {:induction false} CountNothing(r: Repo, ws: seq<Write>, b: Branch)
    requires forall w :: w in ws ==> !w.Land?
    ensures CountLands(r, ws, b) == 0
  {
    if ws != [] { CountNothing(r, ws[1..], b); }
  }

  lemma {:induction false} CountFrame(r: Repo, r': Repo, ws: seq<Write>, b: Branch)
    requires forall i :: TargetOf(r', i) == TargetOf(r, i)
    ensures CountLands(r', ws, b) == CountLands(r, ws, b)
  {
    if ws != [] { CountFrame(r, r', ws[1..], b); }
  }

  /** The commits of `ids` that target `b` all lack the HEAD of `b`. */
  ghost predicate Behind(r: Repo, ids: seq<Iid>, b: Branch) {
    forall i :: i in ids && TargetOf(r, i) == b ==> Head(r, b) !in Reach(r, ShaOf(r, i))
  }

  /** No landing by plain fast-forward brings another member's history along with it. */
  ghost predicate LandsApart(r: Repo, ids: seq<Iid>, a: Answers) {
    forall i, j :: i in ids && j in ids && i != j && a.land(i) == Landed(FastForward) ==> ShaOf(r, i) !in Reach(r, ShaOf(r, j))
  }

  /** At most one write, naming only that member and touching only group and error labels. */
  ghost predicate OneWriteOf(ws: seq<Write>, i: Iid) {
    ws == [] || (|ws| == 1 && ws[0].iid == i && IsOwnWrite(ws[0]))
  }

  lemma MemberShape(r: Repo, i: Iid, a: Answers, dry: bool)
    ensures var w := Member(r, i, a, dry).writes;
            && OneWriteOf(w, i)
            && (w != [] && w[0].Land? ==> a.land(i) == Landed(w[0].how) && IsRebased(r, ShaOf(r, i), TargetOf(r, i)))
  {
  }

  /** Such a write leaves every other MR, all targets and all old history alone. */
  lemma OneWriteFrame(r: Repo, ws: seq<Write>, i: Iid)
    requires WellFormed(r) && i in r.mrs && OneWriteOf(ws, i)
    ensures var r1 := Play(r, ws);
            && WellFormed(r1) && Extends(r, r1) && r.heads.Keys <= r1.heads.Keys
            && (forall j :: j in r.mrs && j != i ==> j in r1.mrs && r1.mrs[j] == r.mrs[j])
            && (forall j :: TargetOf(r1, j) == TargetOf(r, j))
            && (forall b :: b in r.heads && CountLands(r, ws, b) == 0 ==> Head(r1, b) == Head(r, b))
  {
    WellFormedPlay(r, ws);
    if ws != [] {
      var w := ws[0];
      assert ws == [w] && Play(r, ws) == Do(r, w);
      HeadsFrame(r, w);
      forall b | b in r.heads && CountLands(r, ws, b) == 0 ensures Head(Do(r, w), b) == Head(r, b) {
        assert !(w.Land? && TargetOf(r, w.iid) == b);
      }
    }
  }

  lemma HeadsFrame(r: Repo, w: Write)
    requires w.iid in r.mrs && r.mrs[w.iid].target in r.heads
    ensures Do(r, w).heads.Keys == r.heads.Keys && Do(r, w).mrs.Keys == r.mrs.Keys
    ensures forall b :: b in r.heads && !(w.Land? && r.mrs[w.iid].target == b) ==> Do(r, w).heads[b] == r.heads[b]
    ensures forall j :: j in r.mrs ==> Do(r, w).mrs[j].target == r.mrs[j].target && (j != w.iid ==> Do(r, w).mrs[j] == r.mrs[j])
  {
  }

  lemma BehindStays(r: Repo, i: Iid, ws: seq<Write>, rest: seq<Iid>, b: Branch)
    requires WellFormed(r) && i in r.mrs && OneWriteOf(ws, i) && CountLands(r, ws, b) == 0
    requires Behind(r, rest, b) && b in r.heads && i !in rest && (forall j :: j in rest ==> j in r.mrs)
    ensures var r1 := Play(r, ws);
            && WellFormed(r1) && Behind(r1, rest, b) && b in r1.heads
            && (forall j :: j in rest ==> j in r1.mrs)
            && (forall j :: TargetOf(r1, j) == TargetOf(r, j))
  {
    OneWriteFrame(r, ws, i);
    var r1 := Play(r, ws);
    forall j | j in rest && TargetOf(r1, j) == b ensures Head(r1, b) !in Reach(r1, ShaOf(r1, j)) {
      assert r1.mrs[j] == r.mrs[j] && Reach(r1, ShaOf(r1, j)) == Reach(r, ShaOf(r, j));
    }
  }

  /** A member behind `b` is not landed on `b`. */
  lemma BehindDoesNotLand(r: Repo, i: Iid, a: Answers, dry: bool, b: Branch)
    requires WellFormed(r) && b in r.heads && (TargetOf(r, i) == b ==> Head(r, b) !in Reach(r, ShaOf(r, i)))
    ensures CountLands(r, Member(r, i, a, dry).writes, b) == 0
  {
    MemberShape(r, i, a, dry);
    assert Head(r, b) in Reach(r, Head(r, b));
  }

  lemma {:induction false} NoLandingBehind(r: Repo, ids: seq<Iid>, a: Answers, dry: bool, merges: nat, limit: int, b: Branch)
    requires WellFormed(r) && NoDup(ids) && (forall i :: i in ids ==> i in r.mrs) && Behind(r, ids, b) && b in r.heads
    ensures CountLands(r, Members(r, ids, a, dry, merges, limit).writes, b) == 0
    decreases |ids|
  {
    if ids != [] {
      var m := Member(r, ids[0], a, dry);
      var r1 := Play(r, m.writes);
      assert ids[0] in ids && ids[0] !in ids[1..];
      MemberShape(r, ids[0], a, dry);
      BehindDoesNotLand(r, ids[0], a, dry, b);
      BehindStays(r, ids[0], m.writes, ids[1..], b);
      var n := if m.merged then merges + 1 else merges;
      if !(m.merged && merges + 1 >= limit) {
        NoLandingBehind(r1, ids[1..], a, dry, n, limit, b);
        var rest := Members(r1, ids[1..], a, dry, n, limit).writes;
        CountFrame(r, r1, rest, b);
        CountConcat(r, m.writes, rest, b);
      }
    }
  }

  /** Once a member has landed, every other member of its branch is behind. */
  lemma LandingLeavesBehind(r: Repo, i: Iid, how: Landing, rest: seq<Iid>)
    requires IsWired(r) && IsGraph(r.anc, r.next) && i in r.mrs && i !in rest && (forall j :: j in rest ==> j in r.mrs)
    requires how == FastForward ==> forall j :: j in rest ==> r.mrs[i].sha !in Reach(r, r.mrs[j].sha)
    ensures Behind(Do(r, Land(i, how)), rest, r.mrs[i].target)
  {
    var r1 := Do(r, Land(i, how));
    var t := r.mrs[i].target;
    GraphStep(r, Land(i, how));
    forall j | j in rest && TargetOf(r1, j) == t ensures Head(r1, t) !in Reach(r1, ShaOf(r1, j)) {
      assert r1.mrs[j] == r.mrs[j];
      var c := r.mrs[j].sha;
      assert c in r.anc && Reach(r1, c) == r.anc[c];
      if how != FastForward {
        assert Head(r1, t) >= r.next;
        assert IsClosed(r.anc, r.anc[c]);
        assert Head(r1, t) in r.anc[c] ==> Head(r1, t) in r.anc;
      }
    }
  }

  lemma ApartStays(r: Repo, ids: seq<Iid>, a: Answers, ws: seq<Write>)
    requires WellFormed(r) && NoDup(ids) && ids != [] && LandsApart(r, ids, a) && (forall i :: i in ids ==> i in r.mrs)
    requires OneWriteOf(ws, ids[0])
    ensures var r1 := Play(r, ws);
            && WellFormed(r1) && LandsApart(r1, ids[1..], a)
            && (forall i :: i in ids[1..] ==> i in r1.mrs)
            && (forall j :: TargetOf(r1, j) == TargetOf(r, j))
  {
    var r1 := Play(r, ws);
    OneWriteFrame(r, ws, ids[0]);
    forall i | i in ids[1..] ensures i in ids && i in r1.mrs && r1.mrs[i] == r.mrs[i] && Reach(r1, ShaOf(r1, i)) == Reach(r, ShaOf(r, i)) {
      assert i in ids && i != ids[0];
    }
  }

  /** The first member's step leaves the others apart. */
  lemma FirstApart(r: Repo, ids: seq<Iid>, a: Answers)
    requires WellFormed(r) && NoDup(ids) && ids != [] && LandsApart(r, ids, a) && (forall i :: i in ids ==> i in r.mrs)
    ensures var ws := Member(r, ids[0], a, false).writes;
            var r1 := Play(r, ws);
            && OneWriteOf(ws, ids[0]) && (ws != [] && ws[0].Land? ==> a.land(ids[0]) == Landed(ws[0].how))
            && WellFormed(r1) && NoDup(ids[1..]) && LandsApart(r1, ids[1..], a)
            && (forall i :: i in ids[1..] ==> i in r1.mrs)
            && (forall j :: TargetOf(r1, j) == TargetOf(r, j))
  {
    NoDupTail(ids);
    MemberShape(r, ids[0], a, false);
    ApartStays(r, ids, a, Member(r, ids[0], a, false).writes);
  }

  lemma {:induction false} MembersLandOnce(r: Repo, ids: seq<Iid>, a: Answers, merges: nat, limit: int, b: Branch)
    requires WellFormed(r) && NoDup(ids) && (forall i :: i in ids ==> i in r.mrs) && LandsApart(r, ids, a)
    ensures CountLands(r, Members(r, ids, a, false, merges, limit).writes, b) <= 1
    decreases |ids|
  {
    if ids != [] {
      var ws := Member(r, ids[0], a, false).writes;
      var r1 := Play(r, ws);
      var n := if Member(r, ids[0], a, false).merged then merges + 1 else merges;
      var rest := Members(r1, ids[1..], a, false, n, limit).writes;
      FirstApart(r, ids, a);
      CountFrame(r, r1, rest, b);
      CountConcat(r, ws, rest, b);
      if CountLands(r, ws, b) == 0 {
        MembersLandOnce(r1, ids[1..], a, n, limit, b);
      } else {
        assert ws == [Land(ids[0], ws[0].how)] && r1 == Do(r, ws[0]);
        LandedRest(r, ids, a, ws[0].how, n, limit);
      }
    }
  }

  /** After a landing on a branch nothing more lands on it in the same pass. */
  lemma LandedRest(r: Repo, ids: seq<Iid>, a: Answers, how: Landing, n: nat, limit: int)
    requires WellFormed(r) && NoDup(ids) && ids != [] && (forall i :: i in ids ==> i in r.mrs) && LandsApart(r, ids, a)
    requires a.land(ids[0]) == Landed(how)
    ensures var r1 := Do(r, Land(ids[0], how));
            CountLands(r1, Members(r1, ids[1..], a, false, n, limit).writes, TargetOf(r, ids[0])) == 0
  {
    var w := Land(ids[0], how);
    assert ids[0] in ids && ids[0] !in ids[1..];
    forall j | j in ids[1..] ensures j in ids && j in r.mrs && j != ids[0] {}
    LandingLeavesBehind(r, ids[0], how, ids[1..]);
    WellFormedStep(r, w);
    HeadsFrame(r, w);
    NoLandingBehind(Do(r, w), ids[1..], a, false, n, limit, TargetOf(r, ids[0]));
  }

  /** If a landing always yields a HEAD that no other member contains - which only a plain
      fast-forward of a commit below another member's can prevent - one group pass lands at most
      one MR on each target branch. */
  lemma GroupPassLandsOnce(r: Repo, lead: Iid, queue: seq<Item>, a: Answers, c: Config, b: Branch)
    requires WellFormed(r) && lead in r.mrs && LandsApart(r, Listing(r, Opened, OmmPending), a)
    ensures CountLands(r, GroupPass(r, lead, queue, a, c).writes, b) <= 1
  {
    var pending := Listing(r, Opened, OmmPending);
    if c.windowOpen && c.ciHealthy && LeadSha(r, lead).Some? && IsIntact(r, lead, LeadSha(r, lead).value) && pending != [] {
      RunGroupLandsOnce(r, lead, queue, a, c, b);
    } else {
      ClearLandsNothing(r, Some(lead), None);
      ClearLandsNothing(r, Some(lead), Some([]));
      CountNothing(r, GroupPass(r, lead, queue, a, c).writes, b);
    }
  }

  lemma RunGroupLandsOnce(r: Repo, lead: Iid, queue: seq<Item>, a: Answers, c: Config, b: Branch)
    requires WellFormed(r) && lead in r.mrs && LandsApart(r, Listing(r, Opened, OmmPending), a)
    ensures CountLands(r, RunGroup(r, lead, Listing(r, Opened, OmmPending), queue, a, c).writes, b) <= 1
  {
    var pending := Listing(r, Opened, OmmPending);
    var kept := Keep(r, pending, TenantsOf(r, lead));
    var out := Overlapping(r, pending, TenantsOf(r, lead));
    var w1 := Emit(c.dry, Unpend(out));
    var r1 := Play(r, w1);
    var m := Members(r1, kept, a, c.dry, 0, c.limit);
    var r2 := Play(r1, m.writes);
    var w3 := if m.capped then Close(r2, lead, Some(kept), c.dry) else Expand(r2, lead, kept, queue, a, c, m.active);
    UnpendLandsNothing(out);
    ClearLandsNothing(r2, Some(lead), Some(kept));
    if !m.capped { ExpandLandsNothing(r2, lead, kept, queue, a, c, m.active); }
    CountNothing(r, w1, b);
    CountNothing(r, w3, b);
    CountConcat(r, m.writes, w3, b);
    CountConcat(r, w1, m.writes + w3, b);
    if c.dry {
      DryMembers(r1, kept, a, 0, c.limit);
    } else {
      KeptLandOnce(r, lead, a, c, b);
    }
  }

  lemma KeptLandOnce(r: Repo, lead: Iid, a: Answers, c: Config, b: Branch)
    requires WellFormed(r) && lead in r.mrs && LandsApart(r, Listing(r, Opened, OmmPending), a)
    ensures var pending := Listing(r, Opened, OmmPending);
            var kept := Keep(r, pending, TenantsOf(r, lead));
            var r1 := Play(r, Unpend(Overlapping(r, pending, TenantsOf(r, lead))));
            CountLands(r, Members(r1, kept, a, false, 0, c.limit).writes, b) <= 1
  {
    var pending := Listing(r, Opened, OmmPending);
    var kept := Keep(r, pending, TenantsOf(r, lead));
    var out := Overlapping(r, pending, TenantsOf(r, lead));
    var r1 := Play(r, Unpend(out));
    AfterEjecting(GROUP_TERMS, r, lead, false);
    SelectNoDup(r, r.order, Opened, OmmPending);
    KeepSplits(r, pending, TenantsOf(r, lead));
    PlayUnpend(r, out);
    WellFormedPlay(r, Unpend(out));
    assert forall i :: ShaOf(r1, i) == ShaOf(r, i) && TargetOf(r1, i) == TargetOf(r, i);
    MembersLandOnce(r1, kept, a, 0, c.limit, b);
    CountFrame(r, r1, Members(r1, kept, a, false, 0, c.limit).writes, b);
  }

  lemma ExpandLandsNothing(r: Repo, lead: Iid, kept: seq<Iid>, queue: seq<Item>, a: Answers, c: Config, active: bool)
    ensures forall w :: w in Expand(r, lead, kept, queue, a, c, active) ==> !w.Land?
  {
    var w := Emit(c.dry, Enlist(a, Newcomers(r, lead, kept, queue)));
    EnlistLandsNothing(a, Newcomers(r, lead, kept, queue));
    ClearLandsNothing(Play(r, w), Some(lead), None);
  }
}
