/** A group pass does its work: a group it leaves open has somebody to wait for, and every member it
    keeps is still worth waiting for. */
module MergeQueueProgress {
  import opened Common
  import opened GitLabRepo
  import opened MergeQueue
  import opened MergeQueueRules
  import opened MergeQueueLegal
  import opened MergeQueueGroups

  /** No hold label, no error label but a refused merge, a commit GitLab knows, and no failed pipeline. */
  ghost predicate IsHealthy(r: Repo, i: Iid, a: Answers) {
    && LabelsOf(r, i) * HOLD_LABELS == {} && LabelsOf(r, i) * ERROR_LABELS <= {MergeError}
    && !a.missing(i)
    && (var live := Signal(PipelinesOf(r, i)); live != [] ==> live[0].status != Failed && live[0].status != Canceled)
  }

  ghost predicate HasMember(r: Repo) {
    exists i :: IsMember(r, i)
  }

  /** One member: an active one stays a member, and whoever stays is healthy. */
  lemma MemberStays(r: Repo, i: Iid, a: Answers)
    requires IsMember(r, i)
    ensures var m := Member(r, i, a, false);
            var r1 := Play(r, m.writes);
            && (m.active ==> IsMember(r1, i))
            && (IsMember(r1, i) ==> IsHealthy(r1, i, a))
  {
    var m := Member(r, i, a, false);
    if m.writes != [] {
      assert m.writes == [m.writes[0]] && m.writes[1..] == [];
      assert Play(r, m.writes) == Do(r, m.writes[0]);
    }
    assert (LabelsOf(r, i) + {MergeError}) * HOLD_LABELS == LabelsOf(r, i) * HOLD_LABELS;
    assert (LabelsOf(r, i) + {MergeError}) * ERROR_LABELS <= LabelsOf(r, i) * ERROR_LABELS + {MergeError};
  }

  ghost predicate AllMembers(r: Repo, ids: seq<Iid>) {
    NoDup(ids) && forall i :: i in ids ==> IsMember(r, i)
  }

  lemma OthersStay(r: Repo, ids: seq<Iid>, a: Answers)
    requires AllMembers(r, ids) && ids != []
    ensures var r1 := Play(r, Member(r, ids[0], a, false).writes);
            AllMembers(r1, ids[1..]) && ids[0] !in ids[1..]
  {
    var ws := Member(r, ids[0], a, false).writes;
    NoDupTail(ids);
    assert ids[0] in ids && IsMember(r, ids[0]);
    MemberLegal(GROUP_TERMS, r, ids[0], a, false);
    forall i | i in ids[1..] ensures IsMember(Play(r, ws), i) {
      assert i in ids && IsMember(r, i);
      PlayLeaves(r, ws, i);
    }
  }

  /** After the members `ids`: if one of them is active some member is left, and unless the limit
      stopped the pass everyone left is healthy. */
  ghost predicate Stayed(r': Repo, ids: seq<Iid>, a: Answers, active: bool, capped: bool) {
    !capped ==>
      && (active ==> exists i :: i in ids && IsMember(r', i))
      && (forall i :: i in ids && IsMember(r', i) ==> IsHealthy(r', i, a))
  }

  lemma StayedCons(r1: Repo, r': Repo, ids: seq<Iid>, a: Answers, active: bool, later: bool, capped: bool)
    requires ids != [] && ids[0] in r1.mrs && ids[0] in r'.mrs && r'.mrs[ids[0]] == r1.mrs[ids[0]]
    requires (active ==> IsMember(r1, ids[0])) && (IsMember(r1, ids[0]) ==> IsHealthy(r1, ids[0], a))
    requires Stayed(r', ids[1..], a, later, capped)
    ensures Stayed(r', ids, a, active || later, capped)
  {
    if !capped {
      assert forall i :: i in ids <==> i == ids[0] || i in ids[1..];
      if active {
        assert ids[0] in ids && IsMember(r', ids[0]);
      } else if later {
        var i :| i in ids[1..] && IsMember(r', i);
        assert i in ids;
      }
    }
  }

  lemma {:induction false} MembersStay(r: Repo, ids: seq<Iid>, a: Answers, merges: nat, limit: int)
    requires AllMembers(r, ids)
    ensures var m := Members(r, ids, a, false, merges, limit);
            Stayed(Play(r, m.writes), ids, a, m.active, m.capped)
    decreases |ids|
  {
    if ids != [] {
      var m := Member(r, ids[0], a, false);
      var n := if m.merged then merges + 1 else merges;
      if !(m.merged && merges + 1 >= limit) {
        var r1 := Play(r, m.writes);
        assert ids[0] in ids && IsMember(r, ids[0]);
        MemberStays(r, ids[0], a);
        OthersStay(r, ids, a);
        LaterMembers(r, r1, ids, a, n, limit);
        var rest := Members(r1, ids[1..], a, false, n, limit);
        MembersStay(r1, ids[1..], a, n, limit);
        PlayConcat(r, m.writes, rest.writes);
        StayedCons(r1, Play(r1, rest.writes), ids, a, m.active, rest.active, rest.capped);
      }
    }
  }

  /** The later members' writes leave the first one alone. */
  lemma LaterMembers(r: Repo, r1: Repo, ids: seq<Iid>, a: Answers, n: nat, limit: int)
    requires ids != [] && ids[0] in r.mrs && r1 == Play(r, Member(r, ids[0], a, false).writes)
    requires ids[0] !in ids[1..] && AllMembers(r1, ids[1..])
    ensures var ws := Members(r1, ids[1..], a, false, n, limit).writes;
            ids[0] in r1.mrs && ids[0] in Play(r1, ws).mrs && Play(r1, ws).mrs[ids[0]] == r1.mrs[ids[0]]
  {
    var w := Member(r, ids[0], a, false).writes;
    PlayKeys(r, w);
    assert ids[0] in r1.mrs.Keys;
    MembersLegal(GROUP_TERMS, r1, ids[1..], a, false, n, limit);
    PlayLeaves(r1, Members(r1, ids[1..], a, false, n, limit).writes, ids[0]);
  }

  // --- Newcomers ------------------------------------------------------------------------

  lemma EnlistedStays(r: Repo, a: Answers, i: Iid)
    requires i in r.mrs && r.mrs[i].state == Opened && a.rebase(i).Accepted?
    ensures IsMember(Play(r, EnlistOne(a, i)), i)
  {
    var w1, w2 := AddLabel(i, OmmPending), Rebase(i, a.rebase(i).moved);
    PlayTwo(r, w1, w2);
    assert EnlistOne(a, i) == [w1, w2];
    assert OmmPending in Do(r, w1).mrs[i].labels && Do(r, w1).mrs[i].state == Opened;
  }

  /** A retained newcomer is an open pending MR. */
  lemma {:induction false} RetainedStays(r: Repo, a: Answers, cands: seq<Iid>)
    requires NoDup(cands) && (forall i :: i in cands ==> CanEnlist(r, a, i)) && Retained(a, false, cands) != []
    ensures exists i :: i in cands && IsMember(Play(r, Enlist(a, cands)), i)
    decreases |cands|
  {
    var c, rest := cands[0], cands[1..];
    var r1 := Play(r, EnlistOne(a, c));
    NoDupTail(cands);
    assert c in cands;
    EnlistOneLegal(GROUP_TERMS, r, a, c, {c});
    forall i | i in rest ensures i in cands && CanEnlist(r1, a, i) {
      PlayLeaves(r, EnlistOne(a, c), i);
    }
    PlayConcat(r, EnlistOne(a, c), Enlist(a, rest));
    if a.rebase(c).Accepted? {
      EnlistedStays(r, a, c);
      EnlistLegal(GROUP_TERMS, r1, a, rest, Elems(rest));
      PlayLeaves(r1, Enlist(a, rest), c);
    } else {
      RetainedStays(r1, a, rest);
      var i :| i in rest && IsMember(Play(r1, Enlist(a, rest)), i);
      assert i in cands;
    }
  }

  lemma {:induction false} IidsNoDup(items: seq<Item>)
    requires DistinctItems(items)
    ensures NoDup(Iids(items))
  {
    if items != [] {
      forall j, k | 0 <= j < k < |items[1..]| ensures items[1..][j].iid != items[1..][k].iid {
        assert items[1..][j] == items[j + 1] && items[1..][k] == items[k + 1];
      }
      IidsNoDup(items[1..]);
      IidsFrom(items[1..]);
      forall it | it in items[1..] ensures it.iid != items[0].iid {
        var k :| 0 <= k < |items[1..]| && items[1..][k] == it;
        assert items[k + 1] == it;
      }
      NoDupCons(items[0].iid, Iids(items[1..]));
    }
  }

  lemma {:induction false} FormDistinct(r: Repo, queue: seq<Item>, taken: set<Label>)
    requires DistinctItems(queue)
    ensures DistinctItems(Form(r, queue, taken)) && forall it :: it in Form(r, queue, taken) ==> it in queue
  {
    if queue != [] {
      var q := queue[1..];
      forall j, k | 0 <= j < k < |q| ensures q[j].iid != q[k].iid { assert q[j] == queue[j + 1] && q[k] == queue[k + 1]; }
      forall it | it in q ensures it.iid != queue[0].iid {
        var k :| 0 <= k < |q| && q[k] == it;
        assert queue[k + 1] == it;
      }
      FormDistinct(r, q, taken);
      FormDistinct(r, q, taken + TenantLabels(queue[0].labels));
    }
  }

  lemma {:induction false} WithoutDistinct(queue: seq<Item>, ids: seq<Iid>)
    requires DistinctItems(queue)
    ensures DistinctItems(Without(queue, ids)) && forall it :: it in Without(queue, ids) ==> it in queue && it.iid !in ids
  {
    if queue != [] {
      var q := queue[1..];
      forall j, k | 0 <= j < k < |q| ensures q[j].iid != q[k].iid { assert q[j] == queue[j + 1] && q[k] == queue[k + 1]; }
      forall it | it in q ensures it.iid != queue[0].iid {
        var k :| 0 <= k < |q| && q[k] == it;
        assert queue[k + 1] == it;
      }
      WithoutDistinct(q, ids);
    }
  }

  lemma NewcomersAreNew(r: Repo, lead: Iid, kept: seq<Iid>, queue: seq<Item>)
    requires DistinctItems(queue)
    ensures NoDup(Newcomers(r, lead, kept, queue)) && forall i :: i in Newcomers(r, lead, kept, queue) ==> i !in kept
  {
    var pool, taken := Without(queue, kept), TenantsOf(r, lead) + AllTenants(r, kept);
    WithoutDistinct(queue, kept);
    FormDistinct(r, pool, taken);
    IidsNoDup(Form(r, pool, taken));
    IidsFrom(Form(r, pool, taken));
  }

  /** A group is expanded and left open only with a member in it, and kept members stay as they were. */
  lemma ExpandKeepsMember(r: Repo, lead: Iid, kept: seq<Iid>, queue: seq<Item>, a: Answers, c: Config, active: bool)
    requires !c.dry && DistinctItems(queue) && (active ==> exists i :: i in kept && IsMember(r, i))
    requires CanJoin(r, a, queue, kept)
    requires active || Retained(a, c.dry, Newcomers(r, lead, kept, queue)) != []
    ensures var r' := Play(r, Expand(r, lead, kept, queue, a, c, active));
            && HasMember(r')
            && (forall i :: i in kept && i in r.mrs ==> i in r'.mrs && r'.mrs[i] == r.mrs[i])
  {
    var cands := Newcomers(r, lead, kept, queue);
    var w := Enlist(a, cands);
    NewcomersAreNew(r, lead, kept, queue);
    NewcomersListed(r, lead, kept, queue);
    NewcomersLegal(GROUP_TERMS, r, lead, kept, queue, a);
    assert Expand(r, lead, kept, queue, a, c, active) == w + [] == w;
    forall i | i in kept && i in r.mrs ensures i in Play(r, w).mrs && Play(r, w).mrs[i] == r.mrs[i] {
      PlayLeaves(r, w, i);
    }
    if active {
      var i :| i in kept && IsMember(r, i);
      assert IsMember(Play(r, w), i);
    } else {
      RetainedStays(r, a, cands);
    }
  }

  // --- A whole pass ---------------------------------------------------------------------

  /** Somebody to wait for, and every member enlisted by these very writes or healthy. */
  ghost predicate WorthWaiting(r: Repo, a: Answers, ws: seq<Write>) {
    HasMember(r) && forall i :: IsMember(r, i) ==> AddLabel(i, OmmPending) in ws || IsHealthy(r, i, a)
  }

  lemma ExpandWorthWaiting(r: Repo, lead: Iid, kept: seq<Iid>, queue: seq<Item>, a: Answers, c: Config, active: bool)
    requires WellFormed(r) && LeadsOk(r) && IsLead(r, lead) && !c.dry && DistinctItems(queue)
    requires CanJoin(r, a, queue, kept)
    requires active ==> exists i :: i in kept && IsMember(r, i)
    requires forall i :: IsMember(r, i) ==> i in kept && IsHealthy(r, i, a)
    ensures var ws := Expand(r, lead, kept, queue, a, c, active);
            NoOmmLabels(Play(r, ws)) || WorthWaiting(Play(r, ws), a, ws)
  {
    var cands := Newcomers(r, lead, kept, queue);
    var w := Enlist(a, cands);
    NewcomersLegal(GROUP_TERMS, r, lead, kept, queue, a);
    if active || Retained(a, c.dry, cands) != [] {
      ExpandKeepsMember(r, lead, kept, queue, a, c, active);
      assert Expand(r, lead, kept, queue, a, c, active) == w + [] == w;
      forall i | IsMember(Play(r, w), i) ensures AddLabel(i, OmmPending) in w || IsHealthy(Play(r, w), i, a) {
        if AddLabel(i, OmmPending) !in w {
          NoNewMembers(r, w, i);
          assert IsMember(r, i) && i in kept && Play(r, w).mrs[i] == r.mrs[i];
        }
      }
    } else {
      MidPass(GROUP_TERMS, r, w, lead);
      CloseLegal(GROUP_TERMS, Play(r, w), lead, None, false);
      PlayConcat(r, w, Close(Play(r, w), lead, None, false));
    }
  }

  /** After the member loop the members left are kept ones, and unless the limit stopped it they are
      healthy and an active pass has one. */
  lemma AfterMembers(r: Repo, lead: Iid, a: Answers, c: Config)
    requires WellFormed(r) && !c.dry
    ensures var pending := Listing(r, Opened, OmmPending);
            var kept := Keep(r, pending, TenantsOf(r, lead));
            var r1 := Play(r, Unpend(Overlapping(r, pending, TenantsOf(r, lead))));
            var m := Members(r1, kept, a, false, 0, c.limit);
            var r2 := Play(r1, m.writes);
            && (forall i :: IsMember(r2, i) ==> i in kept) && (forall i :: i in kept ==> i in r2.mrs)
            && Stayed(r2, kept, a, m.active, m.capped)
  {
    var pending := Listing(r, Opened, OmmPending);
    var kept := Keep(r, pending, TenantsOf(r, lead));
    var r1 := Play(r, Unpend(Overlapping(r, pending, TenantsOf(r, lead))));
    var m := Members(r1, kept, a, false, 0, c.limit);
    AfterEjecting(GROUP_TERMS, r, lead, false);
    MembersLegal(GROUP_TERMS, r1, kept, a, false, 0, c.limit);
    assert AllMembers(r1, kept);
    MembersStay(r1, kept, a, 0, c.limit);
    forall i | IsMember(Play(r1, m.writes), i) ensures i in kept { NoNewMembers(r1, m.writes, i); }
    PlayKeys(r1, m.writes);
    forall i | i in kept ensures i in Play(r1, m.writes).mrs { assert i in r1.mrs.Keys; }
  }

  /** What is worth waiting for after `w3` still is when more writes went before. */
  lemma WorthWaitingAfter(r: Repo, a: Answers, w1: seq<Write>, w2: seq<Write>, w3: seq<Write>)
    requires var r' := Play(Play(Play(r, w1), w2), w3); NoOmmLabels(r') || WorthWaiting(r', a, w3)
    ensures var ws := w1 + (w2 + w3); NoOmmLabels(Play(r, ws)) || WorthWaiting(Play(r, ws), a, ws)
  {
    PlayConcat(Play(r, w1), w2, w3);
    PlayConcat(r, w1, w2 + w3);
    assert forall x :: x in w3 ==> x in w1 + (w2 + w3);
  }

  /** How the pass goes on after the member loop. */
  function Rest(r: Repo, lead: Iid, kept: seq<Iid>, queue: seq<Item>, a: Answers, c: Config, m: MembersOutcome): seq<Write> {
    if m.capped then Close(r, lead, Some(kept), c.dry) else Expand(r, lead, kept, queue, a, c, m.active)
  }

  lemma RestWorthWaiting(r: Repo, lead: Iid, kept: seq<Iid>, queue: seq<Item>, a: Answers, c: Config, m: MembersOutcome)
    requires WellFormed(r) && LeadsOk(r) && IsLead(r, lead) && !c.dry && DistinctItems(queue) && CanJoin(r, a, queue, kept)
    requires (forall i :: IsMember(r, i) ==> i in kept) && (forall i :: i in kept ==> i in r.mrs)
    requires Stayed(r, kept, a, m.active, m.capped)
    ensures var ws := Rest(r, lead, kept, queue, a, c, m); NoOmmLabels(Play(r, ws)) || WorthWaiting(Play(r, ws), a, ws)
  {
    if m.capped {
      CloseLegal(GROUP_TERMS, r, lead, Some(kept), c.dry);
    } else {
      ExpandWorthWaiting(r, lead, kept, queue, a, c, m.active);
    }
  }

  lemma RunGroupWorthWaiting(r: Repo, lead: Iid, queue: seq<Item>, a: Answers, c: Config)
    requires WellFormed(r) && LeadsOk(r) && IsLead(r, lead) && IsListing(r, queue) && Plausible(r, a) && !c.dry
    ensures var ws := RunGroup(r, lead, Listing(r, Opened, OmmPending), queue, a, c).writes;
            NoOmmLabels(Play(r, ws)) || WorthWaiting(Play(r, ws), a, ws)
  {
    var pending := Listing(r, Opened, OmmPending);
    var kept := Keep(r, pending, TenantsOf(r, lead));
    var w1 := Emit(c.dry, Unpend(Overlapping(r, pending, TenantsOf(r, lead))));
    var r1 := Play(r, w1);
    var m := Members(r1, kept, a, c.dry, 0, c.limit);
    var r2 := Play(r1, m.writes);
    MidGroup(GROUP_TERMS, r, lead, queue, a, c);
    AfterMembers(r, lead, a, c);
    RestWorthWaiting(r2, lead, kept, queue, a, c, m);
    WorthWaitingAfter(r, a, w1, m.writes, Rest(r2, lead, kept, queue, a, c, m));
  }

  /** A completed group pass that gets past the missing-lead-sha return leaves no group label at all,
      or a group with at least one open member, each of them enlisted just now or healthy: without
      hold label, failed pipeline or error label other than that of a refused merge. */
  lemma OpenGroupIsWorthWaiting(r: Repo, lead: Iid, queue: seq<Item>, a: Answers, c: Config)
    requires WellFormed(r) && LeadsOk(r) && IsLead(r, lead) && IsListing(r, queue) && Plausible(r, a) && !c.dry && GetsPastLeadSha(r, lead, c)
    ensures var ws := GroupPass(r, lead, queue, a, c).writes;
            NoOmmLabels(Play(r, ws)) || WorthWaiting(Play(r, ws), a, ws)
  {
    var pending := Listing(r, Opened, OmmPending);
    CloseLegal(GROUP_TERMS, r, lead, None, false);
    if pending == [] {
      forall i ensures !Matches(r, i, Opened, OmmPending) {
        assert i in r.mrs ==> i in r.order;
        assert i !in pending;
      }
      CloseLegal(GROUP_TERMS, r, lead, Some([]), false);
    }
    RunGroupWorthWaiting(r, lead, queue, a, c);
  }

  // --- Two more promises ----------------------------------------------------------------

  /** An MR whose tenant labels are taken already - the lead's are - is never a candidate. */
  lemma {:induction false} TakenIsNeverChosen(r: Repo, queue: seq<Item>, taken: set<Label>, it: Item)
    requires TenantLabels(it.labels) <= taken
    ensures it !in Form(r, queue, taken)
  {
    if queue != [] {
      assert IsCandidate(r, queue[0]) && TenantLabels(queue[0].labels) * taken == {} ==> queue[0] != it by {
        if queue[0] == it { assert TenantLabels(it.labels) * taken == TenantLabels(it.labels); }
      }
      TakenIsNeverChosen(r, queue[1..], taken, it);
      TakenIsNeverChosen(r, queue[1..], taken + TenantLabels(queue[0].labels), it);
    }
  }

  /** The clean-up before a serial pass leaves no group label, if there was a reason for it. */
  lemma CleanUpClears(r: Repo, c: Config)
    requires WellFormed(r) && LeadsOk(r) && c.rebase && !c.dry
    requires if c.multi then FindLead(r).None? && Listing(r, Opened, OmmPending) != [] else FindLead(r).Some?
    ensures NoOmmLabels(Play(r, CleanUp(r, c)))
  {
    var pending := Listing(r, Opened, OmmPending);
    FindLeadFinds(r);
    forall i | Matches(r, i, Opened, OmmPending) ensures i in pending { assert i in r.order; }
    if c.multi { ClearLegal(GROUP_TERMS, r, None, Some(pending)); } else { ClearLegal(GROUP_TERMS, r, FindLead(r), None); }
  }

  /** How a pass begins.  With rebasing and group merging on and a merged MR that carries the lead label it
      processes the group.  Otherwise it merges serially, and cleans up before if and only if rebasing is
      on and there is a lead with group merging off, or a member with group merging on. */
  lemma PassBegins(r: Repo, queue: seq<Item>, a: Answers, c: Config)
    requires WellFormed(r) && !c.dry
    ensures var led, joined := exists i :: Matches(r, i, Merged, OmmGroupLead), exists i :: IsMember(r, i);
            var ws := MergePass(r, queue, a, c);
            if c.rebase && c.multi && led then
              exists lead :: Matches(r, lead, Merged, OmmGroupLead) && ws == GroupPass(r, lead, queue, a, c).writes
            else
              && (CleanUp(r, c) != [] <==> c.rebase && if c.multi then joined else led)
              && ws == CleanUp(r, c) + Serial(Play(r, CleanUp(r, c)), queue, queue, a, c, 0, {})
  {
    LedIff(r);
    JoinedIff(r);
    CleansUpIff(r, c);
    if c.rebase && c.multi && FindLead(r).Some? { assert Matches(r, FindLead(r).value, Merged, OmmGroupLead); }
  }

  lemma LedIff(r: Repo)
    requires WellFormed(r)
    ensures FindLead(r).Some? <==> exists i :: Matches(r, i, Merged, OmmGroupLead)
    ensures FindLead(r).Some? ==> Matches(r, FindLead(r).value, Merged, OmmGroupLead)
  {
    var leads := Listing(r, Merged, OmmGroupLead);
    if i :| Matches(r, i, Merged, OmmGroupLead) { assert i in r.order && i in leads; }
    if leads != [] { assert leads[0] in leads; }
  }

  lemma JoinedIff(r: Repo)
    requires WellFormed(r)
    ensures Listing(r, Opened, OmmPending) != [] <==> exists i :: IsMember(r, i)
  {
    var pending := Listing(r, Opened, OmmPending);
    if i :| IsMember(r, i) { assert i in r.order && i in pending; }
    if pending != [] { assert pending[0] in pending && IsMember(r, pending[0]); }
  }

  lemma CleansUpIff(r: Repo, c: Config)
    requires !c.dry
    ensures CleanUp(r, c) != [] <==> c.rebase && if c.multi then Listing(r, Opened, OmmPending) != [] else FindLead(r).Some?
  {
    ClearsSomething(r, FindLead(r), None);
    ClearsSomething(r, None, Some(Listing(r, Opened, OmmPending)));
  }

  lemma ClearsSomething(r: Repo, lead: Option<Iid>, pending: Option<seq<Iid>>)
    ensures lead.Some? || (pending.Some? && pending.value != []) ==> Clear(r, lead, pending) != []
  {
    if lead.Some? {
      assert |Dethrone(r, lead)| == 1;
    } else if pending.Some? && pending.value != [] {
      assert |Unpend(pending.value)| > 0;
      assert |UnpendEverywhere(Play(r, Dethrone(r, lead)), pending.value)| > 0;
    }
  }
}
