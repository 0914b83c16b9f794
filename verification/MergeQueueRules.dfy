/** The rule every single write of a pass obeys in the state in which it is made, and the proof
    that all writes of all passes obey it. */
module MergeQueueRules {
  import opened Common
  import opened GitLabRepo
  import opened MergeQueue

  /** A label that approves an MR. */
  predicate Approves(l: Label) {
    match l
    case PrioritizedApproval(_) => true
    case BotApproved => true
    case AutoMerge => true
    case Lgtm => true
    case _ => false
  }

  /** A label that keeps an MR on hold. */
  predicate Holds(l: Label) {
    match l
    case AwaitingApproval => true
    case BlockedBotAccess => true
    case ChangesRequested => true
    case BotHold => true
    case DoNotMergeHold => true
    case DoNotMergePendingReview => true
    case NeedsRebase => true
    case _ => false
  }

  ghost predicate IsLead(r: Repo, i: Iid) {
    i in r.mrs && OmmGroupLead in r.mrs[i].labels
  }

  ghost predicate NoLead(r: Repo) {
    forall i :: !IsLead(r, i)
  }

  /** At most one MR carries the lead label, and only a merged one. */
  ghost predicate LeadsOk(r: Repo) {
    && (forall i :: IsLead(r, i) ==> r.mrs[i].state == Merged)
    && (forall i, j :: IsLead(r, i) && IsLead(r, j) ==> i == j)
  }

  predicate StartsGreen(ps: seq<Pipeline>) {
    ps != [] && ps[0].status == Success
  }

  /** The newest pipeline that is not skipped was not started by a push, or succeeded. */
  predicate NoPushInFront(ps: seq<Pipeline>) {
    var live := NonSkipped(ps);
    live != [] ==> !live[0].push || live[0].status == Success
  }

  /** The exact condition: a green newest pipeline with a signal means a green newest non-skipped one if
      and only if no unsuccessful push pipeline stands in front of it. */
  lemma {:induction false} GreenIffNoPushInFront(ps: seq<Pipeline>)
    requires StartsGreen(Signal(ps))
    ensures StartsGreen(NonSkipped(ps)) <==> NoPushInFront(ps)
  {
    if ps[0].status == Skipped { GreenIffNoPushInFront(ps[1..]); }
  }

  /** On the serial path, without a lead, the newest pipeline that is not skipped succeeded; for a
      pending member it is the newest one with a signal.  While a group is open only members land. */
  ghost predicate GreenToLand(on: bool, r: Repo, i: Iid)
    requires i in r.mrs
  {
    || ((on ==> NoLead(r)) && StartsGreen(NonSkipped(r.mrs[i].pipelines)))
    || (OmmPending in r.mrs[i].labels && StartsGreen(Signal(r.mrs[i].pipelines)))
  }

  /** What should hold of an MR when the integration lands it: it is open and green, nothing holds it
      back, and with rebasing on its commit contains the HEAD of that moment. */
  ghost predicate FitToLand(on: bool, r: Repo, i: Iid) {
    i in r.mrs && (
      var mr := r.mrs[i];
      && mr.state == Opened
      && mr.labels * ERROR_LABELS == {} && mr.labels * HOLD_LABELS == {}
      && (on ==> IsRebased(r, mr.sha, mr.target))
      && GreenToLand(on, r, i))
  }

  ghost predicate LandedAtHead(r: Repo, i: Iid) {
    LeadSha(r, i).Some? ==> Head(r, TargetOf(r, i)) == LeadSha(r, i).value
  }

  /** `j` is a merged member whose recorded commit is the HEAD of `b`: it tells the branch-integrity
      check that nobody else has merged. */
  predicate Vouches(r: Repo, j: Iid, b: Branch) {
    && Matches(r, j, Merged, OmmPending) && r.mrs[j].target == b
    && (r.mrs[j].mergeSha == Some(Head(r, b)) || r.mrs[j].squashSha == Some(Head(r, b)))
  }

  /** Without the members `leaving`, the HEAD behind a lead is still the lead's commit or vouched for. */
  ghost predicate Vouched(r: Repo, leaving: set<Iid>) {
    forall l :: IsLead(r, l) && LeadSha(r, l).Some? && Head(r, TargetOf(r, l)) != LeadSha(r, l).value ==>
      exists j :: j !in leaving && Vouches(r, j, TargetOf(r, l))
  }

  /** What the writes of a pass are held to: `on` with rebasing on; of the MRs it lands exactly the
      `spoilt` ones are unfit; with `keep`, a merged MR loses the pending label only where HEADs
      stay vouched for. */
  datatype Terms = Terms(on: bool, spoilt: set<Iid>, keep: bool)

  ghost predicate Legal(t: Terms, r: Repo, w: Write) {
    w.iid in r.mrs && (
      var mr := r.mrs[w.iid];
      match w
      case AddLabel(i, l) =>
        if l == OmmGroupLead then NoLead(r) && mr.state == Merged && LandedAtHead(r, i)
        else l == OmmPending || l in ERROR_LABELS
      case RemoveLabel(i, l) => IsOwnLabel(l) && (t.keep && l == OmmPending && mr.state == Merged ==> Vouched(r, {i}))
      case Land(i, how) =>
        && mr.state == Opened && GreenToLand(t.on, r, i)
        && (t.on && how == FastForward ==> IsRebased(r, mr.sha, mr.target))
        && (FitToLand(t.on, r, i) <==> i !in t.spoilt)
      case Rebase(_, _) => mr.state == Opened)
  }

  ghost function Rule(t: Terms): (Repo, Write) -> bool {
    (r, w) => Legal(t, r, w)
  }

  ghost predicate AllLegal(t: Terms, r: Repo, ws: seq<Write>) {
    Each(Rule(t), r, ws)
  }

  lemma {:induction false} LegalIsOwn(t: Terms, r: Repo, ws: seq<Write>)
    requires AllLegal(t, r, ws)
    ensures OwnWrites(ws)
    decreases |ws|
  {
    if ws != [] {
      LegalIsOwn(t, Do(r, ws[0]), ws[1..]);
      forall w | w in ws ensures IsOwnWrite(w) {
        if w != ws[0] { assert w in ws[1..]; }
      }
    }
  }

  // --- Labelling and clearing -----------------------------------------------------------

  /** The state in which the merge requests `ids` have lost label `l`. */
  function Strip(r: Repo, ids: set<Iid>, l: Label): Repo {
    r.(mrs := map i | i in r.mrs :: if i in ids then r.mrs[i].(labels := r.mrs[i].labels - {l}) else r.mrs[i])
  }

  function Elems(ids: seq<Iid>): set<Iid> {
    set i | i in ids
  }

  lemma {:induction false} PlayUnpend(r: Repo, ids: seq<Iid>)
    ensures Play(r, Unpend(ids)) == Strip(r, Elems(ids), OmmPending)
    decreases |ids|
  {
    if ids == [] {
      assert Strip(r, {}, OmmPending).mrs == r.mrs;
    } else {
      var r1 := Do(r, RemoveLabel(ids[0], OmmPending));
      PlayUnpend(r1, ids[1..]);
      assert Elems(ids) == {ids[0]} + Elems(ids[1..]);
      forall i | i in r.mrs
        ensures Strip(r1, Elems(ids[1..]), OmmPending).mrs[i] == Strip(r, Elems(ids), OmmPending).mrs[i]
      {
        assert r.mrs[i].labels - {OmmPending} - {OmmPending} == r.mrs[i].labels - {OmmPending};
      }
      assert Strip(r1, Elems(ids[1..]), OmmPending).mrs == Strip(r, Elems(ids), OmmPending).mrs;
    }
  }

  lemma {:induction false} UnpendLegal(t: Terms, r: Repo, ids: seq<Iid>)
    requires forall i :: i in ids ==> i in r.mrs
    requires NoLead(r) || forall i :: i in ids ==> r.mrs[i].state == Opened
    ensures AllLegal(t, r, Unpend(ids))
    decreases |ids|
  {
    if ids != [] {
      var w := RemoveLabel(ids[0], OmmPending);
      assert ids[0] in ids && Rule(t)(r, w);
      var r1 := Do(r, w);
      if NoLead(r) {
        forall i ensures !IsLead(r1, i) { assert !IsLead(r, i); }
      }
      forall i | i in ids[1..] ensures i in ids {}
      UnpendLegal(t, r1, ids[1..]);
    }
  }

  lemma FindLeadFinds(r: Repo)
    requires WellFormed(r) && LeadsOk(r)
    ensures FindLead(r).None? ==> NoLead(r)
    ensures FindLead(r).Some? ==> IsLead(r, FindLead(r).value)
  {
    var leads := Listing(r, Merged, OmmGroupLead);
    forall i | IsLead(r, i) ensures i in leads {
    }
    if leads != [] { assert leads[0] in leads; }
  }

  /** With a unique lead, dethroning it leaves no lead at all. */
  lemma DethroneLegal(t: Terms, r: Repo, lead: Option<Iid>)
    requires WellFormed(r) && LeadsOk(r) && (lead.Some? ==> IsLead(r, lead.value))
    ensures AllLegal(t, r, Dethrone(r, lead))
    ensures Play(r, Dethrone(r, lead)) == Strip(r, r.mrs.Keys, OmmGroupLead)
  {
    FindLeadFinds(r);
    var known := if lead.Some? then lead else FindLead(r);
    if known.Some? {
      var w := RemoveLabel(known.value, OmmGroupLead);
      assert Dethrone(r, lead) == [w];
      assert Rule(t)(r, w);
      assert Play(r, [w]) == Do(r, w);
      assert Do(r, w).mrs == Strip(r, r.mrs.Keys, OmmGroupLead).mrs by { StripOne(r, known.value); }
    } else {
      assert Dethrone(r, lead) == [];
      StripNothing(r);
    }
  }

  lemma StripNothing(r: Repo)
    requires NoLead(r)
    ensures Strip(r, r.mrs.Keys, OmmGroupLead) == r
  {
    forall i | i in r.mrs ensures r.mrs[i].labels - {OmmGroupLead} == r.mrs[i].labels {
      assert !IsLead(r, i);
    }
    assert Strip(r, r.mrs.Keys, OmmGroupLead).mrs == r.mrs;
  }

  lemma StripOne(r: Repo, lead: Iid)
    requires LeadsOk(r) && IsLead(r, lead)
    ensures Do(r, RemoveLabel(lead, OmmGroupLead)).mrs == Strip(r, r.mrs.Keys, OmmGroupLead).mrs
  {
    forall i | i in r.mrs && i != lead ensures r.mrs[i].labels - {OmmGroupLead} == r.mrs[i].labels {
      assert !IsLead(r, i);
    }
  }

  ghost predicate NoOmmLabels(r: Repo) {
    forall i :: i in r.mrs ==> OmmGroupLead !in r.mrs[i].labels && OmmPending !in r.mrs[i].labels
  }

  ghost predicate Covers(r: Repo, pending: Option<seq<Iid>>) {
    pending.Some? ==>
      && (forall i :: i in pending.value ==> i in r.mrs)
      && (forall i :: Matches(r, i, Opened, OmmPending) ==> i in pending.value)
  }

  lemma UnpendEverywhereLegal(t: Terms, r: Repo, open: seq<Iid>)
    requires WellFormed(r) && NoLead(r) && forall i :: i in open ==> i in r.mrs
    ensures AllLegal(t, r, UnpendEverywhere(r, open))
  {
    var r1 := Play(r, Unpend(open));
    var closed := Listing(r1, Closed, OmmPending);
    var r2 := Play(r1, Unpend(closed));
    var merged := Listing(r2, Merged, OmmPending);
    PlayUnpend(r, open);
    PlayUnpend(r1, closed);
    StripKeepsNoLead(r, Elems(open));
    StripKeepsNoLead(r1, Elems(closed));
    UnpendLegal(t, r, open);
    UnpendLegal(t, r1, closed);
    UnpendLegal(t, r2, merged);
    EachConcat(Rule(t), r1, Unpend(closed), Unpend(merged));
    EachConcat(Rule(t), r, Unpend(open), Unpend(closed) + Unpend(merged));
  }

  lemma StripKeepsNoLead(r: Repo, ids: set<Iid>)
    requires NoLead(r)
    ensures NoLead(Strip(r, ids, OmmPending))
  {
    forall i ensures !IsLead(Strip(r, ids, OmmPending), i) { assert !IsLead(r, i); }
  }

  lemma UnpendEverywhereResult(r: Repo, open: seq<Iid>)
    requires WellFormed(r) && forall i :: Matches(r, i, Opened, OmmPending) ==> i in open
    ensures Play(r, UnpendEverywhere(r, open)) == Strip(r, r.mrs.Keys, OmmPending)
  {
    var r1 := Play(r, Unpend(open));
    var closed := Listing(r1, Closed, OmmPending);
    var r2 := Play(r1, Unpend(closed));
    var merged := Listing(r2, Merged, OmmPending);
    PlayUnpend(r, open);
    PlayUnpend(r1, closed);
    PlayUnpend(r2, merged);
    PlayConcat(r1, Unpend(closed), Unpend(merged));
    PlayConcat(r, Unpend(open), Unpend(closed) + Unpend(merged));
    StripAll(r, open, closed, merged);
  }

  function OpenMembers(r: Repo, pending: Option<seq<Iid>>): seq<Iid> {
    if pending.Some? then pending.value else Listing(r, Opened, OmmPending)
  }

  lemma AfterDethroning(r: Repo, pending: Option<seq<Iid>>)
    requires WellFormed(r) && Covers(r, pending)
    ensures var r1 := Strip(r, r.mrs.Keys, OmmGroupLead);
            && NoLead(r1)
            && (forall i :: i in OpenMembers(r1, pending) ==> i in r1.mrs)
            && (forall i :: Matches(r1, i, Opened, OmmPending) ==> i in OpenMembers(r1, pending))
  {
    var r1 := Strip(r, r.mrs.Keys, OmmGroupLead);
    forall i | Matches(r1, i, Opened, OmmPending) ensures i in OpenMembers(r1, pending) {
      assert Matches(r, i, Opened, OmmPending);
      assert i in r.order;
    }
  }

  /** The state without any group label. */
  function Cleared(r: Repo): Repo {
    Strip(Strip(r, r.mrs.Keys, OmmGroupLead), r.mrs.Keys, OmmPending)
  }

  lemma StripBoth(r: Repo)
    ensures NoOmmLabels(Cleared(r))
  {
  }

  /** `clear_omm_group` with a unique lead obeys the rule and leaves no group label anywhere, provided
      a pre-fetched member list names every open pending MR. */
  lemma ClearLegal(t: Terms, r: Repo, lead: Option<Iid>, pending: Option<seq<Iid>>)
    requires WellFormed(r) && LeadsOk(r) && (lead.Some? ==> IsLead(r, lead.value)) && Covers(r, pending)
    ensures AllLegal(t, r, Clear(r, lead, pending))
    ensures Play(r, Clear(r, lead, pending)) == Cleared(r) && NoOmmLabels(Cleared(r))
  {
    var w := Dethrone(r, lead);
    var r1 := Strip(r, r.mrs.Keys, OmmGroupLead);
    DethroneLegal(t, r, lead);
    UnpendRest(t, r, pending);
    EachConcat(Rule(t), r, w, UnpendEverywhere(r1, OpenMembers(r1, pending)));
    PlayConcat(r, w, UnpendEverywhere(r1, OpenMembers(r1, pending)));
    StripBoth(r);
  }

  lemma UnpendRest(t: Terms, r: Repo, pending: Option<seq<Iid>>)
    requires WellFormed(r) && Covers(r, pending)
    ensures var r1 := Strip(r, r.mrs.Keys, OmmGroupLead);
            var ws := UnpendEverywhere(r1, OpenMembers(r1, pending));
            AllLegal(t, r1, ws) && Play(r1, ws) == Cleared(r)
  {
    var r1 := Strip(r, r.mrs.Keys, OmmGroupLead);
    AfterDethroning(r, pending);
    UnpendEverywhereLegal(t, r1, OpenMembers(r1, pending));
    UnpendEverywhereResult(r1, OpenMembers(r1, pending));
  }

  /** Stripping the open, then the closed, then the merged carriers strips every carrier. */
  lemma StripAll(r: Repo, ids: seq<Iid>, closed: seq<Iid>, merged: seq<Iid>)
    requires forall i :: i in r.mrs ==> i in r.order
    requires forall i :: Matches(r, i, Opened, OmmPending) ==> i in ids
    requires closed == Listing(Strip(r, Elems(ids), OmmPending), Closed, OmmPending)
    requires merged == Listing(Strip(Strip(r, Elems(ids), OmmPending), Elems(closed), OmmPending), Merged, OmmPending)
    ensures Strip(Strip(Strip(r, Elems(ids), OmmPending), Elems(closed), OmmPending), Elems(merged), OmmPending)
      == Strip(r, r.mrs.Keys, OmmPending)
  {
    var a := Strip(r, Elems(ids), OmmPending);
    var b := Strip(a, Elems(closed), OmmPending);
    var c := Strip(b, Elems(merged), OmmPending);
    var d := Strip(r, r.mrs.Keys, OmmPending);
    forall i | i in r.mrs ensures c.mrs[i] == d.mrs[i] {
      assert i in r.order;
      assert Matches(r, i, Opened, OmmPending) ==> i in ids;
      assert Matches(a, i, Closed, OmmPending) ==> i in closed;
      assert Matches(b, i, Merged, OmmPending) ==> i in merged;
      TakenOnce(r.mrs[i].labels, i in ids, i in closed, i in merged);
    }
    assert c.mrs == d.mrs;
  }

  lemma TakenOnce(ls: set<Label>, x: bool, y: bool, z: bool)
    requires OmmPending in ls ==> x || y || z
    ensures var l1 := if x then ls - {OmmPending} else ls;
            var l2 := if y then l1 - {OmmPending} else l1;
            (if z then l2 - {OmmPending} else l2) == ls - {OmmPending}
  {
  }
}
