/** Whole runs: any sequence of passes, each possibly cut short or on an old listing, of upkeep writes
    and of moves by other people.  At most one lead at any time, every landing fit unless its MR was
    spoilt since the listing, HEADs only grow, and the branch-integrity check of a group stays true
    while nobody else merges and no pass takes away the member that vouches for HEAD. */
module MergeQueueRuns {
  import opened Common
  import opened GitLabRepo
  import opened MergeQueue
  import opened MergeQueueRules
  import opened MergeQueueLegal

  // --- Single writes --------------------------------------------------------------------

  ghost predicate HeadsGrew(r: Repo, r': Repo) {
    && r.heads.Keys <= r'.heads.Keys
    && (forall b :: b in r.heads ==> Reach(r, Head(r, b)) <= Reach(r', Head(r', b)))
  }

  lemma HeadsStep(t: Terms, r: Repo, w: Write)
    requires t.on && IsWired(r) && Legal(t, r, w)
    ensures HeadsGrew(r, Do(r, w))
  {
    if w.Land? { HeadsLand(r, w.iid, w.how); } else { GraphStep(r, w); }
  }

  lemma GraphStep(r: Repo, w: Write)
    requires IsWired(r)
    ensures Extends(r, Do(r, w))
  {
  }

  lemma HeadsLand(r: Repo, i: Iid, how: Landing)
    requires IsWired(r) && i in r.mrs && (how == FastForward ==> IsRebased(r, r.mrs[i].sha, r.mrs[i].target))
    ensures HeadsGrew(r, DoLand(r, i, r.mrs[i], how))
  {
    var r' := DoLand(r, i, r.mrs[i], how);
    assert Extends(r, r') by { GraphStep(r, Land(i, how)); }
    var t := r.mrs[i].target;
    forall b | b in r.heads ensures Reach(r, Head(r, b)) <= Reach(r', Head(r', b)) {
      if b == t { assert r'.heads[t] in r'.anc; }
    }
  }

  /** The integrity check of every group whose lead has a recorded commit would pass. */
  ghost predicate GroupsIntact(r: Repo) {
    forall l :: IsLead(r, l) && LeadSha(r, l).Some? ==> IsIntact(r, l, LeadSha(r, l).value)
  }

  /** A landing that leaves a commit the check can recognise. */
  predicate IsRecorded(w: Write) {
    w.Land? ==> w.how != FastForward
  }

  /** HEAD is a member's commit exactly when a member vouches for it. */
  lemma VouchedIsMemberCommit(r: Repo, b: Branch)
    ensures IsMemberCommit(r, b, Head(r, b)) <==> exists j :: Vouches(r, j, b)
  {
    if IsMemberCommit(r, b, Head(r, b)) {
      var i :| i in r.mrs && r.mrs[i].state == Merged && OmmPending in r.mrs[i].labels && r.mrs[i].target == b
        && (r.mrs[i].mergeSha == Some(Head(r, b)) || r.mrs[i].squashSha == Some(Head(r, b)));
      assert Vouches(r, i, b);
    }
    if j :| Vouches(r, j, b) { assert j in r.mrs; }
  }

  /** A state that keeps its lead, HEADs, history and vouchers keeps its groups intact. */
  lemma IntactStays(r: Repo, r': Repo, l: Iid)
    requires IsWired(r) && Extends(r, r') && IsLead(r, l) && LeadSha(r, l).Some?
    requires IsIntact(r, l, LeadSha(r, l).value)
    requires l in r'.mrs && r'.mrs[l].target == r.mrs[l].target && LeadSha(r', l) == LeadSha(r, l)
    requires var b := r.mrs[l].target;
             Head(r', b) == Head(r, b) && (Head(r, b) != LeadSha(r, l).value ==> exists j :: Vouches(r', j, b))
    ensures IsIntact(r', l, LeadSha(r', l).value)
  {
    VouchedIsMemberCommit(r', r.mrs[l].target);
  }

  /** A member landing on the lead's branch moves HEAD to a commit that the check recognises. */
  lemma IntactLanding(r: Repo, l: Iid, i: Iid, how: Landing)
    requires IsWired(r) && LeadsOk(r) && IsLead(r, l) && LeadSha(r, l).Some? && IsIntact(r, l, LeadSha(r, l).value)
    requires Matches(r, i, Opened, OmmPending) && how != FastForward
    requires r.mrs[i].target == r.mrs[l].target
    ensures IsIntact(Do(r, Land(i, how)), l, LeadSha(r, l).value)
  {
    var w := Land(i, how);
    var r' := Do(r, w);
    var b := r.mrs[l].target;
    assert i != l;
    HeadsLand(r, i, how);
    GraphStep(r, w);
    assert Reach(r, LeadSha(r, l).value) <= Reach(r, Head(r, b)) <= Reach(r', Head(r', b));
    assert r'.mrs[i].state == Merged && OmmPending in r'.mrs[i].labels && r'.mrs[i].target == b;
    assert r'.mrs[i].mergeSha == Some(Head(r', b)) || r'.mrs[i].squashSha == Some(Head(r', b));
  }

  lemma IntactStep(t: Terms, r: Repo, w: Write)
    requires t.on && t.keep && IsWired(r) && LeadsOk(r) && GroupsIntact(r) && Legal(t, r, w) && IsRecorded(w)
    ensures GroupsIntact(Do(r, w))
  {
    var r' := Do(r, w);
    forall l | IsLead(r', l) && LeadSha(r', l).Some? ensures IsIntact(r', l, LeadSha(r', l).value) {
      if w == AddLabel(l, OmmGroupLead) {
        assert LandedAtHead(r, l);
      } else {
        IntactLeadStep(t, r, w, l);
      }
    }
  }

  lemma IntactLeadStep(t: Terms, r: Repo, w: Write, l: Iid)
    requires t.on && t.keep && IsWired(r) && LeadsOk(r) && GroupsIntact(r) && Legal(t, r, w) && IsRecorded(w)
    requires IsLead(Do(r, w), l) && LeadSha(Do(r, w), l).Some? && w != AddLabel(l, OmmGroupLead)
    ensures IsIntact(Do(r, w), l, LeadSha(Do(r, w), l).value)
  {
    assert IsLead(r, l);
    var b := r.mrs[l].target;
    if w.Land? && r.mrs[w.iid].target == b {
      IntactLanding(r, l, w.iid, w.how);
    } else {
      GraphStep(r, w);
      if Head(r, b) != LeadSha(r, l).value { VoucherAfter(t, r, w, l); }
      IntactStays(r, Do(r, w), l);
    }
  }

  /** A write that does not move HEAD leaves somebody who vouches for it. */
  lemma VoucherAfter(t: Terms, r: Repo, w: Write, l: Iid)
    requires t.on && t.keep && IsWired(r) && LeadsOk(r) && Legal(t, r, w) && IsLead(r, l) && LeadSha(r, l).Some?
    requires IsIntact(r, l, LeadSha(r, l).value) && Head(r, r.mrs[l].target) != LeadSha(r, l).value
    requires !(w.Land? && r.mrs[w.iid].target == r.mrs[l].target)
    ensures exists j :: Vouches(Do(r, w), j, r.mrs[l].target)
  {
    var b := r.mrs[l].target;
    if w == RemoveLabel(w.iid, OmmPending) && r.mrs[w.iid].state == Merged {
      var j :| j !in {w.iid} && Vouches(r, j, b);
      assert Vouches(Do(r, w), j, b);
    } else {
      VouchedIsMemberCommit(r, b);
      var j :| Vouches(r, j, b);
      assert Vouches(Do(r, w), j, b);
    }
  }

  // --- Sequences of writes --------------------------------------------------------------

  lemma {:induction false} HeadsPlay(t: Terms, r: Repo, ws: seq<Write>)
    requires t.on && WellFormed(r) && AllLegal(t, r, ws)
    ensures HeadsGrew(r, Play(r, ws))
    decreases |ws|
  {
    if ws != [] {
      assert Rule(t)(r, ws[0]);
      HeadsStep(t, r, ws[0]);
      WellFormedStep(r, ws[0]);
      HeadsPlay(t, Do(r, ws[0]), ws[1..]);
    }
  }

  lemma {:induction false} IntactPlay(t: Terms, r: Repo, ws: seq<Write>)
    requires t.on && t.keep && WellFormed(r) && LeadsOk(r) && GroupsIntact(r) && AllLegal(t, r, ws)
    requires forall w :: w in ws ==> IsRecorded(w)
    ensures GroupsIntact(Play(r, ws))
    decreases |ws|
  {
    if ws != [] {
      assert Rule(t)(r, ws[0]) && ws[0] in ws;
      IntactStep(t, r, ws[0]);
      LeadsOkStep(t, r, ws[0]);
      WellFormedStep(r, ws[0]);
      forall w | w in ws[1..] ensures w in ws {}
      IntactPlay(t, Do(r, ws[0]), ws[1..]);
    }
  }

  // --- Runs -----------------------------------------------------------------------------

  /** `Pass`: a merge pass of which only the first `made` writes were made.  `Upkeep`: rebases and
      error labels from the rebase pass and the error health check.  `Outside`: anything others do. */
  datatype Step =
    | Pass(queue: seq<Item>, answers: Answers, config: Config, made: nat)
    | Upkeep(writes: seq<Write>)
    | Outside(now: Repo)

  predicate IsUpkeep(w: Write) {
    w.Rebase? || ((w.AddLabel? || w.RemoveLabel?) && w.tag in ERROR_LABELS)
  }

  /** Other people may do anything but make leads, reopen merged MRs, retarget MRs or rewrite history;
      they may take group labels off, and put the pending label on. */
  ghost predicate OutsideMove(r: Repo, r': Repo) {
    && WellFormed(r') && Extends(r, r') && HeadsGrew(r, r')
    && r.mrs.Keys <= r'.mrs.Keys
    && (forall i :: IsLead(r', i) ==> IsLead(r, i))
    && (forall i :: i in r.mrs ==> SameStanding(r.mrs[i], r'.mrs[i]))
  }

  predicate SameStanding(mr: Mr, mr': Mr) {
    && mr'.target == mr.target
    && (mr.state == Merged ==> mr'.state == Merged && mr'.mergeSha == mr.mergeSha && mr'.squashSha == mr.squashSha)
  }

  function Writes(r: Repo, s: Step): seq<Write> {
    match s
    case Pass(queue, a, c, made) =>
      var ws := MergePass(r, queue, a, c);
      if made < |ws| then ws[..made] else ws
    case Upkeep(ws) => ws
    case Outside(_) => []
  }

  function After(r: Repo, s: Step): Repo {
    if s.Outside? then s.now else Play(r, Writes(r, s))
  }

  /** `on`: rebasing is a fixed setting of the repository.  A pass may work on any earlier listing: an
      attempt that raises is retried with the listing it started from. */
  ghost predicate Possible(on: bool, r: Repo, s: Step) {
    match s
    case Pass(queue, a, c, _) => IsListing(r, queue) && Plausible(r, a) && c.rebase == on
    case Upkeep(ws) => (forall w :: w in ws ==> IsUpkeep(w)) && AllLegal(Terms(on, {}, false), r, ws)
    case Outside(r') => OutsideMove(r, r')
  }

  function Run(r: Repo, steps: seq<Step>): Repo
    decreases |steps|
  {
    if steps == [] then r else Run(After(r, steps[0]), steps[1..])
  }

  ghost predicate PossibleRun(on: bool, r: Repo, steps: seq<Step>)
    decreases |steps|
  {
    steps == [] || (Possible(on, r, steps[0]) && PossibleRun(on, After(r, steps[0]), steps[1..]))
  }

  /** The MRs a step may land unfit. */
  function SpoiltIn(r: Repo, s: Step): set<Iid> {
    if s.Pass? then Spoilt(r, s.queue, s.config) else {}
  }

  /** Nothing in the step takes the last voucher away, and every landing of it is recorded. */
  ghost predicate KeepsVouchers(r: Repo, s: Step) {
    s.Pass? ==> AllRecorded(s.answers) && VouchersStay(r, s.queue, s.config)
  }

  /** Upkeep writes are legal on any terms. */
  lemma {:induction false} UpkeepLegal(t: Terms, t': Terms, r: Repo, ws: seq<Write>)
    requires AllLegal(t, r, ws) && forall w :: w in ws ==> IsUpkeep(w)
    ensures AllLegal(t', r, ws)
    decreases |ws|
  {
    if ws != [] {
      assert ws[0] in ws && Rule(t)(r, ws[0]) && Rule(t')(r, ws[0]);
      forall w | w in ws[1..] ensures w in ws {}
      UpkeepLegal(t, t', Do(r, ws[0]), ws[1..]);
    }
  }

  /** Every write a step makes is legal, even when the pass stops early. */
  lemma StepLegal(on: bool, keep: bool, r: Repo, s: Step)
    requires WellFormed(r) && LeadsOk(r) && Possible(on, r, s) && (keep ==> on && KeepsVouchers(r, s))
    ensures AllLegal(Terms(on, SpoiltIn(r, s), keep), r, Writes(r, s))
  {
    var t := Terms(on, SpoiltIn(r, s), keep);
    if s.Pass? {
      MergePassLegal(r, s.queue, s.answers, s.config, keep);
      var ws := MergePass(r, s.queue, s.answers, s.config);
      if s.made < |ws| { EachPrefix(Rule(t), r, ws, s.made); }
    } else if s.Upkeep? {
      UpkeepLegal(Terms(on, {}, false), t, r, s.writes);
    }
  }

  lemma OutsideLeads(r: Repo, r': Repo)
    requires OutsideMove(r, r') && LeadsOk(r)
    ensures LeadsOk(r')
  {
    forall i | IsLead(r', i) ensures IsLead(r, i) && SameStanding(r.mrs[i], r'.mrs[i]) {}
  }

  lemma StepLeads(on: bool, r: Repo, s: Step)
    requires WellFormed(r) && LeadsOk(r) && Possible(on, r, s)
    ensures WellFormed(After(r, s)) && LeadsOk(After(r, s))
  {
    if s.Outside? {
      OutsideLeads(r, s.now);
    } else {
      StepLegal(on, false, r, s);
      WellFormedPlay(r, Writes(r, s));
      LeadsOkPlay(Terms(on, SpoiltIn(r, s), false), r, Writes(r, s));
    }
  }

  /** In every state reachable from one without group labels - with the feature switched on and
      off, passes stopping anywhere and retried on an old listing - at most one MR carries the lead label. */
  lemma {:induction false} AtMostOneLead(on: bool, r: Repo, steps: seq<Step>)
    requires WellFormed(r) && (NoOmmLabels(r) || LeadsOk(r)) && PossibleRun(on, r, steps)
    ensures WellFormed(Run(r, steps)) && LeadsOk(Run(r, steps))
    decreases |steps|
  {
    if NoOmmLabels(r) { NoLabelsNoLeads(r); }
    if steps != [] {
      StepLeads(on, r, steps[0]);
      AtMostOneLead(on, After(r, steps[0]), steps[1..]);
    }
  }

  lemma NoLabelsNoLeads(r: Repo)
    requires NoOmmLabels(r)
    ensures LeadsOk(r) && GroupsIntact(r)
  {
    forall i ensures !IsLead(r, i) {}
  }

  /** The newest non-skipped pipeline of an MR succeeded, if and only if it is not an unsuccessful push
      pipeline. */
  ghost predicate GreenUnlessPushed(r: Repo, i: Iid) {
    StartsGreen(NonSkipped(PipelinesOf(r, i))) <==> NoPushInFront(PipelinesOf(r, i))
  }

  lemma GreenIsGreenUnlessPushed(on: bool, r: Repo, i: Iid)
    requires i in r.mrs && GreenToLand(on, r, i)
    ensures GreenUnlessPushed(r, i)
  {
    var ps := r.mrs[i].pipelines;
    if StartsGreen(Signal(ps)) { GreenIffNoPushInFront(ps); }
  }

  /** A rebased pending member whose newest pipeline, a push one, failed. */
  function PushFailedMr(): Mr {
    Mr(Opened, {OmmPending, Lgtm}, 1, "main", [Pipeline(Failed, true), Pipeline(Success, false)], None, None)
  }

  /** It is landed by a group pass all the same, for the pipeline behind it succeeded. */
  lemma PushFailureLands(a: Answers)
    requires a.land(1) == Landed(MergeCommit) && !a.missing(1)
    ensures var r := Repo(map[1 := PushFailedMr()], [1], map["main" := 0], map[0 := {0}, 1 := {0, 1}], 2);
            && Member(r, 1, a, false) == Outcome([Land(1, MergeCommit)], true, false)
            && !StartsGreen(NonSkipped(PipelinesOf(r, 1)))
  {
    var ps := PushFailedMr().pipelines;
    assert ps[1..] == [Pipeline(Success, false)] && ps[1..][1..] == [];
    assert Signal(ps) == [Pipeline(Success, false)] && NonSkipped(ps) == ps;
    assert PushFailedMr().labels * ERROR_LABELS == {} && PushFailedMr().labels * HOLD_LABELS == {};
  }

  /** Every landing of every rebasing pass, retried or not, is of an open MR that is green but for push
      pipelines, and a pending one while a group is open; it is fit if and only if its MR had not been
      spoilt since the listing when the pass began; and HEAD moves forward along history. */
  lemma EveryLandingFit(r: Repo, s: Step, k: nat)
    requires WellFormed(r) && LeadsOk(r) && Possible(true, r, s) && k < |Writes(r, s)| && Writes(r, s)[k].Land?
    ensures var mid := Play(r, Writes(r, s)[..k]);
            var w := Writes(r, s)[k];
            && (FitToLand(true, mid, w.iid) <==> w.iid !in SpoiltIn(r, s))
            && w.iid in mid.mrs && mid.mrs[w.iid].state == Opened
            && (NoLead(mid) || OmmPending in mid.mrs[w.iid].labels) && GreenUnlessPushed(mid, w.iid)
            && HeadsGrew(r, mid) && HeadsGrew(mid, Do(mid, w))
  {
    var ws := Writes(r, s);
    var t := Terms(true, SpoiltIn(r, s), false);
    StepLegal(true, false, r, s);
    EachAt(Rule(t), r, ws, k);
    GreenIsGreenUnlessPushed(true, Play(r, ws[..k]), ws[k].iid);
    EachPrefix(Rule(t), r, ws, k);
    WellFormedPlay(r, ws[..k]);
    HeadsPlay(t, r, ws[..k]);
    HeadsStep(t, Play(r, ws[..k]), ws[k]);
  }

  lemma HeadsTrans(a: Repo, b: Repo, c: Repo)
    requires HeadsGrew(a, b) && HeadsGrew(b, c)
    ensures HeadsGrew(a, c)
  {
    forall x | x in a.heads ensures Reach(a, Head(a, x)) <= Reach(c, Head(c, x)) {
      assert x in b.heads;
    }
  }

  /** Over a whole rebasing run every branch's HEADs form an ancestor chain. */
  lemma {:induction false} HeadsChain(r: Repo, steps: seq<Step>)
    requires WellFormed(r) && LeadsOk(r) && PossibleRun(true, r, steps)
    ensures HeadsGrew(r, Run(r, steps))
    decreases |steps|
  {
    if steps != [] {
      var s := steps[0];
      var r1 := After(r, s);
      StepLeads(true, r, s);
      if !s.Outside? {
        StepLegal(true, false, r, s);
        HeadsPlay(Terms(true, SpoiltIn(r, s), false), r, Writes(r, s));
      }
      HeadsChain(r1, steps[1..]);
      HeadsTrans(r, r1, Run(r, steps));
    }
  }

  // --- The branch-integrity check -------------------------------------------------------

  /** Nobody else merges or takes the pending label off a merged MR, GitLab records a commit for every
      landing, and no newcomer of a retried pass takes the last voucher for HEAD with it. */
  ghost predicate Undisturbed(r: Repo, s: Step) {
    && (s.Outside? ==> s.now.heads == r.heads && forall i :: Matches(r, i, Merged, OmmPending) ==> Matches(s.now, i, Merged, OmmPending))
    && KeepsVouchers(r, s)
  }

  ghost predicate UndisturbedRun(r: Repo, steps: seq<Step>)
    decreases |steps|
  {
    steps == [] || (Undisturbed(r, steps[0]) && UndisturbedRun(After(r, steps[0]), steps[1..]))
  }

  /** Landings are taken from GitLab's answers and from nowhere else. */
  ghost predicate Answered(a: Answers, ws: seq<Write>) {
    forall w :: w in ws && w.Land? ==> a.land(w.iid) == Landed(w.how)
  }

  lemma {:induction false} UnpendLandsNothing(ids: seq<Iid>)
    ensures forall w :: w in Unpend(ids) ==> w.RemoveLabel?
  {
    if ids != [] { UnpendLandsNothing(ids[1..]); }
  }

  lemma ClearLandsNothing(r: Repo, lead: Option<Iid>, pending: Option<seq<Iid>>)
    ensures forall w :: w in Clear(r, lead, pending) ==> w.RemoveLabel?
  {
    var r1 := Play(r, Dethrone(r, lead));
    var open := OpenMembers(r1, pending);
    var r2 := Play(r1, Unpend(open));
    var closed := Listing(r2, Closed, OmmPending);
    UnpendLandsNothing(open);
    UnpendLandsNothing(closed);
    UnpendLandsNothing(Listing(Play(r2, Unpend(closed)), Merged, OmmPending));
  }

  lemma {:induction false} EnlistLandsNothing(a: Answers, cands: seq<Iid>)
    ensures forall w :: w in Enlist(a, cands) ==> !w.Land?
  {
    if cands != [] { EnlistLandsNothing(a, cands[1..]); }
  }

  lemma {:induction false} MembersAnswered(r: Repo, ids: seq<Iid>, a: Answers, dry: bool, merges: nat, limit: int)
    ensures Answered(a, Members(r, ids, a, dry, merges, limit).writes)
    decreases |ids|
  {
    if ids != [] {
      var m := Member(r, ids[0], a, dry);
      assert Answered(a, m.writes);
      MembersAnswered(Play(r, m.writes), ids[1..], a, dry, if m.merged then merges + 1 else merges, limit);
    }
  }

  lemma {:induction false} SerialAnswered(r: Repo, rest: seq<Item>, queue: seq<Item>, a: Answers, c: Config, merges: nat, taken: set<Label>)
    ensures Answered(a, Serial(r, rest, queue, a, c, merges, taken))
    decreases |rest|
  {
    if rest != [] {
      var it := rest[0];
      var w := if c.dry then [] else [Land(it.iid, if a.land(it.iid).Landed? then a.land(it.iid).how else FastForward)];
      SerialAnswered(r, rest[1..], queue, a, c, merges, taken);
      SerialAnswered(Play(r, [AddLabel(it.iid, MergeError)]), rest[1..], queue, a, c, merges, taken);
      SerialAnswered(Play(r, w), rest[1..], queue, a, c, merges + 1, taken + TenantLabels(it.labels));
      EnlistLandsNothing(a, Iids(Form(Play(r, w), queue, taken + TenantLabels(it.labels))));
    }
  }

  lemma ExpandAnswered(r: Repo, lead: Iid, kept: seq<Iid>, queue: seq<Item>, a: Answers, c: Config, active: bool)
    ensures Answered(a, Expand(r, lead, kept, queue, a, c, active))
  {
    var w := Emit(c.dry, Enlist(a, Newcomers(r, lead, kept, queue)));
    EnlistLandsNothing(a, Newcomers(r, lead, kept, queue));
    ClearLandsNothing(Play(r, w), Some(lead), None);
  }

  lemma MergePassAnswered(r: Repo, queue: seq<Item>, a: Answers, c: Config)
    ensures Answered(a, MergePass(r, queue, a, c))
  {
    var pending := Listing(r, Opened, OmmPending);
    if c.rebase && c.multi && FindLead(r).Some? {
      var lead := FindLead(r).value;
      var kept := Keep(r, pending, TenantsOf(r, lead));
      var out := Overlapping(r, pending, TenantsOf(r, lead));
      var r1 := Play(r, Emit(c.dry, Unpend(out)));
      var m := Members(r1, kept, a, c.dry, 0, c.limit);
      var r2 := Play(r1, m.writes);
      ClearLandsNothing(r, Some(lead), None);
      ClearLandsNothing(r, Some(lead), Some([]));
      ClearLandsNothing(r2, Some(lead), Some(kept));
      UnpendLandsNothing(out);
      MembersAnswered(r1, kept, a, c.dry, 0, c.limit);
      ExpandAnswered(r2, lead, kept, queue, a, c, m.active);
    } else {
      ClearLandsNothing(r, FindLead(r), None);
      ClearLandsNothing(r, None, Some(pending));
      SerialAnswered(Play(r, CleanUp(r, c)), queue, queue, a, c, 0, {});
    }
  }

  lemma OutsideIntact(r: Repo, r': Repo)
    requires WellFormed(r) && LeadsOk(r) && GroupsIntact(r) && OutsideMove(r, r') && Undisturbed(r, Outside(r'))
    ensures GroupsIntact(r')
  {
    forall l | IsLead(r', l) && LeadSha(r', l).Some? ensures IsIntact(r', l, LeadSha(r', l).value) {
      assert IsLead(r, l) && SameStanding(r.mrs[l], r'.mrs[l]);
      var b := r.mrs[l].target;
      if Head(r, b) != LeadSha(r, l).value {
        VouchedIsMemberCommit(r, b);
        var j :| Vouches(r, j, b);
        assert SameStanding(r.mrs[j], r'.mrs[j]) && Vouches(r', j, b);
      }
      IntactStays(r, r', l);
    }
  }

  lemma StepIntact(r: Repo, s: Step)
    requires WellFormed(r) && LeadsOk(r) && GroupsIntact(r) && Possible(true, r, s) && Undisturbed(r, s)
    ensures GroupsIntact(After(r, s))
  {
    if s.Outside? {
      OutsideIntact(r, s.now);
    } else {
      StepLegal(true, true, r, s);
      if s.Pass? {
        MergePassAnswered(r, s.queue, s.answers, s.config);
        forall w | w in Writes(r, s) ensures IsRecorded(w) {
          assert w in MergePass(r, s.queue, s.answers, s.config);
        }
      }
      IntactPlay(Terms(true, SpoiltIn(r, s), true), r, Writes(r, s));
    }
  }

  /** While nobody else merges, landings are recorded and vouchers stay, the integrity check never
      cancels a group: in every reachable state it passes for every lead with a recorded commit. */
  lemma {:induction false} IntegrityNeverCancels(r: Repo, steps: seq<Step>)
    requires WellFormed(r) && (NoOmmLabels(r) || (LeadsOk(r) && GroupsIntact(r)))
    requires PossibleRun(true, r, steps) && UndisturbedRun(r, steps)
    ensures GroupsIntact(Run(r, steps))
    decreases |steps|
  {
    if NoOmmLabels(r) { NoLabelsNoLeads(r); }
    if steps != [] {
      StepLeads(true, r, steps[0]);
      StepIntact(r, steps[0]);
      IntegrityNeverCancels(After(r, steps[0]), steps[1..]);
    }
  }

  /** The exact condition on one member landing, for a member with a commit of its own: the group
      stays intact if and only if GitLab recorded a commit, that is, did not fast-forward unsquashed. */
  lemma IntactIffRecorded(r: Repo, l: Iid, i: Iid, how: Landing)
    requires WellFormed(r) && LeadsOk(r) && IsLead(r, l) && LeadSha(r, l).Some? && IsIntact(r, l, LeadSha(r, l).value)
    requires FitToLand(true, r, i) && OmmPending in r.mrs[i].labels && r.mrs[i].target == r.mrs[l].target
    requires forall j :: j in r.mrs ==> r.mrs[j].mergeSha != Some(r.mrs[i].sha) && r.mrs[j].squashSha != Some(r.mrs[i].sha)
    ensures IsIntact(Do(r, Land(i, how)), l, LeadSha(r, l).value) <==> how != FastForward
  {
    if how == FastForward {
      var r' := Do(r, Land(i, how));
      assert forall j :: j in r.mrs ==> r'.mrs[j].mergeSha == r.mrs[j].mergeSha && r'.mrs[j].squashSha == r.mrs[j].squashSha;
    } else {
      IntactLanding(r, l, i, how);
    }
  }

  /** A lead landed as commit 1 and a green, rebased member with commit 2, both on "main". */
  function TwoMrs(): Repo {
    Repo(map[1 := Mr(Merged, {OmmGroupLead, Tenant("a")}, 0, "main", [], None, Some(1)),
             2 := Mr(Opened, {OmmPending, Lgtm, Tenant("b")}, 2, "main", [Pipeline(Success, false)], None, None)],
         [1, 2], map["main" := 1], map[0 := {0}, 1 := {0, 1}, 2 := {0, 1, 2}], 3)
  }

  /** Landing the member by plain fast-forward makes the next integrity check cancel the group,
      although nobody else has merged. */
  lemma FastForwardCancels()
    ensures var r := TwoMrs();
            && FitToLand(true, r, 2) && IsIntact(r, 1, 1)
            && !IsIntact(Do(r, Land(2, FastForward)), 1, 1)
  {
    var r := TwoMrs();
    var ps := r.mrs[2].pipelines;
    assert ps[1..] == [] && Signal(ps) == ps;
    assert r.mrs[2].labels * ERROR_LABELS == {} && r.mrs[2].labels * HOLD_LABELS == {};
    var r' := Do(r, Land(2, FastForward));
    assert forall i :: i in r'.mrs ==> r'.mrs[i].mergeSha != Some(2) && r'.mrs[i].squashSha != Some(2);
  }

  /** The same over a run: landing `k` of step `n` of a rebasing run. */
  lemma {:induction false} RunLandingFit(r: Repo, steps: seq<Step>, n: nat, k: nat)
    requires WellFormed(r) && LeadsOk(r) && PossibleRun(true, r, steps) && n < |steps|
    requires var rn := Run(r, steps[..n]); k < |Writes(rn, steps[n])| && Writes(rn, steps[n])[k].Land?
    ensures var rn := Run(r, steps[..n]);
            var mid := Play(rn, Writes(rn, steps[n])[..k]);
            var w := Writes(rn, steps[n])[k];
            && (FitToLand(true, mid, w.iid) <==> w.iid !in SpoiltIn(rn, steps[n]))
            && w.iid in mid.mrs && mid.mrs[w.iid].state == Opened
            && (NoLead(mid) || OmmPending in mid.mrs[w.iid].labels) && GreenUnlessPushed(mid, w.iid)
            && HeadsGrew(rn, mid) && HeadsGrew(mid, Do(mid, w))
    decreases n
  {
    if n == 0 {
      assert steps[..0] == [];
      EveryLandingFit(r, steps[0], k);
    } else {
      assert steps[..n][0] == steps[0] && steps[..n][1..] == steps[1..][..n - 1];
      StepLeads(true, r, steps[0]);
      RunLandingFit(After(r, steps[0]), steps[1..], n - 1, k);
    }
  }
}
