/** The error health check of `gitlab_housekeeping`: which error labels one pass puts on and takes
    off, what labels it is content with, and how many passes it takes to get there. */
module ErrorHealthcheck {
  import opened Common
  import opened GitLabRepo
  import opened MergeQueue
  import opened MergeQueueRules
  import opened MergeQueueLegal
  import opened MergeQueueRuns
  import opened GitLabHousekeeping

  /** What the check learns of one MR besides its labels and pipelines.  `refreshed` is `None` when
      the refresh fails, and otherwise says whether GitLab reports a failed rebase; `noted` says
      whether a note is newer than the last merge-error label event. */
  datatype Facts = Facts(draft: bool, refreshed: Option<bool>, noted: bool)

  predicate IsTerminal(s: Status) {
    s == Success || s == Failed || s == Canceled || s == Skipped
  }

  function Terminal(ps: seq<Pipeline>): seq<Pipeline> {
    if ps == [] then []
    else if IsTerminal(ps[0].status) then [ps[0]] + Terminal(ps[1..])
    else Terminal(ps[1..])
  }

  /** `check_pipeline_health` on pipelines ordered newest first. */
  predicate IsHealthy(ps: seq<Pipeline>, limit: nat) {
    |ps| < limit || exists k | 0 <= k < limit :: ps[k].status != Failed
  }

  predicate IsEligible(ls: set<Label>, f: Facts) {
    !f.draft && IsGoodToMerge(ls)
  }

  /** A failed refresh leaves the flag as it is. */
  predicate RebaseFailed(ls: set<Label>, f: Facts) {
    if f.refreshed.Some? then f.refreshed.value else RebaseError in ls
  }

  function MatchLabel(i: Iid, ls: set<Label>, l: Label, wanted: bool): seq<Write> {
    if wanted && l !in ls then [AddLabel(i, l)]
    else if !wanted && l in ls then [RemoveLabel(i, l)]
    else []
  }

  /** The part behind the rebase check; it needs at least one finished pipeline. */
  function CheckPipelines(i: Iid, ls: set<Label>, ps: seq<Pipeline>, f: Facts, limit: nat): seq<Write> {
    if Terminal(ps) == [] then []
    else
      MatchLabel(i, ls, PipelineError, !IsHealthy(Terminal(ps), limit))
      + if MergeError in ls && f.noted then [RemoveLabel(i, MergeError)] else []
  }

  function CheckOne(i: Iid, ls: set<Label>, ps: seq<Pipeline>, f: Facts, limit: nat): seq<Write> {
    if !IsEligible(ls, f) then []
    else if RebaseFailed(ls, f) && RebaseError !in ls then [AddLabel(i, RebaseError)]
    else MatchLabel(i, ls, RebaseError, RebaseFailed(ls, f)) + CheckPipelines(i, ls, ps, f, limit)
  }

  function CheckAll(r: Repo, mrs: seq<Iid>, facts: Iid -> Facts, limit: nat): seq<Write>
    decreases |mrs|
  {
    if mrs == [] then []
    else
      var w := CheckOne(mrs[0], LabelsOf(r, mrs[0]), PipelinesOf(r, mrs[0]), facts(mrs[0]), limit);
      w + CheckAll(Play(r, w), mrs[1..], facts, limit)
  }

  // --- What the check is content with ---------------------------------------------------

  /** Not a draft, approved and on hold by no label. */
  ghost predicate IsUnderReview(ls: set<Label>, f: Facts) {
    !f.draft && (exists l :: l in ls && Approves(l)) && forall l :: l in ls ==> !Holds(l)
  }

  predicate IsFinished(p: Pipeline) {
    match p.status
    case Running => false
    case Pending => false
    case OtherStatus => false
    case _ => true
  }

  ghost predicate AnyFinished(ps: seq<Pipeline>) {
    exists p :: p in ps && IsFinished(p)
  }

  /** There are `limit` finished pipelines, and the newest of them all failed. */
  predicate AllFailed(ps: seq<Pipeline>, limit: nat) {
    limit == 0
    || (ps != [] && if IsFinished(ps[0]) then ps[0].status == Failed && AllFailed(ps[1..], limit - 1) else AllFailed(ps[1..], limit))
  }

  /** Once a pipeline has finished, the pipeline error says whether the newest have all failed, and no
      merge error stays that somebody has commented on. */
  ghost predicate PipelinesSettled(ls: set<Label>, ps: seq<Pipeline>, f: Facts, limit: nat) {
    AnyFinished(ps) ==> (PipelineError in ls <==> AllFailed(ps, limit)) && !(MergeError in ls && f.noted)
  }

  ghost predicate Settled(ls: set<Label>, ps: seq<Pipeline>, f: Facts, limit: nat) {
    IsUnderReview(ls, f) ==>
      && (f.refreshed.Some? ==> (RebaseError in ls <==> f.refreshed.value))
      && PipelinesSettled(ls, ps, f, limit)
  }

  lemma EligibleIff(ls: set<Label>, f: Facts)
    ensures IsEligible(ls, f) <==> IsUnderReview(ls, f)
  {
    assert forall l :: IsApproval(l) <==> Approves(l);
    assert forall l :: l in HOLD_LABELS <==> Holds(l);
    if l :| l in ls * HOLD_LABELS { assert l in ls && Holds(l); }
    if l :| l in ls && Holds(l) { assert l in ls * HOLD_LABELS; }
  }

  lemma {:induction false} TerminalIs(ps: seq<Pipeline>, limit: nat)
    ensures Terminal(ps) != [] <==> AnyFinished(ps)
    ensures !IsHealthy(Terminal(ps), limit) <==> AllFailed(ps, limit)
  {
    if ps != [] {
      assert forall p :: p in ps <==> p == ps[0] || p in ps[1..];
      TerminalIs(ps[1..], limit);
      if IsFinished(ps[0]) && limit > 0 {
        TerminalIs(ps[1..], limit - 1);
        HealthyCons(ps[0], Terminal(ps[1..]), limit);
      }
    }
  }

  lemma HealthyCons(p: Pipeline, rest: seq<Pipeline>, limit: nat)
    requires limit > 0
    ensures IsHealthy([p] + rest, limit) <==> p.status != Failed || IsHealthy(rest, limit - 1)
  {
    var all := [p] + rest;
    if p.status != Failed && limit <= |all| { assert all[0].status != Failed; }
    if |rest| >= limit - 1 {
      if k :| 0 <= k < limit - 1 && rest[k].status != Failed { assert all[k + 1].status != Failed; }
      if k :| 0 <= k < limit && all[k].status != Failed { assert k > 0 ==> rest[k - 1].status != Failed; }
    }
  }

  /** The labels left by label writes for one MR. */
  function Relabel(ls: set<Label>, ws: seq<Write>): set<Label>
    decreases |ws|
  {
    if ws == [] then ls
    else match ws[0]
      case AddLabel(_, l) => Relabel(ls + {l}, ws[1..])
      case RemoveLabel(_, l) => Relabel(ls - {l}, ws[1..])
      case _ => Relabel(ls, ws[1..])
  }

  function LabelsAfter(i: Iid, ls: set<Label>, ps: seq<Pipeline>, f: Facts, limit: nat): set<Label> {
    Relabel(ls, CheckOne(i, ls, ps, f, limit))
  }

  lemma {:induction false} RelabelConcat(ls: set<Label>, a: seq<Write>, b: seq<Write>)
    ensures Relabel(ls, a + b) == Relabel(Relabel(ls, a), b)
    decreases |a|
  {
    if a == [] {
      assert a + b == b;
    } else {
      assert (a + b)[1..] == a[1..] + b;
      match a[0]
      case AddLabel(_, l) => RelabelConcat(ls + {l}, a[1..], b);
      case RemoveLabel(_, l) => RelabelConcat(ls - {l}, a[1..], b);
      case _ => RelabelConcat(ls, a[1..], b);
    }
  }

  lemma MatchLabelSets(i: Iid, ls: set<Label>, base: set<Label>, l: Label, wanted: bool)
    requires l in ls <==> l in base
    ensures Relabel(ls, MatchLabel(i, base, l, wanted)) == if wanted then ls + {l} else ls - {l}
  {
  }

  /** The check writes nothing exactly when the labels are settled. */
  lemma SettledIffQuiet(i: Iid, ls: set<Label>, ps: seq<Pipeline>, f: Facts, limit: nat)
    ensures CheckOne(i, ls, ps, f, limit) == [] <==> Settled(ls, ps, f, limit)
  {
    EligibleIff(ls, f);
    PipelinesSettledIffQuiet(i, ls, ps, f, limit);
  }

  lemma PipelinesSettledIffQuiet(i: Iid, ls: set<Label>, ps: seq<Pipeline>, f: Facts, limit: nat)
    ensures CheckPipelines(i, ls, ps, f, limit) == [] <==> PipelinesSettled(ls, ps, f, limit)
  {
    TerminalIs(ps, limit);
  }

  /** The MR is flagged for a failed rebase by this very pass, which then looks no further. */
  ghost predicate IsFlaggedNow(ls: set<Label>, f: Facts) {
    IsUnderReview(ls, f) && f.refreshed == Some(true) && RebaseError !in ls
  }

  lemma ReviewStays(ls: set<Label>, ls': set<Label>, f: Facts)
    requires ls' - ERROR_LABELS == ls - ERROR_LABELS
    ensures IsUnderReview(ls', f) == IsUnderReview(ls, f)
  {
    forall l | Approves(l) || Holds(l) ensures l in ls <==> l in ls' {
      assert l in ls - ERROR_LABELS <==> l in ls' - ERROR_LABELS;
    }
  }

  lemma CheckedPipelinesLabels(i: Iid, ls: set<Label>, base: set<Label>, ps: seq<Pipeline>, f: Facts, limit: nat)
    requires PipelineError in ls <==> PipelineError in base
    requires MergeError in ls <==> MergeError in base
    ensures var ls' := Relabel(ls, CheckPipelines(i, base, ps, f, limit));
            && PipelinesSettled(ls', ps, f, limit)
            && ls' - {PipelineError, MergeError} == ls - {PipelineError, MergeError}
  {
    TerminalIs(ps, limit);
    if Terminal(ps) != [] {
      var a := MatchLabel(i, base, PipelineError, !IsHealthy(Terminal(ps), limit));
      var b := if MergeError in base && f.noted then [RemoveLabel(i, MergeError)] else [];
      MatchLabelSets(i, ls, base, PipelineError, !IsHealthy(Terminal(ps), limit));
      RelabelConcat(ls, a, b);
      assert Relabel(ls, a + b) == if b == [] then Relabel(ls, a) else Relabel(ls, a) - {MergeError};
    }
  }

  lemma RelabelOne(ls: set<Label>, w: Write)
    requires w.AddLabel?
    ensures Relabel(ls, [w]) == ls + {w.tag}
  {
    assert [w][1..] == [];
  }

  /** One pass settles an MR unless it flags it just now; then exactly the rebase error is new. */
  lemma OnePass(i: Iid, ls: set<Label>, ps: seq<Pipeline>, f: Facts, limit: nat)
    ensures var ls' := LabelsAfter(i, ls, ps, f, limit);
            && ls' - ERROR_LABELS == ls - ERROR_LABELS
            && IsUnderReview(ls', f) == IsUnderReview(ls, f)
            && (!IsUnderReview(ls, f) ==> ls' == ls)
            && (IsFlaggedNow(ls, f) ==> ls' == ls + {RebaseError})
            && (!IsFlaggedNow(ls, f) ==> Settled(ls', ps, f, limit))
  {
    var ls' := LabelsAfter(i, ls, ps, f, limit);
    EligibleIff(ls, f);
    if IsEligible(ls, f) && !IsFlaggedNow(ls, f) {
      var a := MatchLabel(i, ls, RebaseError, RebaseFailed(ls, f));
      var b := CheckPipelines(i, ls, ps, f, limit);
      MatchLabelSets(i, ls, ls, RebaseError, RebaseFailed(ls, f));
      RelabelConcat(ls, a, b);
      CheckedPipelinesLabels(i, Relabel(ls, a), ls, ps, f, limit);
      assert RebaseError in ls' <==> RebaseError in ls' - {PipelineError, MergeError};
      assert ls' - ERROR_LABELS == (ls' - {PipelineError, MergeError}) - {RebaseError};
      assert ls - ERROR_LABELS == (Relabel(ls, a) - {PipelineError, MergeError}) - {RebaseError};
    } else if IsFlaggedNow(ls, f) {
      RelabelOne(ls, AddLabel(i, RebaseError));
    }
    ReviewStays(ls, ls', f);
  }

  /** The labels that one pass leaves, label by label.  An MR that is not under review, and every other label,
      stays as it is.  The rebase error follows GitLab's report, unless the refresh failed.  If that has
      just flagged the MR, nothing else changes; otherwise, once a pipeline has finished, the pipeline
      error says whether the newest `limit` have failed, and a merge error goes if somebody has
      commented on it. */
  lemma LabelsAre(i: Iid, ls: set<Label>, ps: seq<Pipeline>, f: Facts, limit: nat)
    ensures var ls' := LabelsAfter(i, ls, ps, f, limit);
            var further := !(f.refreshed == Some(true) && RebaseError !in ls) && AnyFinished(ps);
            && (forall l :: l != RebaseError && l != PipelineError && l != MergeError ==> (l in ls' <==> l in ls))
            && (!IsUnderReview(ls, f) ==> ls' == ls)
            && (IsUnderReview(ls, f) ==>
                  && (RebaseError in ls' <==> if f.refreshed.Some? then f.refreshed.value else RebaseError in ls)
                  && (PipelineError in ls' <==> if further then AllFailed(ps, limit) else PipelineError in ls)
                  && (MergeError in ls' <==> MergeError in ls && !(further && f.noted)))
  {
    var ls' := LabelsAfter(i, ls, ps, f, limit);
    OnePass(i, ls, ps, f, limit);
    forall l | l !in ERROR_LABELS ensures l in ls' <==> l in ls { assert l in ls' - ERROR_LABELS <==> l in ls - ERROR_LABELS; }
    if IsUnderReview(ls, f) && !IsFlaggedNow(ls, f) {
      var a := MatchLabel(i, ls, RebaseError, RebaseFailed(ls, f));
      EligibleIff(ls, f);
      TerminalIs(ps, limit);
      MatchLabelSets(i, ls, ls, RebaseError, RebaseFailed(ls, f));
      RelabelConcat(ls, a, CheckPipelines(i, ls, ps, f, limit));
      PipelineLabels(i, Relabel(ls, a), ls, ps, f, limit);
    }
  }

  lemma PipelineLabels(i: Iid, ls: set<Label>, base: set<Label>, ps: seq<Pipeline>, f: Facts, limit: nat)
    requires PipelineError in ls <==> PipelineError in base
    requires MergeError in ls <==> MergeError in base
    ensures var ls' := Relabel(ls, CheckPipelines(i, base, ps, f, limit));
            && (PipelineError in ls' <==> if AnyFinished(ps) then AllFailed(ps, limit) else PipelineError in ls)
            && (MergeError in ls' <==> MergeError in ls && !(AnyFinished(ps) && f.noted))
            && (RebaseError in ls' <==> RebaseError in ls)
  {
    TerminalIs(ps, limit);
    if Terminal(ps) != [] {
      var a := MatchLabel(i, base, PipelineError, !IsHealthy(Terminal(ps), limit));
      var b := if MergeError in base && f.noted then [RemoveLabel(i, MergeError)] else [];
      MatchLabelSets(i, ls, base, PipelineError, !IsHealthy(Terminal(ps), limit));
      RelabelConcat(ls, a, b);
      assert Relabel(ls, a + b) == if b == [] then Relabel(ls, a) else Relabel(ls, a) - {MergeError};
    }
  }

  /** With pipelines, notes and GitLab's reports unchanged, two passes always reach a fixpoint. */
  lemma TwoPassesSettle(i: Iid, ls: set<Label>, ps: seq<Pipeline>, f: Facts, limit: nat)
    ensures Settled(LabelsAfter(i, LabelsAfter(i, ls, ps, f, limit), ps, f, limit), ps, f, limit)
  {
    OnePass(i, ls, ps, f, limit);
    OnePass(i, LabelsAfter(i, ls, ps, f, limit), ps, f, limit);
  }

  /** One pass fails to reach it exactly when it flags a rebase error on an MR whose pipeline or
      merge-error labels are out of date. */
  lemma OnePassSettlesIff(i: Iid, ls: set<Label>, ps: seq<Pipeline>, f: Facts, limit: nat)
    ensures Settled(LabelsAfter(i, ls, ps, f, limit), ps, f, limit)
      <==> (IsFlaggedNow(ls, f) ==> PipelinesSettled(ls, ps, f, limit))
  {
    OnePass(i, ls, ps, f, limit);
  }

  /** An approved MR with a green pipeline and a stale pipeline error: the pass that flags its failed
      rebase leaves the pipeline error on. */
  lemma OnePassIsNotEnough(i: Iid)
    ensures var ls, ps, f := {Lgtm, PipelineError}, [Pipeline(Success, false)], Facts(false, Some(true), false);
            && LabelsAfter(i, ls, ps, f, 3) == {Lgtm, PipelineError, RebaseError}
            && !Settled(LabelsAfter(i, ls, ps, f, 3), ps, f, 3)
  {
    var ls, ps, f := {Lgtm, PipelineError}, [Pipeline(Success, false)], Facts(false, Some(true), false);
    assert Lgtm in ls && Approves(Lgtm) && ps[0] in ps && IsFinished(ps[0]);
    OnePass(i, ls, ps, f, 3);
    OnePassSettlesIff(i, ls, ps, f, 3);
  }

  // --- A whole pass ---------------------------------------------------------------------

  ghost predicate LabelsOnly(i: Iid, ws: seq<Write>) {
    forall w :: w in ws ==> w.iid == i && (w.AddLabel? || w.RemoveLabel?) && w.tag in ERROR_LABELS
  }

  lemma CheckOneLabelsOnly(i: Iid, ls: set<Label>, ps: seq<Pipeline>, f: Facts, limit: nat)
    ensures LabelsOnly(i, CheckOne(i, ls, ps, f, limit))
  {
    assert LabelsOnly(i, MatchLabel(i, ls, RebaseError, RebaseFailed(ls, f)));
    assert LabelsOnly(i, MatchLabel(i, ls, PipelineError, !IsHealthy(Terminal(ps), limit)));
  }

  lemma {:induction false} PlayRelabel(r: Repo, i: Iid, ws: seq<Write>)
    requires i in r.mrs && LabelsOnly(i, ws)
    ensures Play(r, ws) == r.(mrs := r.mrs[i := r.mrs[i].(labels := Relabel(r.mrs[i].labels, ws))])
    decreases |ws|
  {
    if ws == [] {
      assert r.mrs[i := r.mrs[i]] == r.mrs;
    } else {
      var r1 := Do(r, ws[0]);
      assert ws[0] in ws && r1.mrs.Keys == r.mrs.Keys;
      forall w | w in ws[1..] ensures w in ws {}
      PlayRelabel(r1, i, ws[1..]);
      assert r1.mrs[i := Play(r1, ws[1..]).mrs[i]] == r.mrs[i := Play(r1, ws[1..]).mrs[i]];
    }
  }

  ghost predicate AllSettled(r: Repo, mrs: seq<Iid>, facts: Iid -> Facts, limit: nat) {
    forall i :: i in mrs ==> Settled(LabelsOf(r, i), PipelinesOf(r, i), facts(i), limit)
  }

  function AfterCheck(r: Repo, i: Iid, facts: Iid -> Facts, limit: nat): set<Label> {
    LabelsAfter(i, LabelsOf(r, i), PipelinesOf(r, i), facts(i), limit)
  }

  /** One pass over distinct MRs relabels each of them on its own and changes nothing else. */
  lemma {:induction false} CheckAllResult(r: Repo, mrs: seq<Iid>, facts: Iid -> Facts, limit: nat)
    requires NoDup(mrs) && forall i :: i in mrs ==> i in r.mrs
    ensures var r' := Play(r, CheckAll(r, mrs, facts, limit));
            && r'.mrs.Keys == r.mrs.Keys
            && (forall i :: i in r.mrs ==>
                  r'.mrs[i] == if i in mrs then r.mrs[i].(labels := AfterCheck(r, i, facts, limit)) else r.mrs[i])
    decreases |mrs|
  {
    if mrs != [] {
      var i := mrs[0];
      var w := CheckOne(i, LabelsOf(r, i), PipelinesOf(r, i), facts(i), limit);
      var r1 := Play(r, w);
      CheckOneLabelsOnly(i, LabelsOf(r, i), PipelinesOf(r, i), facts(i), limit);
      assert i in mrs;
      PlayRelabel(r, i, w);
      forall j | j in mrs[1..] ensures j in mrs && j in r1.mrs && j != i {}
      CheckAllResult(r1, mrs[1..], facts, limit);
      PlayConcat(r, w, CheckAll(r1, mrs[1..], facts, limit));
      forall j | j in mrs[1..] ensures AfterCheck(r1, j, facts, limit) == AfterCheck(r, j, facts, limit) {}
    }
  }

  /** A pass writes nothing exactly when every MR it looks at is settled. */
  lemma {:induction false} QuietIffAllSettled(r: Repo, mrs: seq<Iid>, facts: Iid -> Facts, limit: nat)
    ensures CheckAll(r, mrs, facts, limit) == [] <==> AllSettled(r, mrs, facts, limit)
    decreases |mrs|
  {
    if mrs != [] {
      var i := mrs[0];
      SettledIffQuiet(i, LabelsOf(r, i), PipelinesOf(r, i), facts(i), limit);
      QuietIffAllSettled(r, mrs[1..], facts, limit);
      assert forall j :: j in mrs <==> j == i || j in mrs[1..];
    }
  }

  ghost predicate Deferred(r: Repo, i: Iid, facts: Iid -> Facts, limit: nat) {
    IsFlaggedNow(LabelsOf(r, i), facts(i)) && !PipelinesSettled(LabelsOf(r, i), PipelinesOf(r, i), facts(i), limit)
  }

  /** After one pass a second one writes nothing if and only if no MR was freshly flagged with its
      other labels out of date; after two passes a third one never writes anything. */
  lemma PassesToFixpoint(r: Repo, mrs: seq<Iid>, facts: Iid -> Facts, limit: nat)
    requires NoDup(mrs) && forall i :: i in mrs ==> i in r.mrs
    ensures var r1 := Play(r, CheckAll(r, mrs, facts, limit));
            var r2 := Play(r1, CheckAll(r1, mrs, facts, limit));
            && (CheckAll(r1, mrs, facts, limit) == [] <==> forall i :: i in mrs ==> !Deferred(r, i, facts, limit))
            && CheckAll(r2, mrs, facts, limit) == []
  {
    var r1 := Play(r, CheckAll(r, mrs, facts, limit));
    var r2 := Play(r1, CheckAll(r1, mrs, facts, limit));
    CheckAllResult(r, mrs, facts, limit);
    CheckAllResult(r1, mrs, facts, limit);
    QuietIffAllSettled(r1, mrs, facts, limit);
    QuietIffAllSettled(r2, mrs, facts, limit);
    forall i | i in mrs
      ensures Settled(LabelsOf(r1, i), PipelinesOf(r1, i), facts(i), limit) <==> !Deferred(r, i, facts, limit)
      ensures Settled(LabelsOf(r2, i), PipelinesOf(r2, i), facts(i), limit)
    {
      OnePassSettlesIff(i, LabelsOf(r, i), PipelinesOf(r, i), facts(i), limit);
      TwoPassesSettle(i, LabelsOf(r, i), PipelinesOf(r, i), facts(i), limit);
    }
  }

  /** The health check is a legal step of the merge-queue runs: it never touches group labels. */
  lemma {:induction false} CheckIsUpkeep(on: bool, r: Repo, mrs: seq<Iid>, facts: Iid -> Facts, limit: nat)
    requires forall i :: i in mrs ==> i in r.mrs
    ensures Possible(on, r, Upkeep(CheckAll(r, mrs, facts, limit)))
    decreases |mrs|
  {
    if mrs != [] {
      var i := mrs[0];
      var w := CheckOne(i, LabelsOf(r, i), PipelinesOf(r, i), facts(i), limit);
      CheckOneLabelsOnly(i, LabelsOf(r, i), PipelinesOf(r, i), facts(i), limit);
      assert i in mrs;
      LabelsOnlyLegal(Terms(on, {}, false), r, i, w);
      PlayRelabel(r, i, w);
      forall j | j in mrs[1..] ensures j in mrs {}
      CheckIsUpkeep(on, Play(r, w), mrs[1..], facts, limit);
      EachConcat(Rule(Terms(on, {}, false)), r, w, CheckAll(Play(r, w), mrs[1..], facts, limit));
    }
  }

  lemma {:induction false} LabelsOnlyLegal(t: Terms, r: Repo, i: Iid, ws: seq<Write>)
    requires i in r.mrs && LabelsOnly(i, ws)
    ensures AllLegal(t, r, ws)
    decreases |ws|
  {
    if ws != [] {
      assert ws[0] in ws && Rule(t)(r, ws[0]);
      forall w | w in ws[1..] ensures w in ws {}
      LabelsOnlyLegal(t, Do(r, ws[0]), i, ws[1..]);
    }
  }

  // --- The loop -------------------------------------------------------------------------

  /** One iteration of `run_error_healthcheck`, on the label set read at its start. */
  method CheckMr(gl: GitLabApi, dry: bool, mr: Iid, f: Facts, limit: nat)
    modifies gl
    ensures Wrote(old(gl.repo), old(gl.log), gl.repo, gl.log,
                  Emit(dry, CheckOne(mr, LabelsOf(old(gl.repo), mr), PipelinesOf(old(gl.repo), mr), f, limit)))
  {
    var labels := LabelsOf(gl.repo, mr);
    if f.draft { return; }
    if !IsGoodToMerge(labels) { return; }
    var hasRebaseError := RebaseError in labels;
    var rebaseFailed := hasRebaseError;
    if f.refreshed.Some? { rebaseFailed := f.refreshed.value; }
    ghost var w1: seq<Write> := Emit(dry, MatchLabel(mr, labels, RebaseError, rebaseFailed));
    if rebaseFailed && !hasRebaseError {
      if !dry { gl.Write(AddLabel(mr, RebaseError)); }
      return;
    } else if !rebaseFailed && hasRebaseError {
      if !dry { gl.Write(RemoveLabel(mr, RebaseError)); }
    }
    ghost var r1, l1 := gl.repo, gl.log;
    CheckMrPipelines(gl, dry, mr, labels, f, limit);
    Then(old(gl.repo), old(gl.log), r1, l1, gl.repo, gl.log, w1, Emit(dry, CheckPipelines(mr, labels, PipelinesOf(r1, mr), f, limit)));
  }

  /** The pipeline and merge-error part of an iteration. */
  method CheckMrPipelines(gl: GitLabApi, dry: bool, mr: Iid, labels: set<Label>, f: Facts, limit: nat)
    modifies gl
    ensures Wrote(old(gl.repo), old(gl.log), gl.repo, gl.log,
                  Emit(dry, CheckPipelines(mr, labels, PipelinesOf(old(gl.repo), mr), f, limit)))
  {
    var terminal := Terminal(PipelinesOf(gl.repo, mr));
    if terminal == [] { return; }
    var hasPipelineError := PipelineError in labels;
    var healthy := CheckPipelineHealth(terminal, limit);
    ghost var w1 := Emit(dry, MatchLabel(mr, labels, PipelineError, !healthy));
    if !healthy && !hasPipelineError {
      if !dry { gl.Write(AddLabel(mr, PipelineError)); }
    } else if healthy && hasPipelineError {
      if !dry { gl.Write(RemoveLabel(mr, PipelineError)); }
    }
    ghost var r1, l1 := gl.repo, gl.log;
    ghost var w2 := if MergeError in labels && f.noted then Emit(dry, [RemoveLabel(mr, MergeError)]) else [];
    if MergeError in labels && f.noted {
      if !dry { gl.Write(RemoveLabel(mr, MergeError)); }
    }
    Then(old(gl.repo), old(gl.log), r1, l1, gl.repo, gl.log, w1, w2);
  }

  /** `check_pipeline_health`: unhealthy exactly when the newest `limit` finished pipelines all failed. */
  method CheckPipelineHealth(ps: seq<Pipeline>, limit: nat) returns (healthy: bool)
    ensures !healthy <==> |ps| >= limit && forall k :: 0 <= k < limit ==> ps[k].status == Failed
    ensures healthy <==> IsHealthy(ps, limit)
  {
    if |ps| < limit { return true; }
    for k := 0 to limit
      invariant forall j :: 0 <= j < k ==> ps[j].status == Failed
    {
      if ps[k].status != Failed { return true; }
    }
    return false;
  }

  /** `run_error_healthcheck` */
  method RunErrorHealthcheck(gl: GitLabApi, dry: bool, mrs: seq<Iid>, facts: Iid -> Facts, limit: nat)
    modifies gl
    ensures Wrote(old(gl.repo), old(gl.log), gl.repo, gl.log, Emit(dry, CheckAll(old(gl.repo), mrs, facts, limit)))
  {
    ghost var ws: seq<Write> := [];
    for k := 0 to |mrs|
      invariant Wrote(old(gl.repo), old(gl.log), gl.repo, gl.log, ws)
      invariant Emit(dry, CheckAll(old(gl.repo), mrs, facts, limit))
        == ws + Emit(dry, CheckAll(gl.repo, mrs[k..], facts, limit))
    {
      ghost var r1, l1 := gl.repo, gl.log;
      ghost var w := Emit(dry, CheckOne(mrs[k], LabelsOf(r1, mrs[k]), PipelinesOf(r1, mrs[k]), facts(mrs[k]), limit));
      assert mrs[k..][0] == mrs[k] && mrs[k..][1..] == mrs[k + 1..];
      CheckMr(gl, dry, mrs[k], facts(mrs[k]), limit);
      Then(old(gl.repo), old(gl.log), r1, l1, gl.repo, gl.log, ws, w);
      Regroup(ws, w, Emit(dry, CheckAll(gl.repo, mrs[k + 1..], facts, limit)));
      ws := ws + w;
    }
    assert mrs[|mrs|..] == [] && ws + [] == ws;
  }
}
