/** What a group pass does with each pending member, and when the group stays open, told by what GitLab
    shows of the member at its turn: labels, pipelines, commits, and the answers it gives. */
module MergeQueueMembers {
  import opened Common
  import opened GitLabRepo
  import opened MergeQueue
  import opened MergeQueueRules
  import opened MergeQueueLegal
  import opened MergeQueueGroups
  import opened MergeQueueRuns
  import opened MergeQueueLandings

  // --- What GitLab shows ----------------------------------------------------------------

  /** A label that keeps an MR from being merged: an error flag or a hold. */
  predicate Blocks(l: Label) {
    l == MergeError || l == PipelineError || l == RebaseError || Holds(l)
  }

  /** Blocked by a label, or GitLab does not know its commit. */
  ghost predicate IsHeldBack(r: Repo, i: Iid, a: Answers) {
    i in r.mrs && (a.missing(i) || exists l :: l in r.mrs[i].labels && Blocks(l))
  }

  /** Skipped pipelines and those started by a push say nothing. */
  predicate HasSignal(p: Pipeline) {
    p.status != Skipped && !p.push
  }

  /** The newest pipeline that says something has one of these statuses. */
  ghost predicate NewestIn(ps: seq<Pipeline>, statuses: set<Status>) {
    exists k :: 0 <= k < |ps| && IsNewestSignal(ps, k) && ps[k].status in statuses
  }

  ghost predicate IsNewestSignal(ps: seq<Pipeline>, k: nat)
    requires k < |ps|
  {
    HasSignal(ps[k]) && forall j :: 0 <= j < k ==> !HasSignal(ps[j])
  }

  /** The whole history of the target branch is in the MR's. */
  ghost predicate ContainsHead(r: Repo, i: Iid) {
    i in r.mrs && forall c :: c in Reach(r, Head(r, r.mrs[i].target)) ==> c in Reach(r, r.mrs[i].sha)
  }

  ghost predicate Shows(r: Repo, i: Iid, statuses: set<Status>) {
    i in r.mrs && NewestIn(r.mrs[i].pipelines, statuses)
  }

  ghost predicate IsGreen(r: Repo, i: Iid, a: Answers) {
    !IsHeldBack(r, i, a) && Shows(r, i, {Success})
  }

  /** Ready to be merged. */
  ghost predicate IsReady(r: Repo, i: Iid, a: Answers) {
    IsGreen(r, i, a) && ContainsHead(r, i)
  }

  /** Leaves the group: held back, failed, or green but in conflict with what has been merged. */
  ghost predicate Leaves(r: Repo, i: Iid, a: Answers) {
    || IsHeldBack(r, i, a)
    || Shows(r, i, {Failed, Canceled})
    || (IsGreen(r, i, a) && !ContainsHead(r, i) && a.rebase(i) == Conflict)
  }

  /** Worth waiting for: its pipeline is under way; or it contains HEAD and has no pipeline to speak of, or one
      of an unknown status; or it is green, behind HEAD, and has just been rebased. */
  ghost predicate IsAwaited(r: Repo, i: Iid, a: Answers) {
    && i in r.mrs && !IsHeldBack(r, i, a)
    && (|| Shows(r, i, {Running, Pending})
        || (ContainsHead(r, i) && !Shows(r, i, {Running, Pending, Success, Failed, Canceled}))
        || (Shows(r, i, {Success}) && !ContainsHead(r, i) && a.rebase(i).Accepted?))
  }

  // --- One member -----------------------------------------------------------------------

  lemma {:induction false} SignalIsNewest(ps: seq<Pipeline>, statuses: set<Status>)
    ensures NewestIn(ps, statuses) <==> Signal(ps) != [] && Signal(ps)[0].status in statuses
  {
    if ps != [] {
      var rest := ps[1..];
      if HasSignal(ps[0]) {
        assert IsNewestSignal(ps, 0);
        forall k | 0 < k < |ps| ensures !IsNewestSignal(ps, k) {}
      } else {
        SignalIsNewest(rest, statuses);
        forall k | 0 < k < |ps| ensures IsNewestSignal(ps, k) <==> IsNewestSignal(rest, k - 1) {
          assert forall j :: 0 <= j < k - 1 ==> rest[j] == ps[j + 1];
        }
        if NewestIn(rest, statuses) {
          var k :| 0 <= k < |rest| && IsNewestSignal(rest, k) && rest[k].status in statuses;
          assert IsNewestSignal(ps, k + 1);
        }
      }
    }
  }

  lemma BlockedIff(ls: set<Label>)
    ensures (exists l :: l in ls && Blocks(l)) <==> ls * ERROR_LABELS != {} || ls * HOLD_LABELS != {}
  {
    assert forall l :: Blocks(l) <==> l in ERROR_LABELS || l in HOLD_LABELS;
    if l :| l in ls && Blocks(l) { assert l in ls * ERROR_LABELS || l in ls * HOLD_LABELS; }
    if l :| l in ls * ERROR_LABELS { assert l in ls && Blocks(l); }
    if l :| l in ls * HOLD_LABELS { assert l in ls && Blocks(l); }
  }

  lemma ShownIs(r: Repo, i: Iid, a: Answers)
    requires i in r.mrs
    ensures var live, ls := Signal(PipelinesOf(r, i)), LabelsOf(r, i);
            && (forall statuses :: Shows(r, i, statuses) <==> live != [] && live[0].status in statuses)
            && (IsHeldBack(r, i, a) <==> ls * ERROR_LABELS != {} || ls * HOLD_LABELS != {} || a.missing(i))
            && (ContainsHead(r, i) <==> IsRebased(r, ShaOf(r, i), TargetOf(r, i)))
  {
    BlockedIff(LabelsOf(r, i));
    forall statuses ensures Shows(r, i, statuses) <==> Signal(PipelinesOf(r, i)) != [] && Signal(PipelinesOf(r, i))[0].status in statuses {
      SignalIsNewest(r.mrs[i].pipelines, statuses);
    }
  }

  /** What a pass that is not dry does with one member: it is unlabelled if it leaves, merged if it is ready -
      or flagged, if GitLab refuses - and rebased if it is green but behind; everybody else is left as he
      is.  It counts as active exactly if it is worth waiting for. */
  lemma MemberReacts(r: Repo, i: Iid, a: Answers)
    requires i in r.mrs
    ensures var m := Member(r, i, a, false);
            && (Leaves(r, i, a) <==> m.writes == [RemoveLabel(i, OmmPending)])
            && (forall how :: IsReady(r, i, a) && a.land(i) == Landed(how) <==> m.writes == [Land(i, how)])
            && (IsReady(r, i, a) && a.land(i) == Refused <==> m.writes == [AddLabel(i, MergeError)])
            && (forall moved :: IsGreen(r, i, a) && !ContainsHead(r, i) && a.rebase(i) == Accepted(moved) <==> m.writes == [Rebase(i, moved)])
            && (m.writes == [] || (|m.writes| == 1 && m.writes[0].iid == i))
            && (m.merged <==> IsReady(r, i, a) && a.land(i).Landed?)
            && (m.active <==> IsAwaited(r, i, a))
  {
    ShownIs(r, i, a);
  }

  // --- The member loop ------------------------------------------------------------------

  /** The writes about these MRs, in order. */
  function About(ws: seq<Write>, ids: set<Iid>): seq<Write> {
    if ws == [] then []
    else (if ws[0].iid in ids then [ws[0]] else []) + About(ws[1..], ids)
  }

  function LandsIn(ws: seq<Write>): nat {
    if ws == [] then 0 else (if ws[0].Land? then 1 else 0) + LandsIn(ws[1..])
  }

  /** Nothing has landed yet, or less than the limit. */
  predicate BelowLimit(ws: seq<Write>, limit: int) {
    LandsIn(ws) == 0 || LandsIn(ws) < limit
  }

  lemma {:induction false} AboutConcat(a: seq<Write>, b: seq<Write>, ids: set<Iid>)
    ensures About(a + b, ids) == About(a, ids) + About(b, ids)
    decreases |a|
  {
    if a == [] {
      assert a + b == b;
    } else {
      var x := if a[0].iid in ids then [a[0]] else [];
      assert (a + b)[0] == a[0] && (a + b)[1..] == a[1..] + b;
      AboutConcat(a[1..], b, ids);
      assert x + (About(a[1..], ids) + About(b, ids)) == (x + About(a[1..], ids)) + About(b, ids);
    }
  }

  lemma {:induction false} LandsConcat(a: seq<Write>, b: seq<Write>)
    ensures LandsIn(a + b) == LandsIn(a) + LandsIn(b)
    decreases |a|
  {
    if a == [] {
      assert a + b == b;
    } else {
      assert (a + b)[0] == a[0] && (a + b)[1..] == a[1..] + b;
      LandsConcat(a[1..], b);
    }
  }

  lemma {:induction false} AboutIs(ws: seq<Write>, ids: set<Iid>)
    ensures forall w :: w in About(ws, ids) <==> w in ws && w.iid in ids
    ensures (forall w :: w in ws ==> w.iid in ids) ==> About(ws, ids) == ws
    ensures (forall w :: w in ws ==> w.iid !in ids) ==> About(ws, ids) == []
    ensures (forall w :: w in ws ==> !w.Land?) ==> LandsIn(ws) == 0
  {
    if ws != [] {
      AboutIs(ws[1..], ids);
      assert forall w :: w in ws <==> w == ws[0] || w in ws[1..];
    }
  }

  /** What the first `k` members make the loop write, each in the state that the writes before lead to. */
  function Firsts(r: Repo, ids: seq<Iid>, a: Answers, k: nat): seq<Write>
    requires k <= |ids|
  {
    if k == 0 then []
    else
      var before := Firsts(r, ids, a, k - 1);
      before + Member(Play(r, before), ids[k - 1], a, false).writes
  }

  /** The state in which the loop finds member `k`. */
  function Midway(r: Repo, ids: seq<Iid>, a: Answers, k: nat): Repo
    requires k <= |ids|
  {
    Play(r, Firsts(r, ids, a, k))
  }

  ghost predicate AllIn(r: Repo, ids: seq<Iid>) {
    NoDup(ids) && forall i :: i in ids ==> i in r.mrs
  }

  lemma MemberWrites(r: Repo, i: Iid, a: Answers)
    requires i in r.mrs
    ensures var m := Member(r, i, a, false);
            && (forall x :: x in m.writes ==> x.iid == i)
            && LandsIn(m.writes) == (if m.merged then 1 else 0)
  {
    MemberReacts(r, i, a);
    var w := Member(r, i, a, false).writes;
    if w != [] { assert w == [w[0]] && w[1..] == []; }
  }

  lemma {:induction false} FirstsAbout(r: Repo, ids: seq<Iid>, a: Answers, k: nat)
    requires k <= |ids|
    ensures forall w :: w in Firsts(r, ids, a, k) ==> w.iid in ids[..k]
  {
    if k > 0 {
      FirstsAbout(r, ids, a, k - 1);
      OneMoreFirst(r, ids, a, k);
      assert forall i :: i in ids[..k] <==> i in ids[..k - 1] || i == ids[k - 1];
    }
  }

  lemma OneMoreFirst(r: Repo, ids: seq<Iid>, a: Answers, k: nat)
    requires 0 < k <= |ids|
    ensures forall w :: w in Firsts(r, ids, a, k) ==> w in Firsts(r, ids, a, k - 1) || w.iid == ids[k - 1]
  {
    MemberShape(Midway(r, ids, a, k - 1), ids[k - 1], a, false);
  }

  lemma MidwayKeys(r: Repo, ids: seq<Iid>, a: Answers, k: nat)
    requires k <= |ids|
    ensures Midway(r, ids, a, k).mrs.Keys == r.mrs.Keys
  {
    PlayKeys(r, Firsts(r, ids, a, k));
  }

  lemma {:induction false} MembersAbout(r: Repo, ids: seq<Iid>, a: Answers, merges: nat, limit: int)
    requires forall i :: i in ids ==> i in r.mrs
    ensures forall w :: w in Members(r, ids, a, false, merges, limit).writes ==> w.iid in ids
    decreases |ids|
  {
    if ids != [] {
      var m := Member(r, ids[0], a, false);
      assert ids[0] in ids;
      MemberWrites(r, ids[0], a);
      PlayKeys(r, m.writes);
      forall i | i in ids[1..] ensures i in Play(r, m.writes).mrs { assert i in ids && i in r.mrs.Keys; }
      MembersAbout(Play(r, m.writes), ids[1..], a, if m.merged then merges + 1 else merges, limit);
    }
  }

  /** The loop has got as far as member `k`: it has written `first`, and goes on with `rest`. */
  ghost predicate GotTo(m: MembersOutcome, first: seq<Write>, active: bool, rest: MembersOutcome) {
    m.writes == first + rest.writes && m.active == (active || rest.active) && m.capped == rest.capped
  }

  ghost predicate SomeAwaited(r: Repo, ids: seq<Iid>, a: Answers, k: nat)
    requires k <= |ids|
  {
    exists j :: 0 <= j < k && IsAwaited(Midway(r, ids, a, j), ids[j], a)
  }

  lemma OneMoreAwaited(r: Repo, ids: seq<Iid>, a: Answers, k: nat)
    requires k < |ids|
    ensures SomeAwaited(r, ids, a, k + 1) <==> SomeAwaited(r, ids, a, k) || IsAwaited(Midway(r, ids, a, k), ids[k], a)
  {
  }

  /** One turn of the loop, on its outcomes alone. */
  lemma StepTaken(m: MembersOutcome, first: seq<Write>, active: bool, o: Outcome, here: MembersOutcome, later: MembersOutcome, limit: int)
    requires GotTo(m, first, active, here) && LandsIn(o.writes) == (if o.merged then 1 else 0)
    requires here == if o.merged && LandsIn(first) + 1 >= limit then MembersOutcome(o.writes, LandsIn(first) + 1, false, true)
                     else MembersOutcome(o.writes + later.writes, later.merges, o.active || later.active, later.capped)
    ensures LandsIn(first + o.writes) == if o.merged then LandsIn(first) + 1 else LandsIn(first)
    ensures if o.merged && LandsIn(first) + 1 >= limit then m.capped && m.writes == first + o.writes
            else GotTo(m, first + o.writes, active || o.active, later)
  {
    LandsConcat(first, o.writes);
    assert first + (o.writes + later.writes) == (first + o.writes) + later.writes;
  }

  /** The limit stops the loop at the first member, or it goes on from there. */
  lemma NextStep(m: MembersOutcome, first: seq<Write>, active: bool, s: Repo, rest: seq<Iid>, a: Answers, limit: int)
    requires rest != [] && rest[0] in s.mrs && GotTo(m, first, active, Members(s, rest, a, false, LandsIn(first), limit))
    ensures var o := Member(s, rest[0], a, false);
            var next := first + o.writes;
            if o.merged && LandsIn(first) + 1 >= limit then m.capped && m.writes == next
            else GotTo(m, next, active || o.active, Members(Play(s, o.writes), rest[1..], a, false, LandsIn(next), limit))
  {
    var o := Member(s, rest[0], a, false);
    var later := Members(Play(s, o.writes), rest[1..], a, false, if o.merged then LandsIn(first) + 1 else LandsIn(first), limit);
    MemberWrites(s, rest[0], a);
    StepTaken(m, first, active, o, Members(s, rest, a, false, LandsIn(first), limit), later, limit);
  }

  /** As long as less than the limit has landed before member `k`, the loop does what the first `k` call for,
      and goes on from there. */
  lemma {:induction false} LoopReaches(r: Repo, ids: seq<Iid>, a: Answers, limit: int, k: nat)
    requires AllIn(r, ids) && k <= |ids|
    requires BelowLimit(About(Members(r, ids, a, false, 0, limit).writes, Elems(ids[..k])), limit)
    ensures var m, first := Members(r, ids, a, false, 0, limit), Firsts(r, ids, a, k);
            && About(m.writes, Elems(ids[..k])) == first
            && GotTo(m, first, SomeAwaited(r, ids, a, k), Members(Midway(r, ids, a, k), ids[k..], a, false, LandsIn(first), limit))
  {
    var m := Members(r, ids, a, false, 0, limit);
    if k == 0 {
      assert Elems(ids[..0]) == {} && ids[0..] == ids && [] + m.writes == m.writes;
      AboutIs(m.writes, {});
      assert Midway(r, ids, a, 0) == r && !SomeAwaited(r, ids, a, 0);
    } else {
      AboutFewer(m.writes, ids, k - 1);
      LoopReaches(r, ids, a, limit, k - 1);
      ReachesNext(m, r, ids, a, limit, k - 1);
    }
  }

  lemma AboutFewer(ws: seq<Write>, ids: seq<Iid>, k: nat)
    requires k < |ids|
    ensures LandsIn(About(ws, Elems(ids[..k]))) <= LandsIn(About(ws, Elems(ids[..k + 1])))
  {
    assert forall i :: i in ids[..k] ==> i in ids[..k + 1];
    FewerLand(ws, Elems(ids[..k]), Elems(ids[..k + 1]));
  }

  lemma {:induction false} FewerLand(ws: seq<Write>, ids: set<Iid>, ids': set<Iid>)
    requires ids <= ids'
    ensures LandsIn(About(ws, ids)) <= LandsIn(About(ws, ids'))
  {
    if ws != [] {
      FewerLand(ws[1..], ids, ids');
      var x, x' := About(ws[1..], ids), About(ws[1..], ids');
      assert ([ws[0]] + x)[1..] == x && ([ws[0]] + x')[1..] == x' && [] + x == x && [] + x' == x';
    }
  }

  /** Member `k` stops the loop, or it goes on with the next one. */
  lemma LoopNext(m: MembersOutcome, r: Repo, ids: seq<Iid>, a: Answers, limit: int, k: nat)
    requires AllIn(r, ids) && k < |ids|
    requires var first := Firsts(r, ids, a, k);
             GotTo(m, first, SomeAwaited(r, ids, a, k), Members(Midway(r, ids, a, k), ids[k..], a, false, LandsIn(first), limit))
    ensures var first, next := Firsts(r, ids, a, k), Firsts(r, ids, a, k + 1);
            if LandsIn(next) > LandsIn(first) && LandsIn(next) >= limit then m.capped && m.writes == next
            else GotTo(m, next, SomeAwaited(r, ids, a, k + 1), Members(Midway(r, ids, a, k + 1), ids[k + 1..], a, false, LandsIn(next), limit))
  {
    NextMidway(r, ids, a, k);
    OneMoreAwaited(r, ids, a, k);
    assert ids[k..][0] == ids[k] && ids[k..][1..] == ids[k + 1..];
    NextStep(m, Firsts(r, ids, a, k), SomeAwaited(r, ids, a, k), Midway(r, ids, a, k), ids[k..], a, limit);
  }

  /** Below the limit it goes on with the next one. */
  lemma ReachesNext(m: MembersOutcome, r: Repo, ids: seq<Iid>, a: Answers, limit: int, k: nat)
    requires AllIn(r, ids) && k < |ids| && BelowLimit(About(m.writes, Elems(ids[..k + 1])), limit)
    requires var first := Firsts(r, ids, a, k);
             GotTo(m, first, SomeAwaited(r, ids, a, k), Members(Midway(r, ids, a, k), ids[k..], a, false, LandsIn(first), limit))
    ensures var next := Firsts(r, ids, a, k + 1);
            && About(m.writes, Elems(ids[..k + 1])) == next
            && GotTo(m, next, SomeAwaited(r, ids, a, k + 1), Members(Midway(r, ids, a, k + 1), ids[k + 1..], a, false, LandsIn(next), limit))
  {
    LoopNext(m, r, ids, a, limit, k);
    FirstsAbout(r, ids, a, k + 1);
    if m.writes == Firsts(r, ids, a, k + 1) {
      AboutIs(m.writes, Elems(ids[..k + 1]));
    } else {
      AboutFirsts(m, r, ids, a, limit, k + 1);
    }
  }

  /** What member `k` makes of the state in which the loop finds it. */
  lemma NextMidway(r: Repo, ids: seq<Iid>, a: Answers, k: nat)
    requires AllIn(r, ids) && k < |ids|
    ensures var s, first, next := Midway(r, ids, a, k), Firsts(r, ids, a, k), Firsts(r, ids, a, k + 1);
            var o := Member(s, ids[k], a, false);
            && ids[k] in s.mrs && next == first + o.writes && Midway(r, ids, a, k + 1) == Play(s, o.writes)
            && LandsIn(next) == LandsIn(first) + (if o.merged then 1 else 0)
            && (o.active <==> IsAwaited(s, ids[k], a))
  {
    var s, first := Midway(r, ids, a, k), Firsts(r, ids, a, k);
    MidwayKeys(r, ids, a, k);
    assert ids[k] in ids && ids[k] in s.mrs.Keys;
    MemberReacts(s, ids[k], a);
    MemberWrites(s, ids[k], a);
    PlayConcat(r, first, Member(s, ids[k], a, false).writes);
    LandsConcat(first, Member(s, ids[k], a, false).writes);
  }

  lemma AboutFirsts(m: MembersOutcome, r: Repo, ids: seq<Iid>, a: Answers, limit: int, k: nat)
    requires AllIn(r, ids) && k <= |ids|
    requires var first := Firsts(r, ids, a, k);
             m.writes == first + Members(Midway(r, ids, a, k), ids[k..], a, false, LandsIn(first), limit).writes
    ensures About(m.writes, Elems(ids[..k])) == Firsts(r, ids, a, k)
  {
    var first, mine := Firsts(r, ids, a, k), Elems(ids[..k]);
    var rest := Members(Midway(r, ids, a, k), ids[k..], a, false, LandsIn(first), limit).writes;
    FirstsAbout(r, ids, a, k);
    MidwayKeys(r, ids, a, k);
    forall i | i in ids[k..] ensures i in Midway(r, ids, a, k).mrs && i !in mine {
      assert i in ids && i in r.mrs.Keys;
      var j :| k <= j < |ids| && ids[j] == i;
    }
    MembersAbout(Midway(r, ids, a, k), ids[k..], a, LandsIn(first), limit);
    AboutIs(first, mine);
    AboutIs(rest, mine);
    AboutConcat(first, rest, mine);
  }

  /** At the turn of member `k` the loop writes what that member calls for, and nothing else about it. */
  lemma LoopAt(r: Repo, ids: seq<Iid>, a: Answers, limit: int, k: nat)
    requires AllIn(r, ids) && k < |ids|
    requires BelowLimit(About(Members(r, ids, a, false, 0, limit).writes, Elems(ids[..k])), limit)
    ensures ids[k] in Midway(r, ids, a, k).mrs
    ensures forall w: Write :: w.iid == ids[k] ==>
      (w in Members(r, ids, a, false, 0, limit).writes <==> w in Member(Midway(r, ids, a, k), ids[k], a, false).writes)
  {
    var first, s := Firsts(r, ids, a, k), Midway(r, ids, a, k);
    LoopReaches(r, ids, a, limit, k);
    FirstsAbout(r, ids, a, k);
    MidwayKeys(r, ids, a, k);
    forall i | i in ids[k..] ensures i in s.mrs { assert i in ids && i in r.mrs.Keys; }
    assert ids[k] == ids[k..][0] && ids[k] !in ids[..k];
    forall i, j | 0 <= i < j < |ids[k..]| ensures ids[k..][i] != ids[k..][j] { assert ids[k..][i] == ids[k + i] && ids[k..][j] == ids[k + j]; }
    FirstOfLoop(s, ids[k..], a, LandsIn(first), limit);
  }

  /** Nothing but the first member's step is written about the first member. */
  lemma FirstOfLoop(r: Repo, ids: seq<Iid>, a: Answers, merges: nat, limit: int)
    requires AllIn(r, ids) && ids != []
    ensures forall w: Write :: w.iid == ids[0] ==> (w in Members(r, ids, a, false, merges, limit).writes <==> w in Member(r, ids[0], a, false).writes)
  {
    var o := Member(r, ids[0], a, false);
    var r1 := Play(r, o.writes);
    NoDupTail(ids);
    PlayKeys(r, o.writes);
    forall i | i in ids[1..] ensures i in r1.mrs { assert i in ids && i in r.mrs.Keys; }
    MembersAbout(r1, ids[1..], a, if o.merged then merges + 1 else merges, limit);
  }

  /** Once the limit is reached the loop stops. */
  lemma {:induction false} LoopStops(r: Repo, ids: seq<Iid>, a: Answers, limit: int, k: nat)
    requires AllIn(r, ids) && k <= |ids|
    requires !BelowLimit(About(Members(r, ids, a, false, 0, limit).writes, Elems(ids[..k])), limit)
    ensures Members(r, ids, a, false, 0, limit).capped
    ensures forall w :: w in Members(r, ids, a, false, 0, limit).writes ==> w.iid in ids[..k]
  {
    var m := Members(r, ids, a, false, 0, limit);
    if k == 0 {
      AboutIs(m.writes, Elems(ids[..0]));
    } else if !BelowLimit(About(m.writes, Elems(ids[..k - 1])), limit) {
      LoopStops(r, ids, a, limit, k - 1);
      assert forall i :: i in ids[..k - 1] ==> i in ids[..k];
    } else {
      LoopReaches(r, ids, a, limit, k - 1);
      StopsNext(m, r, ids, a, limit, k - 1);
    }
  }

  lemma StopsNext(m: MembersOutcome, r: Repo, ids: seq<Iid>, a: Answers, limit: int, k: nat)
    requires AllIn(r, ids) && k < |ids| && !BelowLimit(About(m.writes, Elems(ids[..k + 1])), limit)
    requires var first := Firsts(r, ids, a, k);
             && BelowLimit(first, limit)
             && GotTo(m, first, SomeAwaited(r, ids, a, k), Members(Midway(r, ids, a, k), ids[k..], a, false, LandsIn(first), limit))
    ensures m.capped && forall w :: w in m.writes ==> w.iid in ids[..k + 1]
  {
    LoopNext(m, r, ids, a, limit, k);
    FirstsAbout(r, ids, a, k + 1);
    if !m.capped || m.writes != Firsts(r, ids, a, k + 1) { AboutFirsts(m, r, ids, a, limit, k + 1); }
  }

  /** The limit stops the loop if and only if so many have landed; otherwise it is active if and only if
      somebody was worth waiting for. */
  lemma LoopEnds(r: Repo, ids: seq<Iid>, a: Answers, limit: int)
    requires AllIn(r, ids)
    ensures var m := Members(r, ids, a, false, 0, limit);
            && (m.capped <==> !BelowLimit(About(m.writes, Elems(ids)), limit))
            && (!m.capped ==> (m.active <==> SomeAwaited(r, ids, a, |ids|)))
  {
    assert ids[..|ids|] == ids && ids[|ids|..] == [];
    if BelowLimit(About(Members(r, ids, a, false, 0, limit).writes, Elems(ids)), limit) {
      LoopReaches(r, ids, a, limit, |ids|);
    } else {
      LoopStops(r, ids, a, limit, |ids|);
    }
  }
}
