/** The active-cap rebase pass of `gitlab_housekeeping`: it keeps the number of MRs with a live
    pipeline on top of HEAD at or below a cap. */
module ActiveCapRebase {
  import opened Common
  import opened GitLabRepo
  import opened MergeQueue
  import opened MergeQueueRules
  import opened MergeQueueLegal
  import opened MergeQueueGroups
  import opened MergeQueueRuns
  import opened MergeQueueMembers
  import opened MergeQueueSerial
  import opened GitLabHousekeeping

  /** On top of HEAD, with a newest non-skipped pipeline that runs, waits or succeeded. */
  predicate OccupiesSlot(r: Repo, it: Item) {
    !it.error && IsRebased(r, ShaOf(r, it.iid), TargetOf(r, it.iid)) && HasLivePipeline(PipelinesOf(r, it.iid))
  }

  /** Behind HEAD and neither flagged, nor a group member, nor waiting for a pipeline. */
  predicate NeedsRebasing(r: Repo, it: Item, wait: bool) {
    && !it.error && OmmPending !in it.labels
    && !IsRebased(r, ShaOf(r, it.iid), TargetOf(r, it.iid))
    && (wait ==> NonSkipped(PipelinesOf(r, it.iid)) != [] && !HasRunning(PipelinesOf(r, it.iid)))
  }

  function Occupied(r: Repo, queue: seq<Item>): nat {
    if queue == [] then 0
    else (if OccupiesSlot(r, queue[0]) then 1 else 0) + Occupied(r, queue[1..])
  }

  function Behind(r: Repo, queue: seq<Item>, wait: bool): seq<Iid> {
    if queue == [] then []
    else (if NeedsRebasing(r, queue[0], wait) then [queue[0].iid] else []) + Behind(r, queue[1..], wait)
  }

  /** Rebase in order until `budget` rebases are accepted. */
  function RebaseSome(a: Answers, ids: seq<Iid>, budget: nat): seq<Write> {
    if ids == [] || budget == 0 then []
    else
      match a.rebase(ids[0])
      case Conflict => RebaseSome(a, ids[1..], budget)
      case Accepted(moved) => [Rebase(ids[0], moved)] + RebaseSome(a, ids[1..], budget - 1)
  }

  function Budget(limit: int, active: nat): nat {
    if limit - active > 0 then limit - active else 0
  }

  function RebasePass(r: Repo, queue: seq<Item>, a: Answers, wait: bool, limit: int): seq<Write> {
    RebaseSome(a, Behind(r, queue, wait), Budget(limit, Occupied(r, queue)))
  }

  // --- What the pass may and must do ----------------------------------------------------

  /** Listed without error, on top of HEAD, and its newest pipeline runs, waits or succeeded. */
  ghost predicate HoldsSlot(r: Repo, it: Item) {
    !it.error && ContainsHead(r, it.iid) && NewestLiveIn(PipelinesOf(r, it.iid), {Status.Running, Status.Pending, Success})
  }

  /** Listed without error and not in a group, and its commit lacks a part of HEAD's history; with `wait`
      it has a pipeline that was not skipped, and none that is running. */
  ghost predicate LacksHead(r: Repo, it: Item, wait: bool) {
    && !it.error && OmmPending !in it.labels && !ContainsHead(r, it.iid)
    && (wait ==> (exists p :: p in PipelinesOf(r, it.iid) && p.status != Skipped) && !AnyRunning(r, it.iid))
  }

  ghost function Slots(r: Repo, queue: seq<Item>): nat {
    if queue == [] then 0 else (if HoldsSlot(r, queue[0]) then 1 else 0) + Slots(r, queue[1..])
  }

  ghost predicate AreThere(r: Repo, queue: seq<Item>) {
    forall it :: it in queue ==> it.iid in r.mrs
  }

  lemma {:induction false} LiveIs(ps: seq<Pipeline>)
    ensures NonSkipped(ps) != [] <==> exists p :: p in ps && p.status != Skipped
  {
    if ps != [] {
      LiveIs(ps[1..]);
      assert forall p :: p in ps <==> p == ps[0] || p in ps[1..];
    }
  }

  lemma ItemIs(r: Repo, it: Item, a: Answers, wait: bool)
    requires it.iid in r.mrs
    ensures OccupiesSlot(r, it) <==> HoldsSlot(r, it)
    ensures NeedsRebasing(r, it, wait) <==> LacksHead(r, it, wait)
  {
    var ps := PipelinesOf(r, it.iid);
    ShownIs(r, it.iid, a);
    NewestLiveIs(ps, {Status.Running, Status.Pending, Success});
    LiveIs(ps);
    RunningIs(ps);
  }

  lemma {:induction false} SlotsAre(r: Repo, queue: seq<Item>, a: Answers)
    requires AreThere(r, queue)
    ensures Occupied(r, queue) == Slots(r, queue)
  {
    if queue != [] {
      assert queue[0] in queue;
      ItemIs(r, queue[0], a, false);
      SlotsAre(r, queue[1..], a);
    }
  }

  lemma {:induction false} BehindFrom(r: Repo, queue: seq<Item>, wait: bool)
    ensures forall i :: i in Behind(r, queue, wait) <==> exists it :: it in queue && it.iid == i && NeedsRebasing(r, it, wait)
  {
    if queue != [] {
      BehindFrom(r, queue[1..], wait);
      var it := queue[0];
      forall i ensures i in Behind(r, queue, wait) <==> (i == it.iid && NeedsRebasing(r, it, wait)) || i in Behind(r, queue[1..], wait) {}
      assert forall x :: x in queue <==> x == it || x in queue[1..];
    }
  }

  ghost predicate IsRebaseOf(ws: seq<Write>, i: Iid) {
    exists k :: 0 <= k < |ws| && ws[k].Rebase? && ws[k].iid == i
  }

  lemma RebaseOfCons(w: Write, rest: seq<Write>, i: Iid)
    requires w.Rebase?
    ensures IsRebaseOf([w] + rest, i) <==> w.iid == i || IsRebaseOf(rest, i)
  {
    var ws := [w] + rest;
    if w.iid == i { assert ws[0].iid == i; }
    if IsRebaseOf(rest, i) {
      var k :| 0 <= k < |rest| && rest[k].Rebase? && rest[k].iid == i;
      assert ws[k + 1] == rest[k];
    }
    if IsRebaseOf(ws, i) && w.iid != i {
      var k :| 0 <= k < |ws| && ws[k].Rebase? && ws[k].iid == i;
      assert rest[k - 1] == ws[k];
    }
  }

  lemma {:induction false} RebaseSomeBounds(a: Answers, ids: seq<Iid>, budget: nat)
    ensures var ws := RebaseSome(a, ids, budget);
            && |ws| <= budget
            && (forall w :: w in ws ==> w.Rebase? && w.iid in ids && a.rebase(w.iid) == Accepted(w.moved))
            && (|ws| < budget ==> forall i :: i in ids ==> a.rebase(i).Conflict? || IsRebaseOf(ws, i))
  {
    if ids != [] && budget > 0 {
      if a.rebase(ids[0]).Conflict? {
        RebaseSomeBounds(a, ids[1..], budget);
      } else {
        var rest := RebaseSome(a, ids[1..], budget - 1);
        RebaseSomeBounds(a, ids[1..], budget - 1);
        forall i | i in ids ensures IsRebaseOf(RebaseSome(a, ids, budget), i) <==> ids[0] == i || IsRebaseOf(rest, i) {
          RebaseOfCons(Rebase(ids[0], a.rebase(ids[0]).moved), rest, i);
        }
      }
    }
  }

  lemma {:induction false} FirstServed(a: Answers, ids: seq<Iid>, budget: nat, i: nat, j: nat)
    requires NoDup(ids) && i < j < |ids| && IsRebaseOf(RebaseSome(a, ids, budget), ids[j])
    ensures a.rebase(ids[i]).Conflict? || IsRebaseOf(RebaseSome(a, ids, budget), ids[i])
    decreases |ids|
  {
    if a.rebase(ids[0]).Conflict? {
      if i > 0 { FirstServed(a, ids[1..], budget, i - 1, j - 1); }
    } else {
      var w, rest := Rebase(ids[0], a.rebase(ids[0]).moved), RebaseSome(a, ids[1..], budget - 1);
      RebaseOfCons(w, rest, ids[i]);
      RebaseOfCons(w, rest, ids[j]);
      if i > 0 { FirstServed(a, ids[1..], budget - 1, i - 1, j - 1); }
    }
  }

  /** Where the items that need a rebase stand in the list of those that do. */
  lemma {:induction false} BehindAt(r: Repo, queue: seq<Item>, wait: bool, k: nat) returns (n: nat)
    requires DistinctItems(queue) && k < |queue| && NeedsRebasing(r, queue[k], wait)
    ensures n < |Behind(r, queue, wait)| && Behind(r, queue, wait)[n] == queue[k].iid
    ensures n == |Behind(r, queue[..k], wait)|
  {
    if k == 0 {
      n := 0;
      assert queue[..0] == [];
    } else {
      ItemsTail(queue);
      n := BehindAt(r, queue[1..], wait, k - 1);
      assert queue[..k][0] == queue[0] && queue[..k][1..] == queue[1..][..k - 1];
      if NeedsRebasing(r, queue[0], wait) { n := n + 1; }
    }
  }

  lemma {:induction false} BehindGrows(r: Repo, queue: seq<Item>, wait: bool, k: nat)
    requires k < |queue|
    ensures |Behind(r, queue[..k + 1], wait)| == |Behind(r, queue[..k], wait)| + (if NeedsRebasing(r, queue[k], wait) then 1 else 0)
  {
    if k == 0 {
      assert queue[..1] == [queue[0]] && queue[..1][1..] == [] && queue[..0] == [];
    } else {
      BehindGrows(r, queue[1..], wait, k - 1);
      assert queue[..k + 1][1..] == queue[1..][..k] && queue[..k][1..] == queue[1..][..k - 1];
    }
  }

  lemma {:induction false} BehindMore(r: Repo, queue: seq<Item>, wait: bool, j: nat, k: nat)
    requires j <= k <= |queue|
    ensures |Behind(r, queue[..j], wait)| <= |Behind(r, queue[..k], wait)|
    decreases k
  {
    if j < k {
      BehindGrows(r, queue, wait, k - 1);
      BehindMore(r, queue, wait, j, k - 1);
    }
  }

  lemma {:induction false} BehindNoDup(r: Repo, queue: seq<Item>, wait: bool)
    requires DistinctItems(queue)
    ensures NoDup(Behind(r, queue, wait))
  {
    if queue != [] {
      ItemsTail(queue);
      BehindNoDup(r, queue[1..], wait);
      BehindFrom(r, queue[1..], wait);
      forall it | it in queue[1..] ensures it.iid != queue[0].iid {
        var k :| 0 <= k < |queue[1..]| && queue[1..][k] == it;
        assert queue[k + 1] == it;
      }
      NoDupCons(queue[0].iid, Behind(r, queue[1..], wait));
      assert [] + Behind(r, queue[1..], wait) == Behind(r, queue[1..], wait);
    }
  }

  /** Nobody in need was passed over for somebody behind them in the queue. */
  lemma NobodyPassedOver(r: Repo, queue: seq<Item>, a: Answers, wait: bool, limit: int, j: nat, k: nat)
    requires DistinctItems(queue) && AreThere(r, queue) && j < k < |queue|
    requires LacksHead(r, queue[j], wait) && LacksHead(r, queue[k], wait)
    requires IsRebaseOf(RebasePass(r, queue, a, wait, limit), queue[k].iid)
    ensures a.rebase(queue[j].iid).Conflict? || IsRebaseOf(RebasePass(r, queue, a, wait, limit), queue[j].iid)
  {
    assert queue[j] in queue && queue[k] in queue;
    ItemIs(r, queue[j], a, wait);
    ItemIs(r, queue[k], a, wait);
    var x := BehindAt(r, queue, wait, j);
    var y := BehindAt(r, queue, wait, k);
    BehindGrows(r, queue, wait, j);
    BehindMore(r, queue, wait, j + 1, k);
    BehindNoDup(r, queue, wait);
    FirstServed(a, Behind(r, queue, wait), Budget(limit, Occupied(r, queue)), x, y);
  }

  /** The cap is honoured and used: never more slots than the limit unless they were taken already,
      only MRs that need it are rebased, and as long as a slot is free nobody who needs it is left
      out except by GitLab's refusal. */
  lemma CapHonouredAndUsed(r: Repo, queue: seq<Item>, a: Answers, wait: bool, limit: int)
    requires AreThere(r, queue)
    ensures var ws := RebasePass(r, queue, a, wait, limit);
            var active := Slots(r, queue);
            && (ws != [] ==> active + |ws| <= limit)
            && (forall w :: w in ws ==>
                  && w.Rebase? && a.rebase(w.iid) == Accepted(w.moved)
                  && exists it :: it in queue && it.iid == w.iid && LacksHead(r, it, wait))
            && (active + |ws| < limit ==>
                  forall it :: it in queue && LacksHead(r, it, wait) ==> a.rebase(it.iid).Conflict? || IsRebaseOf(ws, it.iid))
  {
    RebaseSomeBounds(a, Behind(r, queue, wait), Budget(limit, Occupied(r, queue)));
    BehindFrom(r, queue, wait);
    SlotsAre(r, queue, a);
    forall it | it in queue ensures NeedsRebasing(r, it, wait) <==> LacksHead(r, it, wait) { ItemIs(r, it, a, wait); }
  }

  /** The pass is a legal step of the merge-queue runs: it rebases only open MRs. */
  lemma RebaseIsUpkeep(on: bool, r: Repo, queue: seq<Item>, a: Answers, wait: bool, limit: int)
    requires IsQueue(r, queue)
    ensures Possible(on, r, Upkeep(RebasePass(r, queue, a, wait, limit)))
  {
    var ids := Behind(r, queue, wait);
    BehindFrom(r, queue, wait);
    forall i | i in ids ensures i in r.mrs && r.mrs[i].state == Opened {
      var it :| it in queue && it.iid == i;
      assert StillListed(r, it);
    }
    RebaseSomeLegal(Terms(on, {}, false), r, a, ids, Budget(limit, Occupied(r, queue)));
    RebaseSomeBounds(a, ids, Budget(limit, Occupied(r, queue)));
  }

  lemma {:induction false} RebaseSomeLegal(t: Terms, r: Repo, a: Answers, ids: seq<Iid>, budget: nat)
    requires forall i :: i in ids ==> i in r.mrs && r.mrs[i].state == Opened
    ensures AllLegal(t, r, RebaseSome(a, ids, budget))
    decreases |ids|
  {
    if ids != [] && budget > 0 {
      assert ids[0] in ids;
      forall i | i in ids[1..] ensures i in ids {}
      match a.rebase(ids[0])
      case Conflict => RebaseSomeLegal(t, r, a, ids[1..], budget);
      case Accepted(moved) =>
        var w := Rebase(ids[0], moved);
        assert Rule(t)(r, w);
        RebaseSomeLegal(t, Do(r, w), a, ids[1..], budget - 1);
    }
  }

  // --- The pass -------------------------------------------------------------------------

  /** One iteration of the scan of the queue. */
  method ClassifyOne(r: Repo, it: Item, wait: bool) returns (occupies: bool, needs: bool)
    ensures occupies == OccupiesSlot(r, it) && needs == NeedsRebasing(r, it, wait)
  {
    if it.error { return false, false; }
    var pipelines := NonSkipped(PipelinesOf(r, it.iid));
    if IsRebased(r, ShaOf(r, it.iid), TargetOf(r, it.iid)) {
      if pipelines != [] && (pipelines[0].status == Running || pipelines[0].status == Pending || pipelines[0].status == Success) {
        return true, false;
      }
      return false, false;
    }
    if OmmPending in it.labels { return false, false; }
    if wait && (pipelines == [] || HasRunning(PipelinesOf(r, it.iid))) { return false, false; }
    return false, true;
  }

  /** The scan of the queue: who occupies a slot, and who needs one. */
  method Classify(r: Repo, queue: seq<Item>, wait: bool) returns (alreadyActive: nat, needsRebase: seq<Iid>)
    ensures alreadyActive == Occupied(r, queue) && needsRebase == Behind(r, queue, wait)
  {
    alreadyActive, needsRebase := 0, [];
    for k := 0 to |queue|
      invariant alreadyActive + Occupied(r, queue[k..]) == Occupied(r, queue)
      invariant needsRebase + Behind(r, queue[k..], wait) == Behind(r, queue, wait)
    {
      assert queue[k..][0] == queue[k] && queue[k..][1..] == queue[k + 1..];
      var occupies, needs := ClassifyOne(r, queue[k], wait);
      if occupies { alreadyActive := alreadyActive + 1; }
      if needs { needsRebase := needsRebase + [queue[k].iid]; }
    }
  }

  /** `_rebase_merge_requests_active_cap`, from the listed queue on. */
  method RebaseMergeRequestsActiveCap(gl: GitLabApi, dry: bool, queue: seq<Item>, a: Answers, wait: bool, limit: int)
    modifies gl
    ensures Wrote(old(gl.repo), old(gl.log), gl.repo, gl.log, Emit(dry, RebasePass(old(gl.repo), queue, a, wait, limit)))
  {
    var alreadyActive, needsRebase := Classify(gl.repo, queue, wait);
    var remaining := if limit - alreadyActive > 0 then limit - alreadyActive else 0;
    RebaseUpTo(gl, dry, needsRebase, a, remaining);
  }

  /** The rebasing loop; `_try_rebase` counts a dry-run rebase as a success. */
  method RebaseUpTo(gl: GitLabApi, dry: bool, ids: seq<Iid>, a: Answers, budget: nat)
    modifies gl
    ensures Wrote(old(gl.repo), old(gl.log), gl.repo, gl.log, Emit(dry, RebaseSome(a, ids, budget)))
  {
    var rebases := 0;
    ghost var ws: seq<Write> := [];
    for k := 0 to |ids|
      invariant rebases <= budget
      invariant Wrote(old(gl.repo), old(gl.log), gl.repo, gl.log, ws)
      invariant dry ==> ws == []
      invariant !dry ==> RebaseSome(a, ids, budget) == ws + RebaseSome(a, ids[k..], budget - rebases)
    {
      assert ids[k..][0] == ids[k] && ids[k..][1..] == ids[k + 1..];
      if rebases >= budget { break; }
      if dry {
        rebases := rebases + 1;
      } else {
        match a.rebase(ids[k]) {
          case Conflict =>
          case Accepted(moved) =>
            ghost var r1, l1 := gl.repo, gl.log;
            gl.Write(Rebase(ids[k], moved));
            Then(old(gl.repo), old(gl.log), r1, l1, gl.repo, gl.log, ws, [Rebase(ids[k], moved)]);
            Regroup(ws, [Rebase(ids[k], moved)], RebaseSome(a, ids[k + 1..], budget - rebases - 1));
            ws := ws + [Rebase(ids[k], moved)];
            rebases := rebases + 1;
        }
      }
    }
    assert ws + [] == ws;
  }
}
