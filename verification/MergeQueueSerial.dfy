/** Whom a serial pass merges, how many it merges, and which group it starts, told by the queue, pipelines,
    commits and the number of landings alone. */
module MergeQueueSerial {
  import opened Common
  import opened GitLabRepo
  import opened MergeQueue
  import opened MergeQueueRules
  import opened MergeQueueLegal
  import opened MergeQueueGroups
  import opened MergeQueueRuns
  import opened MergeQueueMembers
  import opened MergeQueueTurns

  // --- Turns of the queue ---------------------------------------------------------------

  /** The listed commit contains the whole history of the target branch. */
  ghost predicate IsUpToDate(r: Repo, it: Item) {
    it.iid in r.mrs && forall d :: d in Reach(r, Head(r, r.mrs[it.iid].target)) ==> d in Reach(r, it.sha)
  }

  ghost predicate AnyRunning(r: Repo, i: Iid) {
    i in r.mrs && exists p :: p in r.mrs[i].pipelines && p.status == Running
  }

  /** Listed without error and, with rebasing on, up to date. */
  ghost predicate IsInLine(r: Repo, it: Item, c: Config) {
    !it.error && (c.rebase ==> IsUpToDate(r, it))
  }

  /** In line, its newest pipeline that was not skipped succeeded, and with `wait` none is running. */
  ghost predicate IsMergeable(r: Repo, it: Item, c: Config) {
    && IsInLine(r, it, c) && !(c.wait && AnyRunning(r, it.iid))
    && it.iid in r.mrs && NewestLiveIn(r.mrs[it.iid].pipelines, {Success})
  }

  /** In line, with a running pipeline that the pass insists on. */
  ghost predicate HoldsUp(r: Repo, it: Item, c: Config) {
    IsInLine(r, it, c) && c.wait && c.insist && AnyRunning(r, it.iid)
  }

  /** With so many merged there is room for one more: fewer than the limit, and none with rebasing on. */
  predicate HasRoom(merged: nat, c: Config) {
    merged < c.limit && (c.rebase ==> merged == 0)
  }

  function Names(items: seq<Item>): set<Iid> {
    set it | it in items :: it.iid
  }

  /** Item `k` is mergeable, nobody before it holds the pass up, and there is room after those merged
      before it. */
  ghost predicate HasTurn(ws: seq<Write>, r: Repo, items: seq<Item>, k: nat, c: Config, merged: nat)
    requires k < |items|
  {
    && IsMergeable(r, items[k], c) && (forall j :: 0 <= j < k ==> !HoldsUp(r, items[j], c))
    && HasRoom(merged + LandsIn(About(ws, Names(items[..k]))), c)
  }

  /** Item `k` is merged if it has its turn and GitLab accepts, and flagged if GitLab refuses. */
  ghost predicate TakesTurn(ws: seq<Write>, r: Repo, items: seq<Item>, k: nat, a: Answers, c: Config, merged: nat)
    requires k < |items|
  {
    var i := items[k].iid;
    && (forall how :: Land(i, how) in ws <==> HasTurn(ws, r, items, k, c, merged) && a.land(i) == Landed(how))
    && (AddLabel(i, MergeError) in ws <==> HasTurn(ws, r, items, k, c, merged) && a.land(i) == Refused)
  }

  /** As far as the queue is concerned nothing has changed since `r`: pipelines and targets are the same
      and, with rebasing on, so is the history. */
  ghost predicate StillSeen(r: Repo, s: Repo, c: Config) {
    SameShell(r, s) && (c.rebase ==> s.heads == r.heads && s.anc == r.anc)
  }

  lemma {:induction false} RunningIs(ps: seq<Pipeline>)
    ensures HasRunning(ps) <==> exists p :: p in ps && p.status == Running
  {
    if ps != [] {
      var live := NonSkipped(ps);
      RunningIs(ps[1..]);
      if HasRunning(ps[1..]) {
        var k :| 0 <= k < |NonSkipped(ps[1..])| && NonSkipped(ps[1..])[k].status == Running;
        if ps[0].status != Skipped { assert live[k + 1].status == Running; }
      }
      if ps[0].status == Running { assert live[0].status == Running; }
      assert forall p :: p in ps <==> p == ps[0] || p in ps[1..];
    }
  }

  lemma TurnsAre(r: Repo, s: Repo, it: Item, c: Config, merges: nat)
    requires StillSeen(r, s, c) && it.iid in r.mrs && (c.rebase ==> merges == 0)
    ensures ReadyToLand(s, it, c) <==> IsMergeable(r, it, c)
    ensures Insists(s, it, c, merges) <==> HoldsUp(r, it, c)
  {
    var ps := r.mrs[it.iid].pipelines;
    RunningIs(ps);
    NewestLiveIs(ps, {Success});
    assert it.iid in s.mrs.Keys && PipelinesOf(s, it.iid) == ps;
    if c.rebase {
      assert Reach(s, it.sha) == Reach(r, it.sha) && Head(s, r.mrs[it.iid].target) == Head(r, r.mrs[it.iid].target);
      assert IsUpToDate(r, it) <==> IsRebased(s, it.sha, TargetOf(s, it.iid));
    }
  }

  lemma StillSeenStep(r: Repo, s: Repo, c: Config, w: Write)
    requires StillSeen(r, s, c) && IsOwnWrite(w) && (w.Land? ==> !c.rebase) && !w.Rebase?
    ensures StillSeen(r, Play(s, [w]), c)
  {
    assert [w][1..] == [] && Play(s, [w]) == Do(s, w);
    ShellStep(s, w);
  }

  predicate IsAttempt(w: Write) {
    w.Land? || (w.AddLabel? && w.tag == MergeError)
  }

  lemma {:induction false} EnlistAttempts(a: Answers, cands: seq<Iid>)
    ensures forall w :: w in Enlist(a, cands) ==> !IsAttempt(w)
  {
    if cands != [] { EnlistAttempts(a, cands[1..]); }
  }

  /** Only items still in the queue are merged or flagged. */
  lemma {:induction false} SerialAttempts(s: Repo, items: seq<Item>, queue: seq<Item>, a: Answers, c: Config, merges: nat, taken: set<Label>)
    requires !c.dry
    ensures forall w :: w in Serial(s, items, queue, a, c, merges, taken) && IsAttempt(w) ==> w.iid in Names(items)
    decreases |items|
  {
    if items == [] { return; }
    var it := items[0];
    assert it in items && forall p :: p in items[1..] ==> p in items;
    if Insists(s, it, c, merges) {
    } else if !ReadyToLand(s, it, c) || merges >= c.limit {
      SerialAttempts(s, items[1..], queue, a, c, merges, taken);
    } else if a.land(it.iid).Refused? {
      SerialAttempts(Play(s, [AddLabel(it.iid, MergeError)]), items[1..], queue, a, c, merges, taken);
    } else {
      var s1, now := Play(s, [Land(it.iid, a.land(it.iid).how)]), taken + TenantLabels(it.labels);
      if c.rebase && merges == 0 {
        EnlistAttempts(a, Iids(Form(s1, queue, now)));
      } else {
        SerialAttempts(s1, items[1..], queue, a, c, merges + 1, now);
      }
    }
  }

  /** Writes about others do not count. */
  lemma {:induction false} AboutWithout(ws: seq<Write>, ids: set<Iid>, i: Iid)
    requires forall w :: w in ws && w.Land? ==> w.iid != i
    ensures LandsIn(About(ws, ids + {i})) == LandsIn(About(ws, ids))
  {
    if ws != [] {
      AboutWithout(ws[1..], ids, i);
      var x, y := About(ws[1..], ids), About(ws[1..], ids + {i});
      assert ws[0] in ws && ([ws[0]] + x)[1..] == x && ([ws[0]] + y)[1..] == y && [] + x == x && [] + y == y;
    }
  }

  /** The first item's writes count for every later one. */
  lemma CountCons(first: seq<Write>, rest: seq<Write>, items: seq<Item>, k: nat)
    requires 0 < k < |items| && DistinctItems(items)
    requires forall w :: w in first ==> w.iid == items[0].iid
    requires forall w :: w in rest && w.Land? ==> w.iid in Names(items[1..])
    ensures LandsIn(About(first + rest, Names(items[..k]))) == LandsIn(first) + LandsIn(About(rest, Names(items[1..][..k - 1])))
  {
    var i, mine, later := items[0].iid, Names(items[..k]), Names(items[1..][..k - 1]);
    assert items[..k] == [items[0]] + items[1..][..k - 1];
    assert mine == later + {i};
    forall j | 0 <= j < |items[1..]| ensures items[1..][j].iid != i { assert items[1..][j] == items[j + 1]; }
    AboutWithout(rest, later, i);
    AboutIs(first, mine);
    AboutConcat(first, rest, mine);
    LandsConcat(first, About(rest, mine));
  }

  lemma HasTurnCons(first: seq<Write>, rest: seq<Write>, r: Repo, items: seq<Item>, k: nat, c: Config, merged: nat)
    requires 0 < k < |items| && DistinctItems(items) && !HoldsUp(r, items[0], c)
    requires forall w :: w in first ==> w.iid == items[0].iid
    requires forall w :: w in rest && w.Land? ==> w.iid in Names(items[1..])
    ensures HasTurn(first + rest, r, items, k, c, merged) <==> HasTurn(rest, r, items[1..], k - 1, c, merged + LandsIn(first))
  {
    assert items[1..][k - 1] == items[k];
    CountCons(first, rest, items, k);
    HeldUpCons(r, items, k, c);
  }

  /** The turns of the later items do not change when the first one's writes go before. */
  lemma TurnsCons(first: seq<Write>, rest: seq<Write>, r: Repo, items: seq<Item>, k: nat, a: Answers, c: Config, merged: nat)
    requires 0 < k < |items| && DistinctItems(items) && !HoldsUp(r, items[0], c)
    requires forall w :: w in first ==> w.iid == items[0].iid
    requires forall w :: w in rest && IsAttempt(w) ==> w.iid in Names(items[1..])
    requires TakesTurn(rest, r, items[1..], k - 1, a, c, merged + LandsIn(first))
    ensures TakesTurn(first + rest, r, items, k, a, c, merged)
  {
    var i := items[k].iid;
    assert items[1..][k - 1] == items[k] && items[0].iid != i;
    SameAbout(first, rest, i);
    HasTurnCons(first, rest, r, items, k, c, merged);
  }

  lemma SameAbout(first: seq<Write>, rest: seq<Write>, i: Iid)
    requires forall w :: w in first ==> w.iid != i
    ensures forall how :: Land(i, how) in first + rest <==> Land(i, how) in rest
    ensures AddLabel(i, MergeError) in first + rest <==> AddLabel(i, MergeError) in rest
  {
    forall w: Write | w.iid == i ensures w in first + rest <==> w in rest {}
    assert forall how :: Land(i, how).iid == i;
    assert AddLabel(i, MergeError).iid == i;
  }

  lemma HeldUpCons(r: Repo, items: seq<Item>, k: nat, c: Config)
    requires 0 < k < |items| && !HoldsUp(r, items[0], c)
    ensures (forall j :: 0 <= j < k ==> !HoldsUp(r, items[j], c)) <==> (forall j :: 0 <= j < k - 1 ==> !HoldsUp(r, items[1..][j], c))
  {
    if forall j :: 0 <= j < k - 1 ==> !HoldsUp(r, items[1..][j], c) {
      forall j | 0 <= j < k ensures !HoldsUp(r, items[j], c) {
        if j > 0 { assert items[1..][j - 1] == items[j]; }
      }
    }
  }

  // --- The loop -------------------------------------------------------------------------

  /** What the pass writes at the turn of a mergeable item. */
  function Attempt(a: Answers, i: Iid): seq<Write> {
    match a.land(i)
    case Refused => [AddLabel(i, MergeError)]
    case Landed(how) => [Land(i, how)]
  }

  lemma AttemptIs(a: Answers, i: Iid)
    ensures forall w :: w in Attempt(a, i) ==> w.iid == i && IsAttempt(w)
    ensures LandsIn(Attempt(a, i)) == if a.land(i).Landed? then 1 else 0
    ensures forall how :: Land(i, how) in Attempt(a, i) <==> a.land(i) == Landed(how)
    ensures AddLabel(i, MergeError) in Attempt(a, i) <==> a.land(i) == Refused
  {
    assert Attempt(a, i)[1..] == [];
  }

  /** How the loop goes on after an item: with the rest of the queue, or with the new group. */
  function GoOn(s: Repo, items: seq<Item>, queue: seq<Item>, a: Answers, c: Config, merges: nat, taken: set<Label>): seq<Write>
    requires items != []
  {
    var it := items[0];
    var s1 := Play(s, Attempt(a, it.iid));
    if a.land(it.iid).Refused? then Serial(s1, items[1..], queue, a, c, merges, taken)
    else if c.rebase then StartGroup(s1, it, queue, taken + TenantLabels(it.labels), a, c)
    else Serial(s1, items[1..], queue, a, c, merges + 1, taken + TenantLabels(it.labels))
  }

  /** The loop, item by item. */
  lemma SerialIs(r: Repo, s: Repo, items: seq<Item>, queue: seq<Item>, a: Answers, c: Config, merges: nat, taken: set<Label>)
    requires !c.dry && items != [] && items[0].iid in r.mrs && StillSeen(r, s, c) && (c.rebase ==> merges == 0)
    ensures Serial(s, items, queue, a, c, merges, taken) ==
      if HoldsUp(r, items[0], c) then []
      else if IsMergeable(r, items[0], c) && HasRoom(merges, c) then Attempt(a, items[0].iid) + GoOn(s, items, queue, a, c, merges, taken)
      else Serial(s, items[1..], queue, a, c, merges, taken)
  {
    TurnsAre(r, s, items[0], c, merges);
  }

  lemma GoOnAttempts(s: Repo, items: seq<Item>, queue: seq<Item>, a: Answers, c: Config, merges: nat, taken: set<Label>)
    requires !c.dry && items != []
    ensures forall w :: w in GoOn(s, items, queue, a, c, merges, taken) && IsAttempt(w) ==> w.iid in Names(items[1..])
    ensures c.rebase && a.land(items[0].iid).Landed? ==> forall w :: w in GoOn(s, items, queue, a, c, merges, taken) ==> !IsAttempt(w)
  {
    var it := items[0];
    var s1, now := Play(s, Attempt(a, it.iid)), taken + TenantLabels(it.labels);
    SerialAttempts(s1, items[1..], queue, a, c, merges, taken);
    SerialAttempts(s1, items[1..], queue, a, c, merges + 1, now);
    EnlistAttempts(a, Iids(Form(s1, queue, now)));
  }

  /** The first item's turn. */
  lemma FirstTurn(r: Repo, s: Repo, items: seq<Item>, queue: seq<Item>, a: Answers, c: Config, merges: nat, taken: set<Label>)
    requires !c.dry && items != [] && DistinctItems(items) && items[0].iid in r.mrs && StillSeen(r, s, c) && (c.rebase ==> merges == 0)
    ensures TakesTurn(Serial(s, items, queue, a, c, merges, taken), r, items, 0, a, c, merges)
  {
    var i, ws := items[0].iid, Serial(s, items, queue, a, c, merges, taken);
    SerialIs(r, s, items, queue, a, c, merges, taken);
    SerialAttempts(s, items[1..], queue, a, c, merges, taken);
    GoOnAttempts(s, items, queue, a, c, merges, taken);
    AttemptIs(a, i);
    forall j | 0 <= j < |items[1..]| ensures items[1..][j].iid != i { assert items[1..][j] == items[j + 1]; }
    AboutIs(ws, Names(items[..0]));
    assert About(ws, Names(items[..0])) == [];
  }

  /** Every item takes its turn. */
  lemma {:induction false} EveryTurn(r: Repo, s: Repo, items: seq<Item>, k: nat, queue: seq<Item>, a: Answers, c: Config, merges: nat, taken: set<Label>)
    requires !c.dry && k < |items| && DistinctItems(items) && (forall it :: it in items ==> it.iid in r.mrs)
    requires StillSeen(r, s, c) && (c.rebase ==> merges == 0)
    ensures TakesTurn(Serial(s, items, queue, a, c, merges, taken), r, items, k, a, c, merges)
    decreases |items|, 1
  {
    assert items[0] in items;
    if k == 0 {
      FirstTurn(r, s, items, queue, a, c, merges, taken);
    } else {
      var it := items[0];
      ItemsTail(items);
      if HoldsUp(r, it, c) {
        HeldUp(r, s, items, k, queue, a, c, merges, taken);
      } else if !(IsMergeable(r, it, c) && HasRoom(merges, c)) {
        EveryTurn(r, s, items[1..], k - 1, queue, a, c, merges, taken);
        AfterSkip(r, s, items, k, queue, a, c, merges, taken);
      } else {
        if a.land(it.iid).Refused? {
          RefusedTurn(r, s, items, k, queue, a, c, merges, taken);
        } else if !c.rebase {
          LandedTurn(r, s, items, k, queue, a, c, merges, taken);
        }
        AfterAttempt(r, s, items, k, queue, a, c, merges, taken);
      }
    }
  }

  /** The turns after a refusal. */
  lemma {:induction false} RefusedTurn(r: Repo, s: Repo, items: seq<Item>, k: nat, queue: seq<Item>, a: Answers, c: Config, merges: nat, taken: set<Label>)
    requires !c.dry && 0 < k < |items| && DistinctItems(items[1..]) && (forall it :: it in items[1..] ==> it.iid in r.mrs)
    requires StillSeen(r, s, c) && (c.rebase ==> merges == 0) && a.land(items[0].iid).Refused?
    ensures TakesTurn(Serial(Play(s, Attempt(a, items[0].iid)), items[1..], queue, a, c, merges, taken), r, items[1..], k - 1, a, c, merges)
    decreases |items|, 0
  {
    AttemptSeen(r, s, items[0].iid, a, c);
    EveryTurn(r, Play(s, Attempt(a, items[0].iid)), items[1..], k - 1, queue, a, c, merges, taken);
  }

  /** The turns after a landing without rebasing. */
  lemma {:induction false} LandedTurn(r: Repo, s: Repo, items: seq<Item>, k: nat, queue: seq<Item>, a: Answers, c: Config, merges: nat, taken: set<Label>)
    requires !c.dry && 0 < k < |items| && DistinctItems(items[1..]) && (forall it :: it in items[1..] ==> it.iid in r.mrs)
    requires StillSeen(r, s, c) && !c.rebase && a.land(items[0].iid).Landed?
    ensures TakesTurn(Serial(Play(s, Attempt(a, items[0].iid)), items[1..], queue, a, c, merges + 1, taken + TenantLabels(items[0].labels)), r, items[1..], k - 1, a, c, merges + 1)
    decreases |items|, 0
  {
    AttemptSeen(r, s, items[0].iid, a, c);
    EveryTurn(r, Play(s, Attempt(a, items[0].iid)), items[1..], k - 1, queue, a, c, merges + 1, taken + TenantLabels(items[0].labels));
  }

  lemma HeldUp(r: Repo, s: Repo, items: seq<Item>, k: nat, queue: seq<Item>, a: Answers, c: Config, merges: nat, taken: set<Label>)
    requires !c.dry && 0 < k < |items| && items[0].iid in r.mrs && StillSeen(r, s, c) && (c.rebase ==> merges == 0) && HoldsUp(r, items[0], c)
    ensures TakesTurn(Serial(s, items, queue, a, c, merges, taken), r, items, k, a, c, merges)
  {
    SerialIs(r, s, items, queue, a, c, merges, taken);
  }

  /** An item that is not up for merging changes nothing. */
  lemma AfterSkip(r: Repo, s: Repo, items: seq<Item>, k: nat, queue: seq<Item>, a: Answers, c: Config, merges: nat, taken: set<Label>)
    requires !c.dry && 0 < k < |items| && DistinctItems(items) && items[0].iid in r.mrs && StillSeen(r, s, c) && (c.rebase ==> merges == 0)
    requires !HoldsUp(r, items[0], c) && !(IsMergeable(r, items[0], c) && HasRoom(merges, c))
    requires TakesTurn(Serial(s, items[1..], queue, a, c, merges, taken), r, items[1..], k - 1, a, c, merges)
    ensures TakesTurn(Serial(s, items, queue, a, c, merges, taken), r, items, k, a, c, merges)
  {
    var rest := Serial(s, items[1..], queue, a, c, merges, taken);
    SerialIs(r, s, items, queue, a, c, merges, taken);
    SerialAttempts(s, items[1..], queue, a, c, merges, taken);
    TurnsCons([], rest, r, items, k, a, c, merges);
    assert [] + rest == rest;
  }

  lemma ItemsTail(items: seq<Item>)
    requires items != [] && DistinctItems(items)
    ensures DistinctItems(items[1..]) && forall it :: it in items[1..] ==> it in items
  {
    var q := items[1..];
    forall j, k | 0 <= j < k < |q| ensures q[j].iid != q[k].iid { assert q[j] == items[j + 1] && q[k] == items[k + 1]; }
  }

  lemma AttemptSeen(r: Repo, s: Repo, i: Iid, a: Answers, c: Config)
    requires StillSeen(r, s, c) && (a.land(i).Refused? || !c.rebase)
    ensures StillSeen(r, Play(s, Attempt(a, i)), c)
  {
    StillSeenStep(r, s, c, Attempt(a, i)[0]);
  }

  /** After a mergeable item with room: a rebasing pass that has merged merges nobody else. */
  lemma AfterAttempt(r: Repo, s: Repo, items: seq<Item>, k: nat, queue: seq<Item>, a: Answers, c: Config, merges: nat, taken: set<Label>)
    requires !c.dry && 0 < k < |items| && DistinctItems(items) && items[0].iid in r.mrs && StillSeen(r, s, c) && (c.rebase ==> merges == 0)
    requires !HoldsUp(r, items[0], c) && IsMergeable(r, items[0], c) && HasRoom(merges, c)
    requires var it, s1 := items[0], Play(s, Attempt(a, items[0].iid));
             && (a.land(it.iid).Refused? ==> TakesTurn(Serial(s1, items[1..], queue, a, c, merges, taken), r, items[1..], k - 1, a, c, merges))
             && (a.land(it.iid).Landed? && !c.rebase ==>
                   TakesTurn(Serial(s1, items[1..], queue, a, c, merges + 1, taken + TenantLabels(it.labels)), r, items[1..], k - 1, a, c, merges + 1))
    ensures TakesTurn(Serial(s, items, queue, a, c, merges, taken), r, items, k, a, c, merges)
  {
    SerialIs(r, s, items, queue, a, c, merges, taken);
    GoOnAttempts(s, items, queue, a, c, merges, taken);
    AttemptIs(a, items[0].iid);
    AttemptCons(Attempt(a, items[0].iid), GoOn(s, items, queue, a, c, merges, taken), r, items, k, a, c, merges);
  }

  lemma AttemptCons(first: seq<Write>, rest: seq<Write>, r: Repo, items: seq<Item>, k: nat, a: Answers, c: Config, merges: nat)
    requires 0 < k < |items| && DistinctItems(items) && !HoldsUp(r, items[0], c)
    requires forall w :: w in first ==> w.iid == items[0].iid
    requires forall w :: w in rest && IsAttempt(w) ==> w.iid in Names(items[1..])
    requires if c.rebase && LandsIn(first) > 0 then forall w :: w in rest ==> !IsAttempt(w)
             else TakesTurn(rest, r, items[1..], k - 1, a, c, merges + LandsIn(first))
    ensures TakesTurn(first + rest, r, items, k, a, c, merges)
  {
    if c.rebase && LandsIn(first) > 0 {
      CountCons(first, rest, items, k);
      SameAbout(first, rest, items[k].iid);
    } else {
      TurnsCons(first, rest, r, items, k, a, c, merges);
    }
  }

  lemma StartGroupAttempts(s: Repo, it: Item, queue: seq<Item>, taken: set<Label>, a: Answers, c: Config)
    ensures forall w :: w in StartGroup(s, it, queue, taken, a, c) ==> !IsAttempt(w)
  {
    EnlistAttempts(a, Iids(Form(s, queue, taken)));
  }

  // --- The whole pass -------------------------------------------------------------------

  lemma CleanUpRemoves(r: Repo, c: Config)
    ensures forall w :: w in CleanUp(r, c) ==> w.RemoveLabel? && IsOwnWrite(w)
  {
    ClearLandsNothing(r, FindLead(r), None);
    ClearLandsNothing(r, None, Some(Listing(r, Opened, OmmPending)));
    ClearIsOwn(r, FindLead(r), None);
    ClearIsOwn(r, None, Some(Listing(r, Opened, OmmPending)));
  }

  lemma ClearIsOwn(r: Repo, lead: Option<Iid>, pending: Option<seq<Iid>>)
    ensures OwnWrites(Clear(r, lead, pending))
  {
    var r1 := Play(r, Dethrone(r, lead));
    var open := OpenMembers(r1, pending);
    var r2 := Play(r1, Unpend(open));
    var closed := Listing(r2, Closed, OmmPending);
    UnpendIsOwn(open);
    UnpendIsOwn(closed);
    UnpendIsOwn(Listing(Play(r2, Unpend(closed)), Merged, OmmPending));
  }

  lemma {:induction false} RemovalsSeen(r: Repo, s: Repo, ws: seq<Write>, c: Config)
    requires StillSeen(r, s, c) && forall w :: w in ws ==> w.RemoveLabel? && IsOwnWrite(w)
    ensures StillSeen(r, Play(s, ws), c)
    decreases |ws|
  {
    if ws != [] {
      assert ws[0] in ws && [ws[0]][1..] == [] && Play(s, [ws[0]]) == Do(s, ws[0]);
      StillSeenStep(r, s, c, ws[0]);
      RemovalsSeen(r, Do(s, ws[0]), ws[1..], c);
    }
  }

  lemma SerialPassIs(r: Repo, queue: seq<Item>, a: Answers, c: Config)
    requires !OnGroupPath(r, c)
    ensures var w := CleanUp(r, c);
            && MergePass(r, queue, a, c) == w + Serial(Play(r, w), queue, queue, a, c, 0, {})
            && StillSeen(r, Play(r, w), c)
  {
    CleanUpRemoves(r, c);
    assert StillSeen(r, r, c);
    RemovalsSeen(r, r, CleanUp(r, c), c);
  }

  /** The turns of a serial pass that is not dry, from the state in which it starts: item `k` is merged if and
      only if it is mergeable - no error flag; with rebasing on, up to date; its newest pipeline that was
      not skipped succeeded; with `wait`, none running - nobody before it holds the pass up, fewer than the
      limit have been merged before it, with rebasing on nobody has, and GitLab accepts.  It is
      flagged if and only if all this holds and GitLab refuses. */
  lemma SerialTurns(r: Repo, queue: seq<Item>, a: Answers, c: Config, k: nat)
    requires !c.dry && !OnGroupPath(r, c) && IsListing(r, queue) && k < |queue|
    ensures TakesTurn(MergePass(r, queue, a, c), r, queue, k, a, c, 0)
  {
    var w := CleanUp(r, c);
    var ws := Serial(Play(r, w), queue, queue, a, c, 0, {});
    SerialPassIs(r, queue, a, c);
    CleanUpRemoves(r, c);
    EveryTurn(r, Play(r, w), queue, k, queue, a, c, 0, {});
    RemovalsFirst(w, ws, r, queue, k, a, c);
  }

  lemma RemovalsFirst(first: seq<Write>, ws: seq<Write>, r: Repo, items: seq<Item>, k: nat, a: Answers, c: Config)
    requires k < |items| && (forall w :: w in first ==> w.RemoveLabel?) && TakesTurn(ws, r, items, k, a, c, 0)
    ensures TakesTurn(first + ws, r, items, k, a, c, 0)
  {
    AboutConcat(first, ws, Names(items[..k]));
    LandsConcat(About(first, Names(items[..k])), About(ws, Names(items[..k])));
    AboutIs(first, Names(items[..k]));
    AboutIs(About(first, Names(items[..k])), {});
  }

  function RoomFor(merged: nat, limit: int): nat {
    if merged < limit then limit - merged else 0
  }

  lemma {:induction false} SerialCounts(s: Repo, items: seq<Item>, queue: seq<Item>, a: Answers, c: Config, merges: nat, taken: set<Label>)
    requires !c.dry
    ensures LandsIn(Serial(s, items, queue, a, c, merges, taken)) <= RoomFor(merges, c.limit)
    ensures c.rebase && merges == 0 ==> LandsIn(Serial(s, items, queue, a, c, merges, taken)) <= 1
    decreases |items|
  {
    if items == [] { return; }
    var it := items[0];
    if Insists(s, it, c, merges) {
    } else if !ReadyToLand(s, it, c) || merges >= c.limit {
      SerialCounts(s, items[1..], queue, a, c, merges, taken);
    } else {
      var s1, now := Play(s, Attempt(a, it.iid)), taken + TenantLabels(it.labels);
      AttemptIs(a, it.iid);
      LandsConcat(Attempt(a, it.iid), GoOn(s, items, queue, a, c, merges, taken));
      if a.land(it.iid).Refused? {
        SerialCounts(s1, items[1..], queue, a, c, merges, taken);
      } else if c.rebase && merges == 0 {
        StartGroupAttempts(s1, it, queue, now, a, c);
        AboutIs(StartGroup(s1, it, queue, now, a, c), {});
      } else {
        LandsConcat(Attempt(a, it.iid), Serial(s1, items[1..], queue, a, c, merges + 1, now));
        SerialCounts(s1, items[1..], queue, a, c, merges + 1, now);
      }
    }
  }

  /** A serial pass merges no more than the limit, with rebasing on no more than one, and only items of
      its queue. */
  lemma SerialLimit(r: Repo, queue: seq<Item>, a: Answers, c: Config)
    requires !c.dry && !OnGroupPath(r, c)
    ensures var ws := MergePass(r, queue, a, c);
            && LandsIn(ws) <= RoomFor(0, c.limit) && (c.rebase ==> LandsIn(ws) <= 1)
            && (forall w :: w in ws && w.Land? ==> exists it: Item :: it in queue && it.iid == w.iid)
  {
    var w := CleanUp(r, c);
    var ws := Serial(Play(r, w), queue, queue, a, c, 0, {});
    SerialPassIs(r, queue, a, c);
    CleanUpRemoves(r, c);
    SerialCounts(Play(r, w), queue, queue, a, c, 0, {});
    SerialAttempts(Play(r, w), queue, queue, a, c, 0, {});
    LandsConcat(w, ws);
    AboutIs(w, {});
    forall x: Write | x in w + ws && x.Land? ensures exists it: Item :: it in queue && it.iid == x.iid { assert x in ws && x.iid in Names(queue); }
  }

  // --- Starting a group -----------------------------------------------------------------

  predicate IsFlag(w: Write) {
    w.AddLabel? && w.tag == MergeError
  }

  /** A rebasing pass flags MRs until it has merged one, and ends by starting the group behind that one. */
  lemma {:induction false} SerialShape(s: Repo, items: seq<Item>, queue: seq<Item>, a: Answers, c: Config, taken: set<Label>)
    returns (landed: bool, n: nat, pre: seq<Write>, s1: Repo)
    requires !c.dry && c.rebase
    ensures var ws := Serial(s, items, queue, a, c, 0, taken);
            if landed then
              && n < |items| && a.land(items[n].iid).Landed? && SameShell(s, s1) && (forall w :: w in pre ==> IsFlag(w))
              && ws == pre + ([Land(items[n].iid, a.land(items[n].iid).how)] + StartGroup(s1, items[n], queue, taken + TenantLabels(items[n].labels), a, c))
            else forall w :: w in ws ==> IsFlag(w)
    decreases |items|
  {
    landed, n, pre, s1 := false, 0, [], s;
    if items != [] {
      var it := items[0];
      if Insists(s, it, c, 0) {
      } else if !ReadyToLand(s, it, c) || 0 >= c.limit {
        landed, n, pre, s1 := SerialShape(s, items[1..], queue, a, c, taken);
        n := n + 1;
      } else if a.land(it.iid).Refused? {
        var flag := AddLabel(it.iid, MergeError);
        var s2 := Play(s, [flag]);
        var ws2 := Serial(s2, items[1..], queue, a, c, 0, taken);
        landed, n, pre, s1 := SerialShape(s2, items[1..], queue, a, c, taken);
        assert landed ==> [flag] + ws2 == ([flag] + pre) + ws2[|pre|..];
        n, pre := n + 1, [flag] + pre;
        PlayShell(s, [flag]);
      } else {
        var land := Land(it.iid, a.land(it.iid).how);
        landed, s1 := true, Play(s, [land]);
        PlayShell(s, [land]);
        assert [] + ([land] + StartGroup(s1, it, queue, taken + TenantLabels(it.labels), a, c)) == [land] + StartGroup(s1, it, queue, taken + TenantLabels(it.labels), a, c);
      }
    }
  }

  /** Without rebasing a pass merges and flags, and does nothing else. */
  lemma {:induction false} PlainShape(s: Repo, items: seq<Item>, queue: seq<Item>, a: Answers, c: Config, merges: nat, taken: set<Label>)
    requires !c.dry && !c.rebase
    ensures forall w :: w in Serial(s, items, queue, a, c, merges, taken) ==> IsAttempt(w)
    decreases |items|
  {
    if items != [] {
      var it := items[0];
      PlainShape(s, items[1..], queue, a, c, merges, taken);
      PlainShape(Play(s, [AddLabel(it.iid, MergeError)]), items[1..], queue, a, c, merges, taken);
      PlainShape(Play(s, Landings(it, a, false)), items[1..], queue, a, c, merges + 1, taken + TenantLabels(it.labels));
    }
  }

  ghost predicate IsPicked(queue: seq<Item>, s: set<nat>, j: Iid) {
    exists p: nat :: p in s && p < |queue| && queue[p].iid == j
  }

  /** Behind the merged MR `i`: if a group starts, `i` leads it, the picked ones are enlisted, those whose
      rebase GitLab accepts are rebased and the others flagged; if none starts, nothing of this is done. */
  ghost predicate StartedBy(ws: seq<Write>, starts: bool, i: Iid, queue: seq<Item>, s: set<nat>, a: Answers) {
    && (forall j :: AddLabel(j, OmmGroupLead) in ws <==> starts && j == i)
    && (forall j :: AddLabel(j, OmmPending) in ws <==> starts && IsPicked(queue, s, j))
    && (forall j, moved :: Rebase(j, moved) in ws <==> starts && IsPicked(queue, s, j) && a.rebase(j) == Accepted(moved))
    && (forall j :: AddLabel(j, RebaseError) in ws <==> starts && IsPicked(queue, s, j) && a.rebase(j) == Conflict)
  }

  /** The MR to lead is labelled before its members are. */
  ghost predicate LeadFirst(ws: seq<Write>) {
    forall n :: 0 <= n < |ws| && ws[n].AddLabel? && ws[n].tag == OmmPending ==>
      exists m :: 0 <= m < n && ws[m].AddLabel? && ws[m].tag == OmmGroupLead
  }

  lemma {:induction false} WithoutNobody(queue: seq<Item>)
    ensures Without(queue, []) == queue
  {
    if queue != [] { WithoutNobody(queue[1..]); }
  }

  lemma PickedAre(r: Repo, s1: Repo, it: Item, queue: seq<Item>, s: set<nat>)
    requires SameShell(r, s1) && IsSelection(r, queue, {}, it.labels, s)
    ensures var cands := Iids(Form(s1, queue, {} + TenantLabels(it.labels)));
            && (forall j :: j in cands <==> IsPicked(queue, s, j)) && (cands != [] <==> s != {})
  {
    var now := {} + TenantLabels(it.labels);
    FormSame(r, s1, queue, now);
    WithoutNobody(queue);
    assert queue[0..] == queue && Elems([]) == {};
    assert IsTaken(queue, it.labels, s, 0, now);
    FormIsSelection(r, queue, [], it.labels, s, 0, now);
    var cands := Iids(Form(s1, queue, now));
    forall j ensures j in cands <==> IsPicked(queue, s, j) {}
    if cands != [] { assert cands[0] in cands; }
    if p :| p in s { assert IsPicked(queue, s, queue[p].iid); }
  }

  lemma StartGroupIs(r: Repo, s1: Repo, it: Item, queue: seq<Item>, a: Answers, c: Config, s: set<nat>)
    requires SameShell(r, s1) && !c.dry && IsSelection(r, queue, {}, it.labels, s)
    ensures var g := StartGroup(s1, it, queue, {} + TenantLabels(it.labels), a, c);
            && StartedBy(g, c.multi && (exists l :: l in it.labels && l.Tenant?) && s != {}, it.iid, queue, s, a)
            && LeadFirst(g)
  {
    var cands := Iids(Form(s1, queue, {} + TenantLabels(it.labels)));
    PickedAre(r, s1, it, queue, s);
    if l :| l in it.labels && l.Tenant? { assert l in TenantLabels(it.labels); }
    LeadAndMembers(it.iid, cands, queue, s, a);
  }

  lemma LeadAndMembers(i: Iid, cands: seq<Iid>, queue: seq<Item>, s: set<nat>, a: Answers)
    requires forall j :: j in cands <==> IsPicked(queue, s, j)
    ensures var g := [AddLabel(i, OmmGroupLead)] + Enlist(a, cands); StartedBy(g, true, i, queue, s, a) && LeadFirst(g)
  {
    var g := [AddLabel(i, OmmGroupLead)] + Enlist(a, cands);
    EnlistNames(a, cands);
    EnlistNoLead(a, cands);
    forall j ensures (forall moved :: Rebase(j, moved) in g <==> j in cands && a.rebase(j) == Accepted(moved))
                  && (AddLabel(j, RebaseError) in g <==> j in cands && a.rebase(j) == Conflict) {
      EnlistAnswers(a, cands, j);
    }
    assert g[0] == AddLabel(i, OmmGroupLead);
  }

  lemma {:induction false} EnlistNoLead(a: Answers, cands: seq<Iid>)
    ensures forall j :: AddLabel(j, OmmGroupLead) !in Enlist(a, cands)
  {
    if cands != [] { EnlistNoLead(a, cands[1..]); }
  }

  /** What else is written does not start a group. */
  lemma StartedAfter(pre: seq<Write>, g: seq<Write>, starts: bool, i: Iid, queue: seq<Item>, s: set<nat>, a: Answers)
    requires (forall w :: w in pre ==> IsAttempt(w) || w.RemoveLabel?) && StartedBy(g, starts, i, queue, s, a) && LeadFirst(g)
    ensures StartedBy(pre + g, starts, i, queue, s, a) && LeadFirst(pre + g)
  {
    forall w: Write | !IsAttempt(w) && !w.RemoveLabel? ensures w in pre + g <==> w in g {}
    assert forall j :: !IsAttempt(AddLabel(j, OmmGroupLead)) && !IsAttempt(AddLabel(j, OmmPending)) && !IsAttempt(AddLabel(j, RebaseError));
    assert forall j, moved :: !IsAttempt(Rebase(j, moved));
    var ws := pre + g;
    forall m | 0 <= m < |pre| ensures IsAttempt(pre[m]) || pre[m].RemoveLabel? { assert pre[m] in pre; }
    forall n | 0 <= n < |ws| && ws[n].AddLabel? && ws[n].tag == OmmPending
      ensures exists m :: 0 <= m < n && ws[m].AddLabel? && ws[m].tag == OmmGroupLead
    {
      assert ws[n] == g[n - |pre|];
      var m :| 0 <= m < n - |pre| && g[m].AddLabel? && g[m].tag == OmmGroupLead;
      assert ws[m + |pre|] == g[m];
    }
  }

  /** The writes of a rebasing serial pass: nobody is merged, or one MR is, and the group behind it comes last. */
  lemma GroupBehind(r: Repo, queue: seq<Item>, a: Answers, c: Config) returns (landed: bool, n: nat, s1: Repo, pre: seq<Write>)
    requires !c.dry && c.rebase && !OnGroupPath(r, c)
    ensures var ws := MergePass(r, queue, a, c);
            && (forall w :: w in pre ==> IsAttempt(w) || w.RemoveLabel?)
            && if landed then
                 && n < |queue| && SameShell(r, s1) && (forall w :: w in ws && w.Land? ==> w.iid == queue[n].iid)
                 && ws == pre + StartGroup(s1, queue[n], queue, {} + TenantLabels(queue[n].labels), a, c)
               else ws == pre && forall w :: w in ws ==> !w.Land?
  {
    var w := CleanUp(r, c);
    var flags: seq<Write>;
    SerialPassIs(r, queue, a, c);
    CleanUpRemoves(r, c);
    landed, n, flags, s1 := SerialShape(Play(r, w), queue, queue, a, c, {});
    pre := w + Serial(Play(r, w), queue, queue, a, c, 0, {});
    if landed {
      var land := Land(queue[n].iid, a.land(queue[n].iid).how);
      var g := StartGroup(s1, queue[n], queue, {} + TenantLabels(queue[n].labels), a, c);
      pre := w + (flags + [land]);
      StartGroupAttempts(s1, queue[n], queue, {} + TenantLabels(queue[n].labels), a, c);
      OneLanding(w, flags, land, g);
    }
  }

  lemma OneLanding(w: seq<Write>, flags: seq<Write>, land: Write, g: seq<Write>)
    requires (forall x :: x in w ==> x.RemoveLabel?) && (forall x :: x in flags ==> IsFlag(x)) && land.Land? && forall x :: x in g ==> !IsAttempt(x)
    ensures w + (flags + ([land] + g)) == (w + (flags + [land])) + g
    ensures forall x :: x in w + (flags + [land]) ==> IsAttempt(x) || x.RemoveLabel?
    ensures forall x :: x in (w + (flags + [land])) + g && x.Land? ==> x == land
  {
  }

  /** When and how a serial pass starts a group: behind the MR that it merges, if and only if rebasing and
      group merging are on, the MR was listed with a tenant label, and somebody in the queue may join and
      is apart from it.  The selection from the queue is enlisted, and the lead is labelled first. */
  lemma GroupStartsIff(r: Repo, queue: seq<Item>, a: Answers, c: Config, k: nat, s: set<nat>)
    requires !c.dry && !OnGroupPath(r, c) && IsListing(r, queue) && k < |queue| && IsSelection(r, queue, {}, queue[k].labels, s)
    requires exists how :: Land(queue[k].iid, how) in MergePass(r, queue, a, c)
    ensures var ws := MergePass(r, queue, a, c);
            var starts := c.rebase && c.multi && (exists l :: l in queue[k].labels && l.Tenant?) && s != {};
            StartedBy(ws, starts, queue[k].iid, queue, s, a) && LeadFirst(ws)
  {
    var ws := MergePass(r, queue, a, c);
    if c.rebase {
      var landed, n, s1, pre := GroupBehind(r, queue, a, c);
      var how :| Land(queue[k].iid, how) in ws;
      assert Land(queue[k].iid, how).Land? && landed && n == k;
      StartGroupIs(r, s1, queue[k], queue, a, c, s);
      StartedAfter(pre, StartGroup(s1, queue[k], queue, {} + TenantLabels(queue[k].labels), a, c),
                   c.multi && (exists l :: l in queue[k].labels && l.Tenant?) && s != {}, queue[k].iid, queue, s, a);
    } else {
      PlainPass(r, queue, a, c);
      StartedAfter(ws, [], false, queue[k].iid, queue, s, a);
      assert ws + [] == ws;
    }
  }

  lemma PlainPass(r: Repo, queue: seq<Item>, a: Answers, c: Config)
    requires !c.dry && !c.rebase
    ensures forall w :: w in MergePass(r, queue, a, c) ==> IsAttempt(w) || w.RemoveLabel?
  {
    SerialPassIs(r, queue, a, c);
    CleanUpRemoves(r, c);
    PlainShape(Play(r, CleanUp(r, c)), queue, queue, a, c, 0, {});
  }

  /** A serial pass that merges nobody starts no group and rebases nobody. */
  lemma NoMergeNoGroup(r: Repo, queue: seq<Item>, a: Answers, c: Config)
    requires !c.dry && !OnGroupPath(r, c)
    ensures var ws := MergePass(r, queue, a, c);
            (forall w :: w in ws ==> !w.Land?) ==> forall w :: w in ws ==> IsFlag(w) || w.RemoveLabel?
  {
    if !c.rebase {
      PlainPass(r, queue, a, c);
    } else {
      var w := CleanUp(r, c);
      SerialPassIs(r, queue, a, c);
      CleanUpRemoves(r, c);
      var landed, n, pre, s1 := SerialShape(Play(r, w), queue, queue, a, c, {});
      if landed { assert Land(queue[n].iid, a.land(queue[n].iid).how) in MergePass(r, queue, a, c); }
    }
  }

  // --- How a pass ends ------------------------------------------------------------------

  /** The loop reports as many as it has merged. */
  lemma {:induction false} SerialMerges(s: Repo, items: seq<Item>, queue: seq<Item>, a: Answers, c: Config, merges: nat, taken: set<Label>)
    requires !c.dry && (c.rebase ==> merges == 0)
    ensures SerialEnd(s, items, a, c, merges).merges == merges + LandsIn(Serial(s, items, queue, a, c, merges, taken))
    decreases |items|
  {
    if items == [] { return; }
    var it := items[0];
    if Insists(s, it, c, merges) {
    } else if !ReadyToLand(s, it, c) || merges >= c.limit {
      SerialMerges(s, items[1..], queue, a, c, merges, taken);
    } else {
      var s1, now := Play(s, Attempt(a, it.iid)), taken + TenantLabels(it.labels);
      AttemptIs(a, it.iid);
      LandsConcat(Attempt(a, it.iid), GoOn(s, items, queue, a, c, merges, taken));
      if a.land(it.iid).Refused? {
        SerialMerges(s1, items[1..], queue, a, c, merges, taken);
      } else if c.rebase {
        StartGroupAttempts(s1, it, queue, now, a, c);
        AboutIs(StartGroup(s1, it, queue, now, a, c), {});
      } else {
        SerialMerges(s1, items[1..], queue, a, c, merges + 1, now);
      }
    }
  }

  /** Item `k` is the first to hold the pass up, and with rebasing on nobody before it has been merged. */
  ghost predicate IsStopper(ws: seq<Write>, r: Repo, items: seq<Item>, k: nat, c: Config)
    requires k < |items|
  {
    && HoldsUp(r, items[k], c) && (forall j :: 0 <= j < k ==> !HoldsUp(r, items[j], c))
    && (c.rebase ==> LandsIn(About(ws, Names(items[..k]))) == 0)
  }

  ghost predicate HasStopper(ws: seq<Write>, r: Repo, items: seq<Item>, c: Config) {
    exists k: nat :: k < |items| && IsStopper(ws, r, items, k, c)
  }

  lemma StopperCons(first: seq<Write>, rest: seq<Write>, r: Repo, items: seq<Item>, c: Config)
    requires items != [] && DistinctItems(items) && !HoldsUp(r, items[0], c) && (c.rebase ==> LandsIn(first) == 0)
    requires forall w :: w in first ==> w.iid == items[0].iid
    requires forall w :: w in rest && w.Land? ==> w.iid in Names(items[1..])
    ensures HasStopper(first + rest, r, items, c) <==> HasStopper(rest, r, items[1..], c)
  {
    forall k: nat | 0 < k < |items| ensures IsStopper(first + rest, r, items, k, c) <==> IsStopper(rest, r, items[1..], k - 1, c) {
      HeldUpCons(r, items, k, c);
      CountCons(first, rest, items, k);
      assert items[1..][k - 1] == items[k];
    }
    if HasStopper(rest, r, items[1..], c) {
      var k: nat :| k < |items[1..]| && IsStopper(rest, r, items[1..], k, c);
      assert IsStopper(first + rest, r, items, k + 1, c);
    }
  }

  /** After a merge no rebasing pass gives up. */
  lemma NoStopper(first: seq<Write>, rest: seq<Write>, r: Repo, items: seq<Item>, c: Config)
    requires items != [] && DistinctItems(items) && !HoldsUp(r, items[0], c) && c.rebase && LandsIn(first) > 0
    requires forall w :: w in first ==> w.iid == items[0].iid
    requires forall w :: w in rest && w.Land? ==> w.iid in Names(items[1..])
    ensures !HasStopper(first + rest, r, items, c)
  {
    forall k: nat | 0 < k < |items| ensures !IsStopper(first + rest, r, items, k, c) { CountCons(first, rest, items, k); }
  }

  /** The report, item by item. */
  lemma EndStep(r: Repo, s: Repo, items: seq<Item>, a: Answers, c: Config, merges: nat)
    requires items != [] && items[0].iid in r.mrs && StillSeen(r, s, c) && (c.rebase ==> merges == 0)
    ensures var it := items[0];
            SerialEnd(s, items, a, c, merges) ==
              if HoldsUp(r, it, c) then PassEnd(merges, true)
              else if !(IsMergeable(r, it, c) && HasRoom(merges, c)) then SerialEnd(s, items[1..], a, c, merges)
              else if !c.dry && a.land(it.iid).Refused? then SerialEnd(Play(s, Attempt(a, it.iid)), items[1..], a, c, merges)
              else if c.rebase then PassEnd(1, false)
              else SerialEnd(Play(s, if c.dry then [] else Attempt(a, it.iid)), items[1..], a, c, merges + 1)
  {
    TurnsAre(r, s, items[0], c, merges);
  }

  lemma {:induction false} SerialInsists(r: Repo, s: Repo, items: seq<Item>, queue: seq<Item>, a: Answers, c: Config, merges: nat, taken: set<Label>)
    requires !c.dry && DistinctItems(items) && (forall it :: it in items ==> it.iid in r.mrs)
    requires StillSeen(r, s, c) && (c.rebase ==> merges == 0)
    ensures SerialEnd(s, items, a, c, merges).insisted <==> HasStopper(Serial(s, items, queue, a, c, merges, taken), r, items, c)
    decreases |items|, 2
  {
    if items == [] { return; }
    var it, ws := items[0], Serial(s, items, queue, a, c, merges, taken);
    assert it in items;
    EndStep(r, s, items, a, c, merges);
    SerialIs(r, s, items, queue, a, c, merges, taken);
    ItemsTail(items);
    if HoldsUp(r, it, c) {
      AboutIs(ws, Names(items[..0]));
      assert IsStopper(ws, r, items, 0, c);
    } else if !(IsMergeable(r, it, c) && HasRoom(merges, c)) {
      SerialInsists(r, s, items[1..], queue, a, c, merges, taken);
      SerialAttempts(s, items[1..], queue, a, c, merges, taken);
      StopperCons([], ws, r, items, c);
      assert [] + ws == ws;
    } else {
      InsistsAfter(r, s, items, queue, a, c, merges, taken);
    }
  }

  lemma {:induction false} InsistsAfter(r: Repo, s: Repo, items: seq<Item>, queue: seq<Item>, a: Answers, c: Config, merges: nat, taken: set<Label>)
    requires !c.dry && items != [] && DistinctItems(items) && (forall it :: it in items ==> it.iid in r.mrs)
    requires StillSeen(r, s, c) && (c.rebase ==> merges == 0)
    requires !HoldsUp(r, items[0], c) && IsMergeable(r, items[0], c) && HasRoom(merges, c)
    ensures SerialEnd(s, items, a, c, merges).insisted <==> HasStopper(Serial(s, items, queue, a, c, merges, taken), r, items, c)
    decreases |items|, 1
  {
    var it := items[0];
    var first, rest := Attempt(a, it.iid), GoOn(s, items, queue, a, c, merges, taken);
    assert it in items;
    EndStep(r, s, items, a, c, merges);
    SerialIs(r, s, items, queue, a, c, merges, taken);
    AttemptIs(a, it.iid);
    GoOnAttempts(s, items, queue, a, c, merges, taken);
    if a.land(it.iid).Landed? && c.rebase {
      NoStopper(first, rest, r, items, c);
    } else {
      StopperCons(first, rest, r, items, c);
      InsistsLater(r, s, items, queue, a, c, merges, taken);
    }
  }

  lemma {:induction false} InsistsLater(r: Repo, s: Repo, items: seq<Item>, queue: seq<Item>, a: Answers, c: Config, merges: nat, taken: set<Label>)
    requires !c.dry && items != [] && DistinctItems(items) && (forall it :: it in items ==> it.iid in r.mrs)
    requires StillSeen(r, s, c) && (c.rebase ==> merges == 0) && (a.land(items[0].iid).Refused? || !c.rebase)
    ensures var s1, n := Play(s, Attempt(a, items[0].iid)), if a.land(items[0].iid).Refused? then merges else merges + 1;
            SerialEnd(s1, items[1..], a, c, n).insisted <==> HasStopper(GoOn(s, items, queue, a, c, merges, taken), r, items[1..], c)
    decreases |items|, 0
  {
    var it, s1 := items[0], Play(s, Attempt(a, items[0].iid));
    ItemsTail(items);
    AttemptSeen(r, s, it.iid, a, c);
    if a.land(it.iid).Refused? {
      SerialInsists(r, s1, items[1..], queue, a, c, merges, taken);
    } else {
      SerialInsists(r, s1, items[1..], queue, a, c, merges + 1, taken + TenantLabels(it.labels));
    }
  }

  /** What a serial pass that is not dry reports: as many merges as it has made, and that it gives up if and
      only if an item holds it up - with rebasing on, before anybody has been merged. */
  lemma SerialEndIs(r: Repo, queue: seq<Item>, a: Answers, c: Config)
    requires !c.dry && !OnGroupPath(r, c) && IsListing(r, queue)
    ensures var ws, end := MergePass(r, queue, a, c), EndOf(r, queue, a, c);
            end.merges == LandsIn(ws) && (end.insisted <==> HasStopper(ws, r, queue, c))
  {
    var w := CleanUp(r, c);
    var ws := Serial(Play(r, w), queue, queue, a, c, 0, {});
    SerialPassIs(r, queue, a, c);
    CleanUpRemoves(r, c);
    SerialMerges(Play(r, w), queue, queue, a, c, 0, {});
    SerialInsists(r, Play(r, w), queue, queue, a, c, 0, {});
    LandsConcat(w, ws);
    AboutIs(w, {});
    forall k: nat | k < |queue| ensures IsStopper(w + ws, r, queue, k, c) <==> IsStopper(ws, r, queue, k, c) {
      AboutConcat(w, ws, Names(queue[..k]));
      LandsConcat(About(w, Names(queue[..k])), About(ws, Names(queue[..k])));
      AboutIs(w, Names(queue[..k]));
      AboutIs(About(w, Names(queue[..k])), {});
    }
  }

  ghost predicate AcceptsAll(a: Answers) {
    forall i :: a.land(i).Landed?
  }

  lemma {:induction false} DryLoopEnds(r: Repo, s: Repo, s': Repo, items: seq<Item>, a: Answers, a': Answers, c: Config, merges: nat)
    requires c.dry && AcceptsAll(a') && (forall it :: it in items ==> it.iid in r.mrs)
    requires StillSeen(r, s, c) && StillSeen(r, s', c) && (c.rebase ==> merges == 0)
    ensures SerialEnd(s, items, a, c, merges) == SerialEnd(s', items, a', c.(dry := false), merges)
    decreases |items|, 1
  {
    if items != [] {
      var it := items[0];
      assert it in items;
      EndStep(r, s, items, a, c, merges);
      EndStep(r, s', items, a', c.(dry := false), merges);
      if HoldsUp(r, it, c) {
      } else if !(IsMergeable(r, it, c) && HasRoom(merges, c)) {
        DryLoopEnds(r, s, s', items[1..], a, a', c, merges);
      } else if !c.rebase {
        DryLoopMerges(r, s, s', items, a, a', c, merges);
      }
    }
  }

  lemma {:induction false} DryLoopMerges(r: Repo, s: Repo, s': Repo, items: seq<Item>, a: Answers, a': Answers, c: Config, merges: nat)
    requires c.dry && AcceptsAll(a') && items != [] && (forall it :: it in items ==> it.iid in r.mrs) && !c.rebase
    requires StillSeen(r, s, c) && StillSeen(r, s', c)
    ensures SerialEnd(Play(s, []), items[1..], a, c, merges + 1)
      == SerialEnd(Play(s', Attempt(a', items[0].iid)), items[1..], a', c.(dry := false), merges + 1)
    decreases |items|, 0
  {
    AttemptSeen(r, s', items[0].iid, a', c);
    DryLoopEnds(r, s, Play(s', Attempt(a', items[0].iid)), items[1..], a, a', c, merges + 1);
  }

  /** A dry serial pass reports what a real one would if GitLab accepted every merge. */
  lemma DryEndIs(r: Repo, queue: seq<Item>, a: Answers, a': Answers, c: Config)
    requires c.dry && AcceptsAll(a') && !OnGroupPath(r, c) && IsListing(r, queue)
    ensures EndOf(r, queue, a, c) == EndOf(r, queue, a', c.(dry := false))
  {
    SerialPassIs(r, queue, a, c);
    SerialPassIs(r, queue, a', c.(dry := false));
    DryLoopEnds(r, Play(r, CleanUp(r, c)), Play(r, CleanUp(r, c.(dry := false))), queue, a, a', c, 0);
  }
}
