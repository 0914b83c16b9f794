/** What one pass of the merge loop writes to GitLab, as a function of the state it reads and of
    the answers it gets.  A pass that fails part way has made a prefix of these writes. */
module MergeQueue {
  import opened Common
  import opened GitLabRepo

  /** `Accepted(moved)`: GitLab took the rebase; `moved` if the commit is already replaced. */
  datatype RebaseAnswer = Conflict | Accepted(moved: bool)

  datatype LandAnswer = Refused | Landed(how: Landing)

  /** GitLab's answers to the rebase, merge and compare calls of one pass, per merge request. */
  datatype Answers = Answers(rebase: Iid -> RebaseAnswer, land: Iid -> LandAnswer, missing: Iid -> bool)

  datatype Config = Config(
    multi: bool, rebase: bool, dry: bool, wait: bool, insist: bool, limit: int,
    windowOpen: bool, ciHealthy: bool)

  /** A queue item: the merge request as it was listed, with its error flag. */
  datatype Item = Item(iid: Iid, labels: set<Label>, sha: Sha, error: bool)

  function Emit(dry: bool, ws: seq<Write>): seq<Write> {
    if dry then [] else ws
  }

  function PipelinesOf(r: Repo, i: Iid): seq<Pipeline> {
    if i in r.mrs then r.mrs[i].pipelines else []
  }

  function LabelsOf(r: Repo, i: Iid): set<Label> {
    if i in r.mrs then r.mrs[i].labels else {}
  }

  function TenantsOf(r: Repo, i: Iid): set<Label> {
    TenantLabels(LabelsOf(r, i))
  }

  function TargetOf(r: Repo, i: Iid): Branch {
    if i in r.mrs then r.mrs[i].target else ""
  }

  function ShaOf(r: Repo, i: Iid): Sha {
    if i in r.mrs then r.mrs[i].sha else 0
  }

  function NonSkipped(ps: seq<Pipeline>): seq<Pipeline> {
    if ps == [] then []
    else if ps[0].status == Skipped then NonSkipped(ps[1..])
    else [ps[0]] + NonSkipped(ps[1..])
  }

  /** Pipelines carrying a CI signal: neither skipped nor started by a push. */
  function Signal(ps: seq<Pipeline>): seq<Pipeline> {
    if ps == [] then []
    else if ps[0].status == Skipped || ps[0].push then Signal(ps[1..])
    else [ps[0]] + Signal(ps[1..])
  }

  // --- Group formation ------------------------------------------------------------------

  predicate HasLivePipeline(ps: seq<Pipeline>) {
    var live := NonSkipped(ps);
    live != [] && (live[0].status == Running || live[0].status == Pending || live[0].status == Success)
  }

  /** The queue-independent part of the candidate test. */
  predicate IsCandidate(r: Repo, it: Item) {
    !it.error && TenantLabels(it.labels) != {} && HasLivePipeline(PipelinesOf(r, it.iid))
  }

  function Form(r: Repo, queue: seq<Item>, taken: set<Label>): seq<Item> {
    if queue == [] then []
    else
      var it := queue[0];
      if IsCandidate(r, it) && TenantLabels(it.labels) * taken == {} then
        [it] + Form(r, queue[1..], taken + TenantLabels(it.labels))
      else Form(r, queue[1..], taken)
  }

  function Iids(items: seq<Item>): seq<Iid> {
    if items == [] then [] else [items[0].iid] + Iids(items[1..])
  }

  /** Label each candidate pending and rebase it; a conflict takes the label back. */
  function Enlist(a: Answers, cands: seq<Iid>): seq<Write> {
    if cands == [] then []
    else EnlistOne(a, cands[0]) + Enlist(a, cands[1..])
  }

  function EnlistOne(a: Answers, i: Iid): seq<Write> {
    match a.rebase(i)
    case Conflict => [AddLabel(i, OmmPending), RemoveLabel(i, OmmPending), AddLabel(i, RebaseError)]
    case Accepted(moved) => [AddLabel(i, OmmPending), Rebase(i, moved)]
  }

  function Retained(a: Answers, dry: bool, cands: seq<Iid>): seq<Iid> {
    if cands == [] then []
    else
      var rest := Retained(a, dry, cands[1..]);
      if dry || a.rebase(cands[0]).Accepted? then [cands[0]] + rest else rest
  }

  // --- Closing a group ------------------------------------------------------------------

  function Unpend(ids: seq<Iid>): seq<Write> {
    if ids == [] then [] else [RemoveLabel(ids[0], OmmPending)] + Unpend(ids[1..])
  }

  function FindLead(r: Repo): Option<Iid> {
    var leads := Listing(r, Merged, OmmGroupLead);
    if leads == [] then None else Some(leads[0])
  }

  function Dethrone(r: Repo, lead: Option<Iid>): seq<Write> {
    var known := if lead.Some? then lead else FindLead(r);
    if known.Some? then [RemoveLabel(known.value, OmmGroupLead)] else []
  }

  /** Take the pending label off `open`, then off every closed and every merged MR found with it. */
  function UnpendEverywhere(r: Repo, open: seq<Iid>): seq<Write> {
    var r1 := Play(r, Unpend(open));
    var closed := Listing(r1, Closed, OmmPending);
    var r2 := Play(r1, Unpend(closed));
    Unpend(open) + (Unpend(closed) + Unpend(Listing(r2, Merged, OmmPending)))
  }

  function Clear(r: Repo, lead: Option<Iid>, pending: Option<seq<Iid>>): seq<Write> {
    var w := Dethrone(r, lead);
    var r1 := Play(r, w);
    w + UnpendEverywhere(r1, if pending.Some? then pending.value else Listing(r1, Opened, OmmPending))
  }

  // --- One pending member ---------------------------------------------------------------

  datatype Outcome = Outcome(writes: seq<Write>, merged: bool, active: bool)

  function Member(r: Repo, i: Iid, a: Answers, dry: bool): Outcome {
    var eject := Outcome(Emit(dry, [RemoveLabel(i, OmmPending)]), false, false);
    var live := Signal(PipelinesOf(r, i));
    var rebased := IsRebased(r, ShaOf(r, i), TargetOf(r, i));
    if LabelsOf(r, i) * ERROR_LABELS != {} then eject
    else if LabelsOf(r, i) * HOLD_LABELS != {} then eject
    else if a.missing(i) then eject
    else if live == [] then Outcome([], false, rebased)
    else if live[0].status == Failed || live[0].status == Canceled then eject
    else if live[0].status == Running || live[0].status == Pending then Outcome([], false, true)
    else if live[0].status != Success then Outcome([], false, rebased)
    else if rebased then
      if dry then Outcome([], true, false)
      else
        match a.land(i)
        case Refused => Outcome([AddLabel(i, MergeError)], false, false)
        case Landed(how) => Outcome([Land(i, how)], true, false)
    else if dry then Outcome([], false, true)
    else
      match a.rebase(i)
      case Conflict => eject
      case Accepted(moved) => Outcome([Rebase(i, moved)], false, true)
  }

  datatype MembersOutcome = MembersOutcome(writes: seq<Write>, merges: nat, active: bool, capped: bool)

  function Members(r: Repo, ids: seq<Iid>, a: Answers, dry: bool, merges: nat, limit: int): MembersOutcome
    decreases |ids|
  {
    if ids == [] then MembersOutcome([], merges, false, false)
    else
      var m := Member(r, ids[0], a, dry);
      if m.merged && merges + 1 >= limit then MembersOutcome(m.writes, merges + 1, false, true)
      else
        var rest := Members(Play(r, m.writes), ids[1..], a, dry, if m.merged then merges + 1 else merges, limit);
        MembersOutcome(m.writes + rest.writes, rest.merges, m.active || rest.active, rest.capped)
  }

  // --- One pass over an active group ----------------------------------------------------

  function LeadSha(r: Repo, lead: Iid): Option<Sha> {
    if lead !in r.mrs then None
    else if r.mrs[lead].mergeSha.Some? then r.mrs[lead].mergeSha
    else r.mrs[lead].squashSha
  }

  /** `c` is the recorded merge or squash commit of a merged, still pending member for `b`. */
  predicate IsMemberCommit(r: Repo, b: Branch, c: Sha) {
    exists i | i in r.mrs ::
      && r.mrs[i].state == Merged && OmmPending in r.mrs[i].labels && r.mrs[i].target == b
      && (r.mrs[i].mergeSha == Some(c) || r.mrs[i].squashSha == Some(c))
  }

  predicate IsIntact(r: Repo, lead: Iid, leadSha: Sha) {
    var b := TargetOf(r, lead);
    var head := Head(r, b);
    head == leadSha || (Reach(r, leadSha) <= Reach(r, head) && IsMemberCommit(r, b, head))
  }

  /** The members kept, in order: each overlaps neither the lead nor a member kept before it. */
  function Keep(r: Repo, ids: seq<Iid>, seen: set<Label>): seq<Iid> {
    if ids == [] then []
    else if TenantsOf(r, ids[0]) * seen != {} then Keep(r, ids[1..], seen)
    else [ids[0]] + Keep(r, ids[1..], seen + TenantsOf(r, ids[0]))
  }

  function Overlapping(r: Repo, ids: seq<Iid>, seen: set<Label>): seq<Iid> {
    if ids == [] then []
    else if TenantsOf(r, ids[0]) * seen != {} then [ids[0]] + Overlapping(r, ids[1..], seen)
    else Overlapping(r, ids[1..], seen + TenantsOf(r, ids[0]))
  }

  function AllTenants(r: Repo, ids: seq<Iid>): set<Label> {
    if ids == [] then {} else TenantsOf(r, ids[0]) + AllTenants(r, ids[1..])
  }

  function Without(queue: seq<Item>, ids: seq<Iid>): seq<Item> {
    if queue == [] then []
    else if queue[0].iid in ids then Without(queue[1..], ids)
    else [queue[0]] + Without(queue[1..], ids)
  }

  datatype GroupOutcome = GroupOutcome(writes: seq<Write>, merges: nat)

  function Close(r: Repo, lead: Iid, pending: Option<seq<Iid>>, dry: bool): seq<Write> {
    Emit(dry, Clear(r, Some(lead), pending))
  }

  function GroupPass(r: Repo, lead: Iid, queue: seq<Item>, a: Answers, c: Config): GroupOutcome {
    if !c.windowOpen || !c.ciHealthy then GroupOutcome(Close(r, lead, None, c.dry), 0)
    else if LeadSha(r, lead).None? then GroupOutcome([], 0)
    else if !IsIntact(r, lead, LeadSha(r, lead).value) then GroupOutcome(Close(r, lead, None, c.dry), 0)
    else
      var pending := Listing(r, Opened, OmmPending);
      if pending == [] then GroupOutcome(Close(r, lead, Some([]), c.dry), 0)
      else RunGroup(r, lead, pending, queue, a, c)
  }

  /** The pass over a group that is open, healthy and has pending members. */
  function RunGroup(r: Repo, lead: Iid, pending: seq<Iid>, queue: seq<Item>, a: Answers, c: Config): GroupOutcome {
    var kept := Keep(r, pending, TenantsOf(r, lead));
    var w1 := Emit(c.dry, Unpend(Overlapping(r, pending, TenantsOf(r, lead))));
    var r1 := Play(r, w1);
    var m := Members(r1, kept, a, c.dry, 0, c.limit);
    var r2 := Play(r1, m.writes);
    if m.capped then GroupOutcome(w1 + (m.writes + Close(r2, lead, Some(kept), c.dry)), m.merges)
    else GroupOutcome(w1 + (m.writes + Expand(r2, lead, kept, queue, a, c, m.active)), m.merges)
  }

  function Newcomers(r: Repo, lead: Iid, kept: seq<Iid>, queue: seq<Item>): seq<Iid> {
    Iids(Form(r, Without(queue, kept), TenantsOf(r, lead) + AllTenants(r, kept)))
  }

  function Expand(r: Repo, lead: Iid, kept: seq<Iid>, queue: seq<Item>, a: Answers, c: Config, active: bool): seq<Write> {
    var cands := Newcomers(r, lead, kept, queue);
    var w := Emit(c.dry, Enlist(a, cands));
    w + StandStill(Play(r, w), lead, c.dry, active || Retained(a, c.dry, cands) != [])
  }

  /** A group that waits for nothing is closed. */
  function StandStill(r: Repo, lead: Iid, dry: bool, active: bool): seq<Write> {
    if active then [] else Close(r, lead, None, dry)
  }

  // --- The whole merge pass -------------------------------------------------------------

  predicate ReadyToLand(r: Repo, it: Item, c: Config) {
    && !it.error
    && (c.rebase ==> IsRebased(r, it.sha, TargetOf(r, it.iid)))
    && NonSkipped(PipelinesOf(r, it.iid)) != []
    && !(c.wait && HasRunning(PipelinesOf(r, it.iid)))
    && NonSkipped(PipelinesOf(r, it.iid))[0].status == Success
  }

  predicate HasRunning(ps: seq<Pipeline>) {
    exists k | 0 <= k < |NonSkipped(ps)| :: NonSkipped(ps)[k].status == Running
  }

  /** The item stops the loop: the pass insists on a running pipeline and starts over. */
  predicate Insists(r: Repo, it: Item, c: Config, merges: nat) {
    && !it.error
    && (c.rebase ==> IsRebased(r, it.sha, TargetOf(r, it.iid)))
    && c.wait && HasRunning(PipelinesOf(r, it.iid))
    && c.insist && (merges == 0 || !c.rebase)
  }

  /** After the first landing of a rebasing pass: form a group behind the landed item. */
  function StartGroup(r: Repo, it: Item, queue: seq<Item>, taken: set<Label>, a: Answers, c: Config): seq<Write> {
    var cands := Iids(Form(r, queue, taken));
    if c.multi && TenantLabels(it.labels) != {} && cands != [] then
      Emit(c.dry, [AddLabel(it.iid, OmmGroupLead)] + Enlist(a, cands))
    else []
  }

  function Serial(r: Repo, rest: seq<Item>, queue: seq<Item>, a: Answers, c: Config, merges: nat, taken: set<Label>): seq<Write>
    decreases |rest|
  {
    if rest == [] then []
    else
      var it := rest[0];
      if Insists(r, it, c, merges) then []
      else if !ReadyToLand(r, it, c) || merges >= c.limit then Serial(r, rest[1..], queue, a, c, merges, taken)
      else if !c.dry && a.land(it.iid).Refused? then
        var w := [AddLabel(it.iid, MergeError)];
        w + Serial(Play(r, w), rest[1..], queue, a, c, merges, taken)
      else
        var w := if c.dry then [] else [Land(it.iid, a.land(it.iid).how)];
        var r1 := Play(r, w);
        var taken1 := taken + TenantLabels(it.labels);
        if c.rebase && merges == 0 then w + StartGroup(r1, it, queue, taken1, a, c)
        else w + Serial(r1, rest[1..], queue, a, c, merges + 1, taken1)
  }

  /** How a pass ends: the number of MRs it has merged - in a dry run, would have - and whether it gives up
      to be retried because it insists on a running pipeline. */
  datatype PassEnd = PassEnd(merges: nat, insisted: bool)

  function SerialEnd(r: Repo, rest: seq<Item>, a: Answers, c: Config, merges: nat): PassEnd
    decreases |rest|
  {
    if rest == [] then PassEnd(merges, false)
    else
      var it := rest[0];
      if Insists(r, it, c, merges) then PassEnd(merges, true)
      else if !ReadyToLand(r, it, c) || merges >= c.limit then SerialEnd(r, rest[1..], a, c, merges)
      else if !c.dry && a.land(it.iid).Refused? then SerialEnd(Play(r, [AddLabel(it.iid, MergeError)]), rest[1..], a, c, merges)
      else if c.rebase && merges == 0 then PassEnd(1, false)
      else SerialEnd(Play(r, if c.dry then [] else [Land(it.iid, a.land(it.iid).how)]), rest[1..], a, c, merges + 1)
  }

  /** Before a serial pass: a switched-off feature or a lost lead leaves labels to clean up. */
  function CleanUp(r: Repo, c: Config): seq<Write> {
    if c.rebase && !c.multi && FindLead(r).Some? then Emit(c.dry, Clear(r, FindLead(r), None))
    else if c.rebase && c.multi && Listing(r, Opened, OmmPending) != [] then
      Emit(c.dry, Clear(r, None, Some(Listing(r, Opened, OmmPending))))
    else []
  }

  function MergePass(r: Repo, queue: seq<Item>, a: Answers, c: Config): seq<Write> {
    if c.rebase && c.multi && FindLead(r).Some? then GroupPass(r, FindLead(r).value, queue, a, c).writes
    else
      var w := CleanUp(r, c);
      w + Serial(Play(r, w), queue, queue, a, c, 0, {})
  }

  function EndOf(r: Repo, queue: seq<Item>, a: Answers, c: Config): PassEnd {
    if c.rebase && c.multi && FindLead(r).Some? then PassEnd(GroupPass(r, FindLead(r).value, queue, a, c).merges, false)
    else SerialEnd(Play(r, CleanUp(r, c)), queue, a, c, 0)
  }
}
