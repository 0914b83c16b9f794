/** The GitLab state that `gitlab_housekeeping` reads and changes: merge requests with their
    labels, commits and pipelines, and one commit graph with a HEAD per target branch. */
module GitLabRepo {
  import opened Common

  type Iid = nat
  type Sha = nat
  type Branch = string

  datatype Priority = Critical | Urgent | High | ProgressiveDelivery | Medium | Low

  /** Every label the integration distinguishes; `Tenant(n)` is the label "tenant-" + n. */
  datatype Label =
    | OmmPending
    | OmmGroupLead
    | MergeError
    | PipelineError
    | RebaseError
    | AwaitingApproval
    | BlockedBotAccess
    | ChangesRequested
    | BotHold
    | DoNotMergeHold
    | DoNotMergePendingReview
    | NeedsRebase
    | PrioritizedApproval(priority: Priority)
    | BotApproved
    | AutoMerge
    | Lgtm
    | Tenant(name: string)
    | Other(text: string)

  const ERROR_LABELS: set<Label> := {MergeError, PipelineError, RebaseError}

  const HOLD_LABELS: set<Label> := {
    AwaitingApproval, BlockedBotAccess, ChangesRequested, BotHold,
    DoNotMergeHold, DoNotMergePendingReview, NeedsRebase
  }

  predicate IsApproval(l: Label) {
    l.PrioritizedApproval? || l == BotApproved || l == AutoMerge || l == Lgtm
  }

  predicate IsGoodToMerge(labels: set<Label>) {
    && (exists l | l in labels :: IsApproval(l))
    && labels * HOLD_LABELS == {}
  }

  function TenantLabels(labels: set<Label>): set<Label> {
    set l | l in labels && l.Tenant?
  }

  datatype MrState = Opened | Closed | Merged

  datatype Status = Running | Pending | Success | Failed | Canceled | Skipped | OtherStatus

  /** `push` marks a pipeline whose source is a push. */
  datatype Pipeline = Pipeline(status: Status, push: bool)

  /** `pipelines` is ordered newest first, as the API wrapper returns it. */
  datatype Mr = Mr(
    state: MrState,
    labels: set<Label>,
    sha: Sha,
    target: Branch,
    pipelines: seq<Pipeline>,
    mergeSha: Option<Sha>,
    squashSha: Option<Sha>)

  /** `order` is the order in which listings return merge requests; `anc[c]` holds the commits
      reachable from c, c included; commits are numbered below `next`. */
  datatype Repo = Repo(
    mrs: map<Iid, Mr>,
    order: seq<Iid>,
    heads: map<Branch, Sha>,
    anc: map<Sha, set<Sha>>,
    next: Sha)

  function Reach(r: Repo, c: Sha): set<Sha> {
    if c in r.anc then r.anc[c] else {c}
  }

  function Head(r: Repo, b: Branch): Sha {
    if b in r.heads then r.heads[b] else 0
  }

  /** Every commit reaches itself, and whatever it reaches brings its own history along. */
  ghost predicate IsGraph(anc: map<Sha, set<Sha>>, next: Sha) {
    forall c :: c in anc ==> c < next && c in anc[c] && IsClosed(anc, anc[c])
  }

  ghost predicate IsClosed(anc: map<Sha, set<Sha>>, s: set<Sha>) {
    forall d :: d in s ==> d in anc && anc[d] <= s
  }

  /** Every commit in use is a known one, and known commits are numbered below `next`. */
  ghost predicate IsWired(r: Repo) {
    && (forall c :: c in r.anc ==> c < r.next)
    && (forall b :: b in r.heads ==> r.heads[b] in r.anc)
    && (forall i :: i in r.mrs ==> r.mrs[i].sha in r.anc && r.mrs[i].target in r.heads && RecordsLanding(r.anc, r.mrs[i]))
  }

  /** `order` lists every MR once, and the commit graph is closed and known. */
  ghost predicate WellFormed(r: Repo) {
    && NoDup(r.order)
    && (forall i :: i in r.order <==> i in r.mrs)
    && IsWired(r)
    && IsGraph(r.anc, r.next)
  }

  /** Only a merged MR records the commits it landed with. */
  predicate RecordsLanding(anc: map<Sha, set<Sha>>, mr: Mr) {
    && (mr.mergeSha.Some? ==> mr.state == Merged && mr.mergeSha.value in anc)
    && (mr.squashSha.Some? ==> mr.state == Merged && mr.squashSha.value in anc)
  }

  /** No commit of the target branch is missing from `sha`. */
  predicate IsRebased(r: Repo, sha: Sha, target: Branch) {
    Reach(r, Head(r, target)) <= Reach(r, sha)
  }

  // --- Writes ---------------------------------------------------------------------------

  /** How GitLab lands a merge request; only a merge commit or a squash commit is recorded. */
  datatype Landing = FastForward | FastForwardSquash | MergeCommit | MergeCommitSquash

  /** `moved` says whether an accepted rebase has already replaced the commit. */
  datatype Write =
    | AddLabel(iid: Iid, tag: Label)
    | RemoveLabel(iid: Iid, tag: Label)
    | Land(iid: Iid, how: Landing)
    | Rebase(iid: Iid, moved: bool)

  function Do(r: Repo, w: Write): Repo {
    if w.iid !in r.mrs then r
    else
      var mr := r.mrs[w.iid];
      match w
      case AddLabel(i, l) => r.(mrs := r.mrs[i := mr.(labels := mr.labels + {l})])
      case RemoveLabel(i, l) => r.(mrs := r.mrs[i := mr.(labels := mr.labels - {l})])
      case Land(i, how) => DoLand(r, i, mr, how)
      case Rebase(i, moved) =>
        if !moved then r
        else
          r.(mrs := r.mrs[i := mr.(sha := r.next)],
             anc := r.anc[r.next := {r.next} + Reach(r, Head(r, mr.target))],
             next := r.next + 1)
  }

  function DoLand(r: Repo, i: Iid, mr: Mr, how: Landing): Repo {
    var head := Reach(r, Head(r, mr.target));
    var n := r.next;
    match how
    case FastForward =>
      r.(mrs := r.mrs[i := mr.(state := Merged)],
         heads := r.heads[mr.target := mr.sha])
    case FastForwardSquash =>
      r.(mrs := r.mrs[i := mr.(state := Merged, squashSha := Some(n))],
         heads := r.heads[mr.target := n],
         anc := r.anc[n := {n} + head],
         next := n + 1)
    case MergeCommit =>
      r.(mrs := r.mrs[i := mr.(state := Merged, mergeSha := Some(n))],
         heads := r.heads[mr.target := n],
         anc := r.anc[n := {n} + head + Reach(r, mr.sha)],
         next := n + 1)
    case MergeCommitSquash =>
      var squashed := {n} + head * Reach(r, mr.sha);
      r.(mrs := r.mrs[i := mr.(state := Merged, squashSha := Some(n), mergeSha := Some(n + 1))],
         heads := r.heads[mr.target := n + 1],
         anc := r.anc[n := squashed][n + 1 := {n + 1} + head + squashed],
         next := n + 2)
  }

  function Play(r: Repo, ws: seq<Write>): Repo
    decreases |ws|
  {
    if ws == [] then r else Play(Do(r, ws[0]), ws[1..])
  }

  /** `q` holds of every write in the state in which that write is made. */
  ghost predicate Each(q: (Repo, Write) -> bool, r: Repo, ws: seq<Write>)
    decreases |ws|
  {
    ws == [] || (q(r, ws[0]) && Each(q, Do(r, ws[0]), ws[1..]))
  }

  lemma {:induction false} PlayConcat(r: Repo, a: seq<Write>, b: seq<Write>)
    ensures Play(r, a + b) == Play(Play(r, a), b)
    decreases |a|
  {
    if a == [] {
      assert a + b == b;
    } else {
      assert (a + b)[1..] == a[1..] + b;
      PlayConcat(Do(r, a[0]), a[1..], b);
    }
  }

  lemma {:induction false} EachConcat(q: (Repo, Write) -> bool, r: Repo, a: seq<Write>, b: seq<Write>)
    requires Each(q, r, a) && Each(q, Play(r, a), b)
    ensures Each(q, r, a + b)
    decreases |a|
  {
    if a == [] {
      assert a + b == b;
    } else {
      assert (a + b)[1..] == a[1..] + b;
      EachConcat(q, Do(r, a[0]), a[1..], b);
    }
  }

  lemma {:induction false} EachAt(q: (Repo, Write) -> bool, r: Repo, ws: seq<Write>, k: nat)
    requires Each(q, r, ws) && k < |ws|
    ensures q(Play(r, ws[..k]), ws[k])
    decreases k
  {
    if k > 0 {
      EachAt(q, Do(r, ws[0]), ws[1..], k - 1);
      assert ws[..k][0] == ws[0] && ws[..k][1..] == ws[1..][..k - 1];
    }
  }

  lemma {:induction false} EachPrefix(q: (Repo, Write) -> bool, r: Repo, ws: seq<Write>, k: nat)
    requires Each(q, r, ws) && k <= |ws|
    ensures Each(q, r, ws[..k])
    decreases k
  {
    if k > 0 {
      EachPrefix(q, Do(r, ws[0]), ws[1..], k - 1);
      assert ws[..k][1..] == ws[1..][..k - 1];
    }
  }

  lemma PlayTwo(r: Repo, a: Write, b: Write)
    ensures Play(r, [a, b]) == Do(Do(r, a), b)
  {
    assert [a, b][1..] == [b];
    assert Play(Do(r, a), [b]) == Do(Do(r, a), b);
  }

  lemma PlayThree(r: Repo, a: Write, b: Write, c: Write)
    ensures Play(r, [a, b, c]) == Do(Do(Do(r, a), b), c)
  {
    assert [a, b, c][1..] == [b, c];
    PlayTwo(Do(r, a), b, c);
  }

  lemma {:induction false} PlayKeys(r: Repo, ws: seq<Write>)
    ensures Play(r, ws).mrs.Keys == r.mrs.Keys
    decreases |ws|
  {
    if ws != [] {
      assert Do(r, ws[0]).mrs.Keys == r.mrs.Keys;
      PlayKeys(Do(r, ws[0]), ws[1..]);
    }
  }

  // --- Frames ---------------------------------------------------------------------------

  /** Nothing but states, commits and non-tenant labels differs, MR by MR. */
  ghost predicate SameShell(r: Repo, r': Repo) {
    && r'.order == r.order && r'.mrs.Keys == r.mrs.Keys
    && (forall i :: i in r.mrs ==>
          && TenantLabels(r'.mrs[i].labels) == TenantLabels(r.mrs[i].labels)
          && r'.mrs[i].target == r.mrs[i].target
          && r'.mrs[i].pipelines == r.mrs[i].pipelines)
  }

  predicate IsOwnLabel(l: Label) {
    l == OmmPending || l == OmmGroupLead || l in ERROR_LABELS
  }

  /** The only labels the integration adds or removes here are its own markers. */
  predicate IsOwnWrite(w: Write) {
    (w.AddLabel? || w.RemoveLabel?) ==> IsOwnLabel(w.tag)
  }

  ghost predicate OwnWrites(ws: seq<Write>) {
    forall w :: w in ws ==> IsOwnWrite(w)
  }

  lemma ShellStep(r: Repo, w: Write)
    requires IsOwnWrite(w)
    ensures SameShell(r, Do(r, w))
  {
    if w.iid in r.mrs {
      var a, b := r.mrs[w.iid].labels, Do(r, w).mrs[w.iid].labels;
      assert TenantLabels(b) == TenantLabels(a);
    }
  }

  lemma {:induction false} PlayShell(r: Repo, ws: seq<Write>)
    requires OwnWrites(ws)
    ensures SameShell(r, Play(r, ws))
    decreases |ws|
  {
    if ws != [] {
      ShellStep(r, ws[0]);
      PlayShell(Do(r, ws[0]), ws[1..]);
    }
  }

  /** A merge request that no write names stays exactly as it was. */
  lemma {:induction false} PlayLeaves(r: Repo, ws: seq<Write>, i: Iid)
    requires i in r.mrs && forall w :: w in ws ==> w.iid != i
    ensures i in Play(r, ws).mrs && Play(r, ws).mrs[i] == r.mrs[i]
    decreases |ws|
  {
    if ws != [] {
      PlayLeaves(Do(r, ws[0]), ws[1..], i);
    }
  }

  /** A state grows into another one: old commits keep their history. */
  ghost predicate Extends(r: Repo, r': Repo) {
    && r.next <= r'.next
    && (forall c :: c in r.anc ==> c in r'.anc && r'.anc[c] == r.anc[c])
  }

  lemma NewCommit(anc: map<Sha, set<Sha>>, next: Sha, s: set<Sha>)
    requires IsGraph(anc, next) && IsClosed(anc, s)
    ensures IsGraph(anc[next := {next} + s], next + 1)
    ensures IsClosed(anc[next := {next} + s], {next} + s)
  {
    var anc' := anc[next := {next} + s];
    forall c | c in anc' ensures c < next + 1 && c in anc'[c] && IsClosed(anc', anc'[c]) {
      if c != next { StaysClosed(anc, next, {next} + s, anc[c]); }
    }
  }

  lemma StaysClosed(anc: map<Sha, set<Sha>>, next: Sha, h: set<Sha>, t: set<Sha>)
    requires IsGraph(anc, next) && IsClosed(anc, t)
    ensures IsClosed(anc[next := h], t)
  {
    assert next !in t;
  }

  lemma SquashThenMerge(anc: map<Sha, set<Sha>>, n: Sha, head: set<Sha>, tip: set<Sha>)
    requires IsGraph(anc, n) && IsClosed(anc, head) && IsClosed(anc, tip)
    ensures IsGraph(anc[n := {n} + head * tip][n + 1 := {n + 1} + head + ({n} + head * tip)], n + 2)
  {
    var squashed := {n} + head * tip;
    var anc1 := anc[n := squashed];
    NewCommit(anc, n, head * tip);
    StaysClosed(anc, n, squashed, head);
    assert IsClosed(anc1, head + squashed);
    NewCommit(anc1, n + 1, head + squashed);
    assert {n + 1} + (head + squashed) == {n + 1} + head + squashed;
  }

  /** A graph that keeps every old commit's history and numbers no commit twice. */
  ghost predicate IsGrowth(r: Repo, anc: map<Sha, set<Sha>>, next: Sha) {
    && IsGraph(anc, next) && r.next <= next
    && (forall c :: c in r.anc ==> c in anc && anc[c] == r.anc[c])
  }

  /** Replacing one MR record, one HEAD and a grown graph keeps the state well formed. */
  lemma WellFormedUpdate(r: Repo, r': Repo, i: Iid, mr: Mr, head: Sha)
    requires WellFormed(r) && i in r.mrs && mr.target in r.heads && RecordsLanding(r'.anc, mr)
    requires r'.order == r.order && r'.mrs == r.mrs[i := mr] && r'.heads == r.heads[mr.target := head]
    requires IsGrowth(r, r'.anc, r'.next) && mr.sha in r'.anc && head in r'.anc
    ensures WellFormed(r') && Extends(r, r')
  {
  }

  lemma GrowthOnLand(r: Repo, i: Iid, how: Landing)
    requires WellFormed(r) && i in r.mrs
    ensures var r' := DoLand(r, i, r.mrs[i], how); IsGrowth(r, r'.anc, r'.next)
  {
    var n := r.next;
    var head, tip := Reach(r, Head(r, r.mrs[i].target)), Reach(r, r.mrs[i].sha);
    match how
    case FastForward =>
    case FastForwardSquash => NewCommit(r.anc, n, head);
    case MergeCommit =>
      NewCommit(r.anc, n, head + tip);
      assert {n} + (head + tip) == {n} + head + tip;
    case MergeCommitSquash => SquashThenMerge(r.anc, n, head, tip);
  }

  lemma WellFormedLand(r: Repo, i: Iid, how: Landing)
    requires WellFormed(r) && i in r.mrs
    ensures WellFormed(DoLand(r, i, r.mrs[i], how)) && Extends(r, DoLand(r, i, r.mrs[i], how))
  {
    GrowthOnLand(r, i, how);
    var r' := DoLand(r, i, r.mrs[i], how);
    WellFormedUpdate(r, r', i, r'.mrs[i], r'.heads[r.mrs[i].target]);
  }

  lemma WellFormedStep(r: Repo, w: Write)
    requires WellFormed(r)
    ensures WellFormed(Do(r, w)) && Extends(r, Do(r, w))
  {
    if w.iid in r.mrs {
      var i := w.iid;
      if w.Land? {
        WellFormedLand(r, i, w.how);
      } else {
        if w.Rebase? && w.moved { NewCommit(r.anc, r.next, Reach(r, Head(r, r.mrs[i].target))); }
        var r', b := Do(r, w), r.mrs[i].target;
        assert r'.heads == r.heads[b := r.heads[b]];
        WellFormedUpdate(r, r', i, r'.mrs[i], r.heads[b]);
      }
    }
  }

  lemma {:induction false} WellFormedPlay(r: Repo, ws: seq<Write>)
    requires WellFormed(r)
    ensures WellFormed(Play(r, ws)) && Extends(r, Play(r, ws))
    decreases |ws|
  {
    if ws != [] {
      WellFormedStep(r, ws[0]);
      WellFormedPlay(Do(r, ws[0]), ws[1..]);
    }
  }

  // --- Listings -------------------------------------------------------------------------

  predicate Matches(r: Repo, i: Iid, st: MrState, l: Label) {
    i in r.mrs && r.mrs[i].state == st && l in r.mrs[i].labels
  }

  function Select(r: Repo, ids: seq<Iid>, st: MrState, l: Label): (s: seq<Iid>)
    ensures forall i :: i in s <==> i in ids && Matches(r, i, st, l)
  {
    if ids == [] then []
    else
      var rest := Select(r, ids[1..], st, l);
      if Matches(r, ids[0], st, l) then [ids[0]] + rest else rest
  }

  /** All merge requests in state `st` carrying label `l`, in listing order. */
  function Listing(r: Repo, st: MrState, l: Label): seq<Iid> {
    Select(r, r.order, st, l)
  }

  lemma {:induction false} SelectNoDup(r: Repo, ids: seq<Iid>, st: MrState, l: Label)
    requires NoDup(ids)
    ensures NoDup(Select(r, ids, st, l))
  {
    if ids != [] {
      SelectNoDup(r, ids[1..], st, l);
      assert ids[0] !in ids[1..];
    }
  }
}
