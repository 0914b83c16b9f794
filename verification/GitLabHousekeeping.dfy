/** The merge loop of `gitlab_housekeeping` as it runs: loops over merge requests that read the
    project through its API and change labels, rebase and merge one call at a time.  Each method
    is proved to make exactly the writes that module MergeQueue assigns to it. */
module GitLabHousekeeping {
  import opened Common
  import opened GitLabRepo
  import opened MergeQueue

  /** The project behind the API client; `log` records the writes made through it. */
  class GitLabApi {
    var repo: Repo
    ghost var log: seq<Write>

    constructor (r: Repo)
      ensures repo == r && log == []
    {
      repo := r;
      log := [];
    }

    method Write(w: Write)
      modifies this
      ensures repo == Do(old(repo), w) && Wrote(old(repo), old(log), repo, log, [w])
    {
      repo := Do(repo, w);
      log := log + [w];
    }

    method List(st: MrState, l: Label) returns (ids: seq<Iid>)
      ensures ids == Listing(repo, st, l)
    {
      ids := [];
      var order := repo.order;
      for k := 0 to |order|
        invariant Select(repo, order, st, l) == ids + Select(repo, order[k..], st, l)
      {
        assert order[k..][0] == order[k] && order[k..][1..] == order[k + 1..];
        var mine := if Matches(repo, order[k], st, l) then [order[k]] else [];
        Regroup(ids, mine, Select(repo, order[k + 1..], st, l));
        ids := ids + mine;
      }
      assert order[|order|..] == [] && ids + [] == ids;
    }

    method GetOmmGroupLead() returns (lead: Option<Iid>)
      ensures lead == FindLead(repo)
    {
      var mrs := List(Merged, OmmGroupLead);
      lead := if mrs == [] then None else Some(mrs[0]);
    }

    /** `_form_omm_group` */
    method FormOmmGroup(queue: seq<Item>, mergedLabels: set<Label>) returns (candidates: seq<Iid>)
      ensures candidates == Iids(Form(repo, queue, mergedLabels))
    {
      candidates := [];
      var groupLabels := mergedLabels;
      for k := 0 to |queue|
        invariant Iids(Form(repo, queue, mergedLabels)) == candidates + Iids(Form(repo, queue[k..], groupLabels))
      {
        var it := queue[k];
        assert queue[k..][0] == it && queue[k..][1..] == queue[k + 1..];
        FormStep(repo, queue[k..], groupLabels);
        if it.error { continue; }
        var labels := TenantLabels(it.labels);
        if labels == {} { continue; }
        if labels * groupLabels != {} { continue; }
        var pipelines := NonSkipped(PipelinesOf(repo, it.iid));
        if pipelines == [] { continue; }
        if pipelines[0].status != Running && pipelines[0].status != Pending && pipelines[0].status != Success { continue; }
        Regroup(candidates, [it.iid], Iids(Form(repo, queue[k + 1..], groupLabels + labels)));
        candidates := candidates + [it.iid];
        groupLabels := groupLabels + labels;
      }
      assert queue[|queue|..] == [] && candidates + [] == candidates;
    }

    /** `apply_omm_pending` */
    method ApplyOmmPending(dry: bool, mrs: seq<Iid>, a: Answers) returns (retained: seq<Iid>)
      modifies this
      ensures Wrote(old(repo), old(log), repo, log, Emit(dry, Enlist(a, mrs)))
      ensures retained == Retained(a, dry, mrs)
    {
      retained := [];
      ghost var ws: seq<Write> := [];
      for k := 0 to |mrs|
        invariant Wrote(old(repo), old(log), repo, log, ws)
        invariant Emit(dry, Enlist(a, mrs)) == ws + Emit(dry, Enlist(a, mrs[k..]))
        invariant Retained(a, dry, mrs) == retained + Retained(a, dry, mrs[k..])
      {
        EnlistStep(a, dry, mrs, k);
        if !dry {
          ghost var r1, l1 := repo, log;
          var ok := EnlistMr(mrs[k], a);
          Then(old(repo), old(log), r1, l1, repo, log, ws, EnlistOne(a, mrs[k]));
          Regroup(ws, EnlistOne(a, mrs[k]), Enlist(a, mrs[k + 1..]));
          ws := ws + EnlistOne(a, mrs[k]);
          if !ok { continue; }
        }
        retained := retained + [mrs[k]];
      }
      assert mrs[|mrs|..] == [] && ws + [] == ws && retained + [] == retained;
    }

    /** Label one candidate and rebase it; a conflict swaps the label for an error label. */
    method EnlistMr(mr: Iid, a: Answers) returns (ok: bool)
      modifies this
      ensures Wrote(old(repo), old(log), repo, log, EnlistOne(a, mr))
      ensures ok == a.rebase(mr).Accepted?
    {
      Write(AddLabel(mr, OmmPending));
      match a.rebase(mr) {
        case Conflict =>
          Write(RemoveLabel(mr, OmmPending));
          Write(AddLabel(mr, RebaseError));
          PlayThree(old(repo), AddLabel(mr, OmmPending), RemoveLabel(mr, OmmPending), AddLabel(mr, RebaseError));
          return false;
        case Accepted(moved) =>
          Write(Rebase(mr, moved));
          PlayTwo(old(repo), AddLabel(mr, OmmPending), Rebase(mr, moved));
          return true;
      }
    }

    /** A label-removing loop of `clear_omm_group`. */
    method ClearPending(dry: bool, mrs: seq<Iid>)
      modifies this
      ensures Wrote(old(repo), old(log), repo, log, Emit(dry, Unpend(mrs)))
    {
      ghost var ws: seq<Write> := [];
      for k := 0 to |mrs|
        invariant Wrote(old(repo), old(log), repo, log, ws)
        invariant Emit(dry, Unpend(mrs)) == ws + Emit(dry, Unpend(mrs[k..]))
      {
        assert mrs[k..][0] == mrs[k] && mrs[k..][1..] == mrs[k + 1..];
        if !dry {
          ghost var r1, l1 := repo, log;
          Write(RemoveLabel(mrs[k], OmmPending));
          Then(old(repo), old(log), r1, l1, repo, log, ws, [RemoveLabel(mrs[k], OmmPending)]);
          ws := ws + [RemoveLabel(mrs[k], OmmPending)];
        }
      }
      assert mrs[|mrs|..] == [] && ws + [] == ws;
    }

    /** The open, closed and merged carriers of the pending label, in this order. */
    method ClearPendingEverywhere(dry: bool, open: seq<Iid>)
      modifies this
      ensures Wrote(old(repo), old(log), repo, log, Emit(dry, UnpendEverywhere(old(repo), open)))
    {
      ClearPending(dry, open);
      ghost var r1, l1 := repo, log;
      var closed := List(Closed, OmmPending);
      ClearPending(dry, closed);
      ghost var r2, l2 := repo, log;
      var merged := List(Merged, OmmPending);
      ClearPending(dry, merged);
      Then(r1, l1, r2, l2, repo, log, Emit(dry, Unpend(closed)), Emit(dry, Unpend(merged)));
      Then(old(repo), old(log), r1, l1, repo, log, Emit(dry, Unpend(open)), Emit(dry, Unpend(closed)) + Emit(dry, Unpend(merged)));
    }

    /** `clear_omm_group` */
    method ClearOmmGroup(dry: bool, lead: Option<Iid>, pending: Option<seq<Iid>>)
      modifies this
      ensures Wrote(old(repo), old(log), repo, log, Emit(dry, Clear(old(repo), lead, pending)))
    {
      var known := lead;
      if known == None { known := GetOmmGroupLead(); }
      ghost var w := Emit(dry, Dethrone(repo, lead));
      if known.Some? {
        if !dry { Write(RemoveLabel(known.value, OmmGroupLead)); }
      }
      ghost var r1, l1 := repo, log;
      assert Wrote(old(repo), old(log), r1, l1, w);
      var open;
      if pending.Some? { open := pending.value; } else { open := List(Opened, OmmPending); }
      ClearPendingEverywhere(dry, open);
      Then(old(repo), old(log), r1, l1, repo, log, w, Emit(dry, UnpendEverywhere(r1, open)));
    }

    /** `_process_omm_member` */
    method ProcessOmmMember(dry: bool, mr: Iid, a: Answers) returns (merged: bool, active: bool)
      modifies this
      ensures Wrote(old(repo), old(log), repo, log, Member(old(repo), mr, a, dry).writes)
      ensures merged == Member(old(repo), mr, a, dry).merged && active == Member(old(repo), mr, a, dry).active
    {
      var labels := LabelsOf(repo, mr);
      if labels * ERROR_LABELS != {} {
        if !dry { Write(RemoveLabel(mr, OmmPending)); }
        return false, false;
      }
      if labels * HOLD_LABELS != {} {
        if !dry { Write(RemoveLabel(mr, OmmPending)); }
        return false, false;
      }
      var pipelines := Signal(PipelinesOf(repo, mr));
      if a.missing(mr) {
        if !dry { Write(RemoveLabel(mr, OmmPending)); }
        return false, false;
      }
      var rebased := IsRebased(repo, ShaOf(repo, mr), TargetOf(repo, mr));
      if pipelines == [] {
        return false, rebased;
      }
      var latest := pipelines[0].status;
      if latest == Failed || latest == Canceled {
        if !dry { Write(RemoveLabel(mr, OmmPending)); }
        return false, false;
      }
      if latest == Running || latest == Pending {
        return false, true;
      }
      if latest != Success {
        return false, rebased;
      }
      if rebased {
        if !dry {
          match a.land(mr) {
            case Refused =>
              Write(AddLabel(mr, MergeError));
              return false, false;
            case Landed(how) =>
              Write(Land(mr, how));
          }
        }
        return true, false;
      }
      if !dry {
        match a.rebase(mr) {
          case Conflict =>
            Write(RemoveLabel(mr, OmmPending));
            return false, false;
          case Accepted(moved) =>
            Write(Rebase(mr, moved));
        }
      }
      return false, true;
    }

    /** The recorded merge and squash commits of merged members on branch `b`. */
    method MergedOmmCommits(b: Branch) returns (shas: set<Sha>)
      requires WellFormed(repo)
      ensures forall c :: c in shas <==> IsMemberCommit(repo, b, c)
    {
      var mergedOmm := List(Merged, OmmPending);
      shas := {};
      for k := 0 to |mergedOmm|
        invariant forall c :: c in shas <==> LandedAmong(repo, mergedOmm[..k], b, c)
      {
        var mr := repo.mrs[mergedOmm[k]];
        var more := {};
        if mr.target == b {
          if mr.mergeSha.Some? { more := more + {mr.mergeSha.value}; }
          if mr.squashSha.Some? { more := more + {mr.squashSha.value}; }
        }
        assert forall c :: c in more <==> HasCommit(repo, mergedOmm[k], b, c);
        forall c ensures LandedAmong(repo, mergedOmm[..k + 1], b, c) <==> LandedAmong(repo, mergedOmm[..k], b, c) || c in more {
          LandedOneMore(repo, mergedOmm, k, b, c);
        }
        shas := shas + more;
      }
      assert mergedOmm[..|mergedOmm|] == mergedOmm;
      forall c ensures c in shas <==> IsMemberCommit(repo, b, c) { KnownCommits(repo, mergedOmm, b, c); }
    }

    /** `_check_target_branch_integrity`: HEAD is the lead's commit, or descends from it and is the
        recorded commit of a merged member. */
    method CheckTargetBranchIntegrity(lead: Iid, leadSha: Sha) returns (ok: bool)
      requires WellFormed(repo)
      ensures ok <==>
        var b := TargetOf(repo, lead);
        Head(repo, b) == leadSha || (Reach(repo, leadSha) <= Reach(repo, Head(repo, b)) && IsMemberCommit(repo, b, Head(repo, b)))
    {
      var b := TargetOf(repo, lead);
      var head := Head(repo, b);
      if head == leadSha { return true; }
      if !(Reach(repo, leadSha) <= Reach(repo, head)) { return false; }
      var shas := MergedOmmCommits(b);
      return head in shas;
    }

    /** The ejection loop of `_process_omm_group`. */
    method EjectOverlapping(dry: bool, lead: Iid, pending: seq<Iid>) returns (kept: seq<Iid>)
      modifies this
      ensures kept == Keep(old(repo), pending, TenantsOf(old(repo), lead))
      ensures var w := Emit(dry, Unpend(Overlapping(old(repo), pending, TenantsOf(old(repo), lead))));
              Wrote(old(repo), old(log), repo, log, w)
    {
      var seen := TenantsOf(repo, lead);
      ghost var ws: seq<Write> := [];
      kept := [];
      for k := 0 to |pending|
        invariant Wrote(old(repo), old(log), repo, log, ws)
        invariant forall i :: TenantsOf(repo, i) == TenantsOf(old(repo), i)
        invariant Keep(old(repo), pending, TenantsOf(old(repo), lead)) == kept + Keep(old(repo), pending[k..], seen)
        invariant Emit(dry, Unpend(Overlapping(old(repo), pending, TenantsOf(old(repo), lead))))
          == ws + Emit(dry, Unpend(Overlapping(old(repo), pending[k..], seen)))
      {
        var mr := pending[k];
        EjectStep(old(repo), pending, k, seen);
        var labels := TenantsOf(repo, mr);
        if labels * seen != {} {
          if !dry {
            SameTenantsAfter(repo, mr);
            ghost var r1, l1 := repo, log;
            Write(RemoveLabel(mr, OmmPending));
            Then(old(repo), old(log), r1, l1, repo, log, ws, [RemoveLabel(mr, OmmPending)]);
            Regroup(ws, [RemoveLabel(mr, OmmPending)], Unpend(Overlapping(old(repo), pending[k + 1..], seen)));
            ws := ws + [RemoveLabel(mr, OmmPending)];
          }
          continue;
        }
        Regroup(kept, [mr], Keep(old(repo), pending[k + 1..], seen + labels));
        seen := seen + labels;
        kept := kept + [mr];
      }
      assert pending[|pending|..] == [] && ws + [] == ws && kept + [] == kept;
    }

    /** The member loop of `_process_omm_group`; `capped` when the merge limit ends it. */
    method ProcessMembers(dry: bool, members: seq<Iid>, a: Answers, limit: int)
      returns (merges: nat, active: bool, capped: bool)
      modifies this
      ensures var m := Members(old(repo), members, a, dry, 0, limit);
              && Wrote(old(repo), old(log), repo, log, m.writes)
              && merges == m.merges && capped == m.capped && (!capped ==> active == m.active)
    {
      merges, active, capped := 0, false, false;
      ghost var m := Members(repo, members, a, dry, 0, limit);
      ghost var ws: seq<Write> := [];
      for k := 0 to |members|
        invariant Wrote(old(repo), old(log), repo, log, ws)
        invariant var rest := Members(repo, members[k..], a, dry, merges, limit);
          && m.writes == ws + rest.writes && m.merges == rest.merges
          && m.active == (active || rest.active) && m.capped == rest.capped
      {
        assert members[k..][0] == members[k] && members[k..][1..] == members[k + 1..];
        ghost var r1, l1 := repo, log;
        ghost var w := Member(repo, members[k], a, dry).writes;
        var landed, waiting := ProcessOmmMember(dry, members[k], a);
        Then(old(repo), old(log), r1, l1, repo, log, ws, w);
        if landed {
          merges := merges + 1;
          if merges >= limit {
            return merges, active, true;
          }
        }
        Regroup(ws, w, Members(repo, members[k + 1..], a, dry, merges, limit).writes);
        ws := ws + w;
        active := active || waiting;
      }
      assert members[|members|..] == [] && ws + [] == ws;
    }

    /** The end of `_process_omm_group`: look for newcomers, and close a group that stands still. */
    method ExpandGroup(lead: Iid, kept: seq<Iid>, queue: seq<Item>, a: Answers, c: Config, active: bool)
      modifies this
      ensures Wrote(old(repo), old(log), repo, log, Expand(old(repo), lead, kept, queue, a, c, active))
    {
      var groupLabels := TenantsOf(repo, lead);
      for k := 0 to |kept|
        invariant TenantsOf(repo, lead) + AllTenants(repo, kept) == groupLabels + AllTenants(repo, kept[k..])
      {
        groupLabels := groupLabels + TenantsOf(repo, kept[k]);
      }
      assert groupLabels + AllTenants(repo, kept[|kept|..]) == groupLabels;
      var newCandidates := FormOmmGroup(Without(queue, kept), groupLabels);
      var retained := [];
      if newCandidates != [] {
        retained := ApplyOmmPending(c.dry, newCandidates, a);
      }
      ghost var w := Emit(c.dry, Enlist(a, newCandidates));
      CloseIfStill(lead, c.dry, active || retained != []);
      Then(old(repo), old(log), Play(old(repo), w), old(log) + w, repo, log, w, StandStill(Play(old(repo), w), lead, c.dry, active || retained != []));
    }

    /** Close the group unless it is waiting for something. */
    method CloseIfStill(lead: Iid, dry: bool, active: bool)
      modifies this
      ensures Wrote(old(repo), old(log), repo, log, StandStill(old(repo), lead, dry, active))
    {
      if !active {
        ClearOmmGroup(dry, Some(lead), None);
      }
    }

    /** `_process_omm_group` */
    method ProcessOmmGroup(lead: Iid, queue: seq<Item>, a: Answers, c: Config) returns (merges: nat)
      requires WellFormed(repo)
      modifies this
      ensures Wrote(old(repo), old(log), repo, log, GroupPass(old(repo), lead, queue, a, c).writes)
      ensures merges == GroupPass(old(repo), lead, queue, a, c).merges
    {
      if !c.windowOpen || !c.ciHealthy {
        ClearOmmGroup(c.dry, Some(lead), None);
        return 0;
      }
      var leadSha := LeadSha(repo, lead);
      if leadSha == None {
        return 0;
      }
      var intact := CheckTargetBranchIntegrity(lead, leadSha.value);
      if !intact {
        ClearOmmGroup(c.dry, Some(lead), None);
        return 0;
      }
      var pending := List(Opened, OmmPending);
      if pending == [] {
        ClearOmmGroup(c.dry, Some(lead), Some([]));
        return 0;
      }
      merges := ProcessOpenGroup(lead, pending, queue, a, c);
    }

    /** `_process_omm_group` once the group is known to be healthy and to have members. */
    method ProcessOpenGroup(lead: Iid, pending: seq<Iid>, queue: seq<Item>, a: Answers, c: Config) returns (merges: nat)
      modifies this
      ensures Wrote(old(repo), old(log), repo, log, RunGroup(old(repo), lead, pending, queue, a, c).writes)
      ensures merges == RunGroup(old(repo), lead, pending, queue, a, c).merges
    {
      var kept := EjectOverlapping(c.dry, lead, pending);
      ghost var w1 := Emit(c.dry, Unpend(Overlapping(old(repo), pending, TenantsOf(old(repo), lead))));
      ghost var r1, l1 := repo, log;
      var active, capped;
      merges, active, capped := ProcessMembers(c.dry, kept, a, c.limit);
      ghost var w2 := Members(r1, kept, a, c.dry, 0, c.limit).writes;
      ghost var r2, l2 := repo, log;
      ghost var w3;
      if capped {
        w3 := Close(repo, lead, Some(kept), c.dry);
        ClearOmmGroup(c.dry, Some(lead), Some(kept));
      } else {
        w3 := Expand(repo, lead, kept, queue, a, c, active);
        ExpandGroup(lead, kept, queue, a, c, active);
      }
      Then(r1, l1, r2, l2, repo, log, w2, w3);
      Then(old(repo), old(log), r1, l1, repo, log, w1, w2 + w3);
    }

    /** Merge one MR; a refusal flags it. */
    method MergeMr(dry: bool, mr: Iid, a: Answers) returns (merged: bool)
      modifies this
      ensures Wrote(old(repo), old(log), repo, log, MergeCalls(a, dry, mr))
      ensures merged == (dry || a.land(mr).Landed?)
    {
      if !dry {
        match a.land(mr) {
          case Refused =>
            Write(AddLabel(mr, MergeError));
            return false;
          case Landed(how) =>
            Write(Land(mr, how));
        }
      }
      return true;
    }

    /** The serial loop of `merge_merge_requests`; `insisted` when it gives up to be retried. */
    method MergeSerially(queue: seq<Item>, a: Answers, c: Config) returns (merges: nat, insisted: bool)
      modifies this
      ensures Wrote(old(repo), old(log), repo, log, Serial(old(repo), queue, queue, a, c, 0, {}))
      ensures PassEnd(merges, insisted) == SerialEnd(old(repo), queue, a, c, 0)
    {
      merges, insisted := 0, false;
      var mergedLabels: set<Label> := {};
      ghost var ws: seq<Write> := [];
      for k := 0 to |queue|
        invariant Wrote(old(repo), old(log), repo, log, ws)
        invariant Serial(old(repo), queue, queue, a, c, 0, {})
          == ws + Serial(repo, queue[k..], queue, a, c, merges, mergedLabels)
        invariant SerialEnd(old(repo), queue, a, c, 0) == SerialEnd(repo, queue[k..], a, c, merges) && !insisted
      {
        var it := queue[k];
        assert queue[k..][0] == it && queue[k..][1..] == queue[k + 1..];
        if it.error { continue; }
        if c.rebase && !IsRebased(repo, it.sha, TargetOf(repo, it.iid)) { continue; }
        var pipelines := NonSkipped(PipelinesOf(repo, it.iid));
        if pipelines == [] { continue; }
        if c.wait && HasRunning(PipelinesOf(repo, it.iid)) {
          if c.insist && (merges == 0 || !c.rebase) {
            assert ws + [] == ws;
            return merges, true;
          }
          continue;
        }
        if pipelines[0].status != Success { continue; }
        if merges >= c.limit { continue; }
        ghost var r1, l1 := repo, log;
        ghost var w := MergeCalls(a, c.dry, it.iid);
        var merged := MergeMr(c.dry, it.iid, a);
        Then(old(repo), old(log), r1, l1, repo, log, ws, w);
        if !merged {
          Regroup(ws, w, Serial(repo, queue[k + 1..], queue, a, c, merges, mergedLabels));
          ws := ws + w;
          continue;
        }
        mergedLabels := mergedLabels + TenantLabels(it.labels);
        merges := merges + 1;
        if c.rebase && merges == 1 {
          ghost var r2, l2 := repo, log;
          ghost var w2 := StartGroup(repo, it, queue, mergedLabels, a, c);
          StartOmmGroup(it, queue, mergedLabels, a, c);
          Then(old(repo), old(log), r2, l2, repo, log, ws + w, w2);
          Regroup(ws, w, w2);
          return merges, false;
        }
        Regroup(ws, w, Serial(repo, queue[k + 1..], queue, a, c, merges, mergedLabels));
        ws := ws + w;
      }
      assert queue[|queue|..] == [] && ws + [] == ws;
    }

    /** After a rebasing pass has landed its one MR: make it the lead of a group, if there is one. */
    method StartOmmGroup(it: Item, queue: seq<Item>, mergedLabels: set<Label>, a: Answers, c: Config)
      modifies this
      ensures Wrote(old(repo), old(log), repo, log, StartGroup(old(repo), it, queue, mergedLabels, a, c))
    {
      if c.multi && TenantLabels(it.labels) != {} {
        var candidates := FormOmmGroup(queue, mergedLabels);
        if candidates != [] {
          ghost var w := Emit(c.dry, [AddLabel(it.iid, OmmGroupLead)]);
          if !c.dry { Write(AddLabel(it.iid, OmmGroupLead)); }
          ghost var r1, l1 := repo, log;
          var _ := ApplyOmmPending(c.dry, candidates, a);
          Then(old(repo), old(log), r1, l1, repo, log, w, Emit(c.dry, Enlist(a, candidates)));
        }
      }
    }

    /** `merge_merge_requests`, from the processed queue on. */
    method MergeMergeRequests(queue: seq<Item>, a: Answers, c: Config) returns (merges: nat, insisted: bool)
      requires WellFormed(repo)
      modifies this
      ensures Wrote(old(repo), old(log), repo, log, MergePass(old(repo), queue, a, c))
      ensures PassEnd(merges, insisted) == EndOf(old(repo), queue, a, c)
    {
      var lead := None;
      if c.rebase { lead := GetOmmGroupLead(); }
      if c.rebase && !c.multi && lead.Some? {
        ClearOmmGroup(c.dry, lead, None);
      }
      if c.rebase && c.multi {
        if lead.Some? {
          merges := ProcessOmmGroup(lead.value, queue, a, c);
          return merges, false;
        }
        var pending := List(Opened, OmmPending);
        if pending != [] {
          ClearOmmGroup(c.dry, None, Some(pending));
        }
      }
      ghost var r1, l1 := repo, log;
      assert Wrote(old(repo), old(log), r1, l1, CleanUp(old(repo), c));
      merges, insisted := MergeSerially(queue, a, c);
      Then(old(repo), old(log), r1, l1, repo, log, CleanUp(old(repo), c), Serial(r1, queue, queue, a, c, 0, {}));
    }
  }

  /** The writes `ws` lead from state and log `r, l` to `r', l'`. */
  ghost predicate Wrote(r: Repo, l: seq<Write>, r': Repo, l': seq<Write>, ws: seq<Write>) {
    r' == Play(r, ws) && l' == l + ws
  }

  function MergeCalls(a: Answers, dry: bool, mr: Iid): seq<Write> {
    if dry then []
    else
      match a.land(mr)
      case Refused => [AddLabel(mr, MergeError)]
      case Landed(how) => [Land(mr, how)]
  }

  lemma Then(r: Repo, l: seq<Write>, r1: Repo, l1: seq<Write>, r2: Repo, l2: seq<Write>, a: seq<Write>, b: seq<Write>)
    requires Wrote(r, l, r1, l1, a) && Wrote(r1, l1, r2, l2, b)
    ensures Wrote(r, l, r2, l2, a + b)
  {
    PlayConcat(r, a, b);
    assert l + a + b == l + (a + b);
  }

  lemma EnlistStep(a: Answers, dry: bool, mrs: seq<Iid>, k: nat)
    requires k < |mrs|
    ensures Enlist(a, mrs[k..]) == EnlistOne(a, mrs[k]) + Enlist(a, mrs[k + 1..])
    ensures Retained(a, dry, mrs[k..]) == (if dry || a.rebase(mrs[k]).Accepted? then [mrs[k]] else []) + Retained(a, dry, mrs[k + 1..])
  {
    assert mrs[k..][0] == mrs[k] && mrs[k..][1..] == mrs[k + 1..];
  }

  lemma SameTenantsAfter(r: Repo, mr: Iid)
    ensures forall i :: TenantsOf(Do(r, RemoveLabel(mr, OmmPending)), i) == TenantsOf(r, i)
  {
    ShellStep(r, RemoveLabel(mr, OmmPending));
  }

  lemma EjectStep(r: Repo, ids: seq<Iid>, k: nat, seen: set<Label>)
    requires k < |ids|
    ensures var mine := TenantsOf(r, ids[k]);
            if mine * seen != {} then
              && Keep(r, ids[k..], seen) == Keep(r, ids[k + 1..], seen)
              && Unpend(Overlapping(r, ids[k..], seen)) == [RemoveLabel(ids[k], OmmPending)] + Unpend(Overlapping(r, ids[k + 1..], seen))
            else
              && Keep(r, ids[k..], seen) == [ids[k]] + Keep(r, ids[k + 1..], seen + mine)
              && Unpend(Overlapping(r, ids[k..], seen)) == Unpend(Overlapping(r, ids[k + 1..], seen + mine))
  {
    assert ids[k..][0] == ids[k] && ids[k..][1..] == ids[k + 1..];
    var rest := Overlapping(r, ids[k + 1..], seen);
    assert ([ids[k]] + rest)[1..] == rest;
  }

  lemma FormStep(r: Repo, queue: seq<Item>, taken: set<Label>)
    requires queue != []
    ensures var it := queue[0];
            Iids(Form(r, queue, taken)) ==
              if IsCandidate(r, it) && TenantLabels(it.labels) * taken == {} then
                [it.iid] + Iids(Form(r, queue[1..], taken + TenantLabels(it.labels)))
              else Iids(Form(r, queue[1..], taken))
  {
    var rest := Form(r, queue[1..], taken + TenantLabels(queue[0].labels));
    assert ([queue[0]] + rest)[1..] == rest;
  }

  lemma Regroup<T>(a: seq<T>, b: seq<T>, c: seq<T>)
    ensures a + b + c == a + (b + c)
  {
  }

  /** One of `ids` landed on `b` with recorded commit `c`. */
  ghost predicate LandedAmong(r: Repo, ids: seq<Iid>, b: Branch, c: Sha) {
    exists j :: 0 <= j < |ids| && HasCommit(r, ids[j], b, c)
  }

  lemma LandedOneMore(r: Repo, ids: seq<Iid>, k: nat, b: Branch, c: Sha)
    requires k < |ids|
    ensures LandedAmong(r, ids[..k + 1], b, c) <==> LandedAmong(r, ids[..k], b, c) || HasCommit(r, ids[k], b, c)
  {
    if LandedAmong(r, ids[..k], b, c) {
      var j :| 0 <= j < k && HasCommit(r, ids[..k][j], b, c);
      assert ids[..k + 1][j] == ids[..k][j];
    }
    if HasCommit(r, ids[k], b, c) { assert ids[..k + 1][k] == ids[k]; }
    if LandedAmong(r, ids[..k + 1], b, c) {
      var j :| 0 <= j <= k && HasCommit(r, ids[..k + 1][j], b, c);
      if j < k { assert ids[..k][j] == ids[..k + 1][j]; }
    }
  }

  lemma KnownCommits(r: Repo, ids: seq<Iid>, b: Branch, c: Sha)
    requires WellFormed(r) && ids == Listing(r, Merged, OmmPending)
    ensures IsMemberCommit(r, b, c) <==> LandedAmong(r, ids, b, c)
  {
    if IsMemberCommit(r, b, c) {
      var i :| i in r.mrs && Matches(r, i, Merged, OmmPending) && HasCommit(r, i, b, c);
      assert i in r.order && i in ids;
    }
    if j :| 0 <= j < |ids| && HasCommit(r, ids[j], b, c) {
      assert ids[j] in ids;
    }
  }

  /** `i` lands on `b` with recorded commit `c`. */
  predicate HasCommit(r: Repo, i: Iid, b: Branch, c: Sha) {
    i in r.mrs && r.mrs[i].target == b && (r.mrs[i].mergeSha == Some(c) || r.mrs[i].squashSha == Some(c))
  }
}
