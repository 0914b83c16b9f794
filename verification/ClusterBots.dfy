/** Entry processing of `openshift_cluster_bots` as it runs: ordered writes to the cluster and to
    Vault, and the merge of the results into the declared lists. */
module ClusterBots {
  import opened Common
  import opened BotTokens

  /** The cluster and Vault behind their clients; `log` records the calls. */
  class Clients {
    var world: World
    ghost var log: seq<Call>

    constructor (w: World)
      ensures world == w && log == []
    {
      world := w;
      log := [];
    }

    method Perform(c: Call)
      modifies this
      ensures world == Do(old(world), c) && log == old(log) + [c]
    {
      world := Do(world, c);
      log := log + [c];
    }
  }

  ghost predicate Made(w: World, l: seq<Call>, w': World, l': seq<Call>, calls: seq<Call>) {
    w' == Play(w, calls) && l' == l + calls
  }

  lemma Then(w: World, l: seq<Call>, w1: World, l1: seq<Call>, w2: World, l2: seq<Call>, a: seq<Call>, b: seq<Call>)
    requires Made(w, l, w1, l1, a) && Made(w1, l1, w2, l2, b)
    ensures Made(w, l, w2, l2, a + b)
  {
    PlayConcat(w, a, b);
    assert l + a + b == l + (a + b);
  }

  lemma PlayOne(w: World, c: Call)
    ensures Play(w, [c]) == Do(w, c)
  {
    assert [c][1..] == [];
  }

  /** `_process_delete_entry` */
  method ProcessDeleteEntry(k: Clients, entry: Entry, c: Config) returns (r: Result)
    modifies k
    ensures var o := ProcessDelete(old(k.world), entry, c); Made(old(k.world), old(k.log), k.world, k.log, o.calls) && o.result == Some(r)
  {
    ghost var a: seq<Call> := [];
    if entry.key in k.world.secrets {
      if !IsManaged(k.world.secrets[entry.key], AccountFor(c, entry.admin)) {
        return Result(entry, None, Skipped);
      }
      if !c.dry {
        PlayOne(k.world, DeleteSecret(entry.key));
        a := [DeleteSecret(entry.key)];
        k.Perform(DeleteSecret(entry.key));
      }
    }
    ghost var w1, l1, b := k.world, k.log, [];
    if entry.secret.Some? {
      if !c.dry {
        PlayOne(k.world, DeleteVault(entry.secret.value));
        b := [DeleteVault(entry.secret.value)];
        k.Perform(DeleteVault(entry.secret.value));
      }
    }
    Then(old(k.world), old(k.log), w1, l1, k.world, k.log, a, b);
    return Result(entry, None, Deleted);
  }

  /** A secret that is not there yet: create it, wait for its token, hand it to Vault, annotate. */
  method CreateEntry(k: Clients, entry: Entry, account: string, mint: Key -> Token)
    modifies k
    ensures Made(old(k.world), old(k.log), k.world, k.log,
                 [ApplySecret(entry.key, account), MintToken(entry.key, mint(entry.key)),
                  WriteVault(EntryPath(entry.key), mint(entry.key)), Annotate(entry.key, EntryPath(entry.key))])
  {
    var calls := [ApplySecret(entry.key, account), MintToken(entry.key, mint(entry.key)),
                  WriteVault(EntryPath(entry.key), mint(entry.key)), Annotate(entry.key, EntryPath(entry.key))];
    for i := 0 to |calls|
      invariant Made(old(k.world), old(k.log), k.world, k.log, calls[..i])
    {
      ghost var w1, l1 := k.world, k.log;
      PlayOne(k.world, calls[i]);
      k.Perform(calls[i]);
      Then(old(k.world), old(k.log), w1, l1, k.world, k.log, calls[..i], [calls[i]]);
      assert calls[..i] + [calls[i]] == calls[..i + 1];
    }
    assert calls[..|calls|] == calls;
  }

  /** `_process_create_entry`; no result when the token of an existing secret is not there yet. */
  method ProcessCreateEntry(k: Clients, entry: Entry, c: Config, mint: Key -> Token) returns (r: Option<Result>)
    modifies k
    ensures var o := ProcessCreate(old(k.world), entry, c, mint); Made(old(k.world), old(k.log), k.world, k.log, o.calls) && o.result == r
  {
    var path := EntryPath(entry.key);
    if entry.key !in k.world.secrets {
      if c.dry { return Some(Result(entry, None, Skipped)); }
      CreateEntry(k, entry, AccountFor(c, entry.admin), mint);
      return Some(Result(entry, Some(path), Created));
    }
    var existing := k.world.secrets[entry.key];
    if !IsManaged(existing, AccountFor(c, entry.admin)) { return Some(Result(entry, None, Skipped)); }
    if entry.secret.Some? && existing.vaultPath == Some(path) { return Some(Result(entry, None, Skipped)); }
    if c.dry { return Some(Result(entry, None, Skipped)); }
    if existing.token == None { return None; }
    PlayOne(k.world, WriteVault(path, existing.token.value));
    k.Perform(WriteVault(path, existing.token.value));
    ghost var w1, l1, b := k.world, k.log, [];
    if existing.vaultPath != Some(path) {
      PlayOne(k.world, Annotate(entry.key, path));
      b := [Annotate(entry.key, path)];
      k.Perform(Annotate(entry.key, path));
    }
    Then(old(k.world), old(k.log), w1, l1, k.world, k.log, [WriteVault(path, existing.token.value)], b);
    return Some(Result(entry, Some(path), Synced));
  }

  /** `process_entry` */
  method ProcessEntry(k: Clients, entry: Entry, c: Config, mint: Key -> Token) returns (r: Option<Result>)
    modifies k
    ensures var o := Process(old(k.world), entry, c, mint); Made(old(k.world), old(k.log), k.world, k.log, o.calls) && o.result == r
  {
    if entry.delete {
      var deleted := ProcessDeleteEntry(k, entry, c);
      return Some(deleted);
    }
    r := ProcessCreateEntry(k, entry, c, mint);
  }

  /** What has been done so far, followed by `rest`, is the whole run `o`. */
  ghost predicate Splits(o: RunOutcome, calls: seq<Call>, results: seq<Result>, rest: RunOutcome) {
    o == RunOutcome(calls + rest.calls, results + rest.results, rest.ok)
  }

  lemma SplitsMore(o: RunOutcome, calls: seq<Call>, results: seq<Result>, w: World, entries: seq<Entry>, c: Config, mint: Key -> Token)
    requires entries != [] && Splits(o, calls, results, ProcessAll(w, entries, c, mint))
    ensures var p := Process(w, entries[0], c, mint);
            if p.result.None? then o == RunOutcome(calls + p.calls, results, false)
            else Splits(o, calls + p.calls, results + [p.result.value], ProcessAll(Play(w, p.calls), entries[1..], c, mint))
  {
    var p := Process(w, entries[0], c, mint);
    if p.result.Some? {
      var rest := ProcessAll(Play(w, p.calls), entries[1..], c, mint);
      assert calls + (p.calls + rest.calls) == (calls + p.calls) + rest.calls;
      assert results + ([p.result.value] + rest.results) == (results + [p.result.value]) + rest.results;
    } else {
      assert results + [] == results;
    }
  }

  /** `process_cluster_entries` over the entries of both lists. */
  method ProcessClusterEntries(k: Clients, entries: seq<Entry>, c: Config, mint: Key -> Token) returns (results: seq<Result>, ok: bool)
    modifies k
    ensures var o := ProcessAll(old(k.world), entries, c, mint);
            Made(old(k.world), old(k.log), k.world, k.log, o.calls) && results == o.results && ok == o.ok
  {
    results := [];
    ghost var calls: seq<Call> := [];
    ghost var o := ProcessAll(k.world, entries, c, mint);
    for i := 0 to |entries|
      invariant Made(old(k.world), old(k.log), k.world, k.log, calls)
      invariant Splits(o, calls, results, ProcessAll(k.world, entries[i..], c, mint))
    {
      assert entries[i..][0] == entries[i] && entries[i..][1..] == entries[i + 1..];
      SplitsMore(o, calls, results, k.world, entries[i..], c, mint);
      ghost var w1, l1 := k.world, k.log;
      var r := ProcessEntry(k, entries[i], c, mint);
      Then(old(k.world), old(k.log), w1, l1, k.world, k.log, calls, Process(w1, entries[i], c, mint).calls);
      calls := calls + Process(w1, entries[i], c, mint).calls;
      if r == None { return results, false; }
      results := results + [r.value];
    }
    assert entries[|entries|..] == [] && calls + [] == calls && results + [] == results;
    ok := true;
  }

  predicate IsUpdate(r: Result) {
    r.vaultSecret.Some? || r.action == Deleted
  }

  ghost predicate IsDeleted(results: seq<Result>, k: Key) {
    exists j :: 0 <= j < |results| && results[j].entry.key == k && results[j].action == Deleted
  }

  ghost predicate HasUpdate(results: seq<Result>) {
    exists j :: 0 <= j < |results| && IsUpdate(results[j])
  }

  lemma OneMoreResult(results: seq<Result>, r: Result, k: Key)
    ensures IsDeleted(results + [r], k) <==> IsDeleted(results, k) || (r.entry.key == k && r.action == Deleted)
    ensures HasUpdate(results + [r]) <==> HasUpdate(results) || IsUpdate(r)
  {
    var all := results + [r];
    assert all[|results|] == r;
    if IsDeleted(results, k) {
      var j :| 0 <= j < |results| && results[j].entry.key == k && results[j].action == Deleted;
      assert all[j] == results[j];
    }
    if HasUpdate(results) {
      var j :| 0 <= j < |results| && IsUpdate(results[j]);
      assert all[j] == results[j];
    }
  }

  /** The entry is to be deleted, or its secret has not been handed over yet. */
  ghost predicate IsOpen(w: World, e: Entry) {
    e.delete || !(e.secret.Some? && e.key in w.secrets && w.secrets[e.key].vaultPath.Some?)
  }

  /** After a whole run there is something to merge if and only if some entry was open and its key did not
      collide. */
  lemma UpdateIff(w: World, entries: seq<Entry>, c: Config, mint: Key -> Token)
    requires Backed(w) && OwnRefs(entries) && DistinctKeys(entries) && !c.dry && ProcessAll(w, entries, c, mint).ok
    ensures HasUpdate(ProcessAll(w, entries, c, mint).results) <==> exists e :: e in entries && IsOpen(w, e) && !Collides(w, e, c)
  {
    var results := ProcessAll(w, entries, c, mint).results;
    forall i | 0 <= i < |entries| ensures |results| == |entries| && (IsUpdate(results[i]) <==> IsOpen(w, entries[i]) && !Collides(w, entries[i], c)) {
      EveryEntryDone(w, entries, c, mint, i);
    }
    ResultsMatch(w, entries, c, mint);
    if HasUpdate(results) {
      var i :| 0 <= i < |results| && IsUpdate(results[i]);
      assert entries[i] in entries;
    }
    if e :| e in entries && IsOpen(w, e) && !Collides(w, e, c) {
      var i :| 0 <= i < |entries| && entries[i] == e;
      assert IsUpdate(results[i]);
    }
  }

  /** The two dictionaries of `_merge_entry_updates`. */
  method CollectUpdates(results: seq<Result>) returns (updates: map<Key, Path>, deleted: set<Key>)
    ensures updates == Latest(results) && (forall k :: k in deleted <==> IsDeleted(results, k))
    ensures (updates == map[] && deleted == {}) <==> !HasUpdate(results)
  {
    updates, deleted := map[], {};
    for i := 0 to |results|
      invariant updates == Latest(results[..i]) && (forall k :: k in deleted <==> IsDeleted(results[..i], k))
      invariant (updates == map[] && deleted == {}) <==> !HasUpdate(results[..i])
    {
      var r := results[i];
      assert results[..i + 1] == results[..i] + [r] && results[..i + 1][..i] == results[..i];
      forall k ensures IsDeleted(results[..i + 1], k) <==> IsDeleted(results[..i], k) || (r.entry.key == k && r.action == Deleted) {
        OneMoreResult(results[..i], r, k);
      }
      OneMoreResult(results[..i], r, r.entry.key);
      if r.vaultSecret.Some? {
        updates := updates[r.entry.key := r.vaultSecret.value];
        assert r.entry.key in updates;
      }
      if r.action == Deleted { deleted := deleted + {r.entry.key}; }
    }
    assert results[..|results|] == results;
  }

  /** `_merge_entry_updates`: no list at all when there is nothing to merge. */
  method MergeEntryUpdates(existing: seq<Entry>, results: seq<Result>) returns (merged: Option<seq<Entry>>)
    ensures merged == None <==> !HasUpdate(results)
    ensures merged.Some? ==> merged.value == Merge(existing, results)
  {
    var updates, deleted := CollectUpdates(results);
    if updates == map[] && deleted == {} { return None; }
    var list: seq<Entry> := [];
    for i := 0 to |existing|
      invariant Merge(existing, results) == list + Merge(existing[i..], results)
    {
      var e := existing[i];
      assert existing[i..][0] == e && existing[i..][1..] == existing[i + 1..];
      LatestIs(e, results);
      var mine: seq<Entry> := [];
      if e.key !in deleted {
        mine := [if e.key in updates then e.(secret := Some(updates[e.key])) else e];
      }
      assert mine == MergeOne(e, results) by { assert IsDeleted(results, e.key) <==> e.key in deleted; }
      assert list + (mine + Merge(existing[i + 1..], results)) == (list + mine) + Merge(existing[i + 1..], results);
      list := list + mine;
    }
    assert existing[|existing|..] == [] && list + [] == list;
    return Some(list);
  }

  /** The dictionary of references by key; the last result wins. */
  ghost function Latest(results: seq<Result>): map<Key, Path> {
    if results == [] then map[]
    else
      var n := |results| - 1;
      if results[n].vaultSecret.Some? then Latest(results[..n])[results[n].entry.key := results[n].vaultSecret.value] else Latest(results[..n])
  }

  lemma {:induction false} LatestIs(e: Entry, results: seq<Result>)
    ensures Updated(e, results) == if e.key in Latest(results) then e.(secret := Some(Latest(results)[e.key])) else e
    decreases |results|
  {
    if results != [] { LatestIs(e, results[..|results| - 1]); }
  }
}
