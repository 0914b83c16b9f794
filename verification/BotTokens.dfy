/** Token entries of cluster bots: the calls one run makes on a cluster and on Vault, what holds when
    a run stops between any two of them, and what is left to do after a whole run. */
module BotTokens {
  import opened Common

  datatype Key = Key(namespace: string, name: string)

  type Token = string

  /** `EntryPath(k)` is the Vault path made of the cluster, the namespace and the name of an entry. */
  datatype Path = EntryPath(key: Key) | OtherPath(text: string)

  /** `managed` and `account` are the managed label and the service-account annotation. */
  datatype Secret = Secret(managed: Option<string>, account: Option<string>, vaultPath: Option<Path>, token: Option<Token>)

  datatype World = World(secrets: map<Key, Secret>, vault: map<Path, Token>)

  datatype Entry = Entry(key: Key, admin: bool, delete: bool, secret: Option<Path>)

  /** The names of the two service accounts. */
  datatype Config = Config(dedicated: string, clusterAdmin: string, dry: bool)

  function AccountFor(c: Config, admin: bool): string {
    if admin then c.clusterAdmin else c.dedicated
  }

  /** `is_managed_secret`: by label, or a legacy secret of the service account. */
  predicate IsManaged(s: Secret, account: string) {
    s.managed == Some(account) || s.account == Some(account)
  }

  /** The secret carries, as label or as annotation, the service account its entry is for: the
      cluster-admin one for admin entries, the dedicated one for all others. */
  ghost predicate MarkedFor(s: Secret, e: Entry, c: Config) {
    if e.admin then Some(c.clusterAdmin) in {s.managed, s.account} else Some(c.dedicated) in {s.managed, s.account}
  }

  // --- Calls ----------------------------------------------------------------------------

  /** `MintToken` is the cluster filling in the token of a new secret, which a run waits for. */
  datatype Call =
    | ApplySecret(key: Key, account: string)
    | MintToken(key: Key, token: Token)
    | WriteVault(path: Path, token: Token)
    | Annotate(key: Key, path: Path)
    | DeleteSecret(key: Key)
    | DeleteVault(path: Path)

  function Do(w: World, c: Call): World {
    match c
    case ApplySecret(k, account) => w.(secrets := w.secrets[k := Secret(Some(account), Some(account), None, None)])
    case MintToken(k, t) => if k in w.secrets then w.(secrets := w.secrets[k := w.secrets[k].(token := Some(t))]) else w
    case WriteVault(p, t) => w.(vault := w.vault[p := t])
    case Annotate(k, p) => if k in w.secrets then w.(secrets := w.secrets[k := w.secrets[k].(vaultPath := Some(p))]) else w
    case DeleteSecret(k) => w.(secrets := w.secrets - {k})
    case DeleteVault(p) => w.(vault := w.vault - {p})
  }

  function Play(w: World, calls: seq<Call>): World
    decreases |calls|
  {
    if calls == [] then w else Play(Do(w, calls[0]), calls[1..])
  }

  datatype Action = Created | Synced | Skipped | Deleted

  /** `vaultSecret` is the reference to be merged into the declared entry. */
  datatype Result = Result(entry: Entry, vaultSecret: Option<Path>, action: Action)

  /** `result` is `None` when the token of an existing secret is not there yet, which raises. */
  datatype Outcome = Outcome(calls: seq<Call>, result: Option<Result>)

  function ProcessDelete(w: World, e: Entry, c: Config): Outcome {
    var existing := e.key in w.secrets;
    if existing && !IsManaged(w.secrets[e.key], AccountFor(c, e.admin)) then Outcome([], Some(Result(e, None, Skipped)))
    else
      var a := if existing && !c.dry then [DeleteSecret(e.key)] else [];
      var b := if e.secret.Some? && !c.dry then [DeleteVault(e.secret.value)] else [];
      Outcome(a + b, Some(Result(e, None, Deleted)))
  }

  function ProcessCreate(w: World, e: Entry, c: Config, mint: Key -> Token): Outcome {
    var path, account := EntryPath(e.key), AccountFor(c, e.admin);
    if e.key !in w.secrets then
      if c.dry then Outcome([], Some(Result(e, None, Skipped)))
      else
        Outcome([ApplySecret(e.key, account), MintToken(e.key, mint(e.key)), WriteVault(path, mint(e.key)), Annotate(e.key, path)],
                Some(Result(e, Some(path), Created)))
    else
      var s := w.secrets[e.key];
      if !IsManaged(s, account) || (e.secret.Some? && s.vaultPath == Some(path)) || c.dry then Outcome([], Some(Result(e, None, Skipped)))
      else if s.token.None? then Outcome([], None)
      else
        Outcome([WriteVault(path, s.token.value)] + if s.vaultPath == Some(path) then [] else [Annotate(e.key, path)],
                Some(Result(e, Some(path), Synced)))
  }

  function Process(w: World, e: Entry, c: Config, mint: Key -> Token): Outcome {
    if e.delete then ProcessDelete(w, e, c) else ProcessCreate(w, e, c, mint)
  }

  datatype RunOutcome = RunOutcome(calls: seq<Call>, results: seq<Result>, ok: bool)

  /** `process_cluster_entries`: the entries in order, until one raises. */
  function ProcessAll(w: World, entries: seq<Entry>, c: Config, mint: Key -> Token): RunOutcome
    decreases |entries|
  {
    if entries == [] then RunOutcome([], [], true)
    else
      var o := Process(w, entries[0], c, mint);
      if o.result.None? then RunOutcome(o.calls, [], false)
      else
        var rest := ProcessAll(Play(w, o.calls), entries[1..], c, mint);
        RunOutcome(o.calls + rest.calls, [o.result.value] + rest.results, rest.ok)
  }

  lemma {:induction false} PlayConcat(w: World, a: seq<Call>, b: seq<Call>)
    ensures Play(w, a + b) == Play(Play(w, a), b)
    decreases |a|
  {
    if a == [] {
      assert a + b == b;
    } else {
      assert (a + b)[1..] == a[1..] + b;
      PlayConcat(Do(w, a[0]), a[1..], b);
    }
  }

  // --- The rule of every call -----------------------------------------------------------

  /** A secret annotated with a Vault path carries the path of its own entry, and its token is there. */
  ghost predicate Backed(w: World) {
    forall k :: k in w.secrets && w.secrets[k].vaultPath.Some? ==>
      && w.secrets[k].vaultPath.value == EntryPath(k)
      && EntryPath(k) in w.vault && w.secrets[k].token == Some(w.vault[EntryPath(k)])
  }

  /** A call about key `k` made for an entry with this service account. */
  ghost predicate Legal(w: World, k: Key, account: string, c: Call) {
    match c
    case ApplySecret(x, a) => x == k && k !in w.secrets && a == account
    case MintToken(x, _) => x == k && k in w.secrets && IsManaged(w.secrets[k], account) && w.secrets[k].vaultPath.None?
    case WriteVault(p, t) => p == EntryPath(k) && k in w.secrets && IsManaged(w.secrets[k], account) && w.secrets[k].token == Some(t)
    case Annotate(x, p) =>
      && x == k && p == EntryPath(k) && k in w.secrets && IsManaged(w.secrets[k], account)
      && p in w.vault && w.secrets[k].token == Some(w.vault[p])
    case DeleteSecret(x) => x == k && k in w.secrets && IsManaged(w.secrets[k], account)
    case DeleteVault(p) => p == EntryPath(k) && k !in w.secrets
  }

  ghost predicate AllLegal(w: World, k: Key, account: string, calls: seq<Call>)
    decreases |calls|
  {
    calls == [] || (Legal(w, k, account, calls[0]) && AllLegal(Do(w, calls[0]), k, account, calls[1..]))
  }

  lemma LegalStep(w: World, k: Key, account: string, c: Call)
    requires Legal(w, k, account, c)
    ensures Backed(w) ==> Backed(Do(w, c))
    ensures forall x :: x != k && x in w.secrets ==> x in Do(w, c).secrets && Do(w, c).secrets[x] == w.secrets[x]
    ensures forall x :: x != k && x !in w.secrets ==> x !in Do(w, c).secrets
    ensures forall p :: p != EntryPath(k) ==> (p in Do(w, c).vault <==> p in w.vault) && (p in w.vault ==> Do(w, c).vault[p] == w.vault[p])
  {
  }

  /** Nothing but the secret and the Vault path of key `k` differs. */
  ghost predicate OnlyKey(w: World, w': World, k: Key) {
    && (forall x :: x != k ==> (x in w'.secrets <==> x in w.secrets) && (x in w.secrets ==> w'.secrets[x] == w.secrets[x]))
    && (forall p :: p != EntryPath(k) ==> (p in w'.vault <==> p in w.vault) && (p in w.vault ==> w'.vault[p] == w.vault[p]))
  }

  lemma {:induction false} LegalPlay(w: World, k: Key, account: string, calls: seq<Call>)
    requires AllLegal(w, k, account, calls) && Backed(w)
    ensures Backed(Play(w, calls)) && OnlyKey(w, Play(w, calls), k)
    decreases |calls|
  {
    if calls != [] {
      LegalStep(w, k, account, calls[0]);
      LegalPlay(Do(w, calls[0]), k, account, calls[1..]);
    }
  }

  lemma {:induction false} LegalPrefix(w: World, k: Key, account: string, calls: seq<Call>, n: nat)
    requires AllLegal(w, k, account, calls) && n <= |calls|
    ensures AllLegal(w, k, account, calls[..n])
    decreases n
  {
    if n > 0 {
      assert calls[..n][1..] == calls[1..][..n - 1];
      LegalPrefix(Do(w, calls[0]), k, account, calls[1..], n - 1);
    }
  }

  /** The Vault reference of an entry is the one a merge puts there. */
  ghost predicate OwnRef(e: Entry) {
    e.secret.Some? ==> e.secret.value == EntryPath(e.key)
  }

  lemma ProcessLegal(w: World, e: Entry, c: Config, mint: Key -> Token)
    requires OwnRef(e)
    ensures AllLegal(w, e.key, AccountFor(c, e.admin), Process(w, e, c, mint).calls)
  {
    var calls := Process(w, e, c, mint).calls;
    var account, k := AccountFor(c, e.admin), e.key;
    if |calls| == 1 {
      assert calls == [calls[0]] && calls[1..] == [];
    } else if |calls| == 2 {
      assert calls[1..] == [calls[1]] && calls[1..][1..] == [];
    } else if |calls| == 4 {
      var w1 := Do(w, calls[0]);
      var w2 := Do(w1, calls[1]);
      var w3 := Do(w2, calls[2]);
      assert calls[3..] == [calls[3]] && AllLegal(Do(w3, calls[3]), k, account, []);
      assert AllLegal(w3, k, account, calls[3..]);
      assert calls[2..][1..] == calls[3..] && AllLegal(w2, k, account, calls[2..]);
      assert calls[1..][1..] == calls[2..] && AllLegal(w1, k, account, calls[1..]);
    }
  }

  // --- Runs that stop anywhere ----------------------------------------------------------

  ghost predicate DistinctKeys(entries: seq<Entry>) {
    forall i, j :: 0 <= i < j < |entries| ==> entries[i].key != entries[j].key
  }

  ghost predicate OwnRefs(entries: seq<Entry>) {
    forall e :: e in entries ==> OwnRef(e)
  }

  /** The entry for a key, if there is one, may not touch what is there. */
  ghost predicate OffLimits(w: World, entries: seq<Entry>, c: Config, k: Key) {
    k in w.secrets && forall e :: e in entries && e.key == k ==> !MarkedFor(w.secrets[k], e, c)
  }

  lemma OffLimitsUntouched(w: World, e: Entry, c: Config, mint: Key -> Token)
    requires e.key in w.secrets && !MarkedFor(w.secrets[e.key], e, c)
    ensures Process(w, e, c, mint) == Outcome([], Some(Result(e, None, Skipped)))
  {
  }

  /** What an entry may not touch is exactly as it was. */
  ghost predicate Spared(w: World, w': World, entries: seq<Entry>, c: Config) {
    forall k :: OffLimits(w, entries, c, k) ==> k in w'.secrets && w'.secrets[k] == w.secrets[k]
  }

  /** Any part of one entry's calls. */
  lemma OneEntrySafe(w: World, entries: seq<Entry>, c: Config, mint: Key -> Token, n: nat)
    requires Backed(w) && entries != [] && OwnRef(entries[0]) && n <= |Process(w, entries[0], c, mint).calls|
    ensures var w' := Play(w, Process(w, entries[0], c, mint).calls[..n]);
            Backed(w') && OnlyKey(w, w', entries[0].key) && Spared(w, w', entries, c)
  {
    var e, calls := entries[0], Process(w, entries[0], c, mint).calls;
    var account := AccountFor(c, e.admin);
    ProcessLegal(w, e, c, mint);
    LegalPrefix(w, e.key, account, calls, n);
    LegalPlay(w, e.key, account, calls[..n]);
    var w' := Play(w, calls[..n]);
    forall k | OffLimits(w, entries, c, k) ensures k in w'.secrets && w'.secrets[k] == w.secrets[k] {
      if k == e.key {
        assert e in entries;
        OffLimitsUntouched(w, e, c, mint);
        assert calls[..n] == [];
      }
    }
  }

  lemma SparedAgain(w: World, w1: World, w2: World, entries: seq<Entry>, c: Config)
    requires entries != [] && DistinctKeys(entries) && OwnRefs(entries)
    requires Spared(w, w1, entries, c) && Spared(w1, w2, entries[1..], c)
    ensures Spared(w, w2, entries, c)
  {
    TailOk(entries);
    forall k | OffLimits(w, entries, c, k) ensures k in w2.secrets && w2.secrets[k] == w.secrets[k] {
      assert OffLimits(w1, entries[1..], c, k);
    }
  }

  /** What holds of the later entries' calls holds of them after the first entry's. */
  lemma LaterStop(w: World, entries: seq<Entry>, c: Config, mint: Key -> Token, more: seq<Call>)
    requires Backed(w) && entries != [] && OwnRefs(entries) && DistinctKeys(entries)
    requires var w1 := Play(w, Process(w, entries[0], c, mint).calls);
             Backed(Play(w1, more)) && Spared(w1, Play(w1, more), entries[1..], c)
    ensures var w' := Play(w, Process(w, entries[0], c, mint).calls + more);
            Backed(w') && Spared(w, w', entries, c)
  {
    var mine := Process(w, entries[0], c, mint).calls;
    assert entries[0] in entries && mine[..|mine|] == mine;
    OneEntrySafe(w, entries, c, mint, |mine|);
    PlayConcat(w, mine, more);
    SparedAgain(w, Play(w, mine), Play(Play(w, mine), more), entries, c);
  }

  lemma CallsSplit(w: World, entries: seq<Entry>, c: Config, mint: Key -> Token, n: nat)
    requires entries != [] && n <= |ProcessAll(w, entries, c, mint).calls|
    ensures var mine := Process(w, entries[0], c, mint).calls;
            var rest := ProcessAll(Play(w, mine), entries[1..], c, mint).calls;
            if n <= |mine| then ProcessAll(w, entries, c, mint).calls[..n] == mine[..n]
            else n - |mine| <= |rest| && ProcessAll(w, entries, c, mint).calls[..n] == mine + rest[..n - |mine|]
  {
  }

  /** At whatever call a run stops, annotated secrets are backed by Vault, and a secret that no entry
      names, or that is not managed by its entry's service account, is exactly as it was. */
  lemma {:induction false} AnyStopIsSafe(w: World, entries: seq<Entry>, c: Config, mint: Key -> Token, n: nat)
    requires Backed(w) && OwnRefs(entries) && DistinctKeys(entries) && n <= |ProcessAll(w, entries, c, mint).calls|
    ensures var w' := Play(w, ProcessAll(w, entries, c, mint).calls[..n]);
            Backed(w') && Spared(w, w', entries, c)
    decreases |entries|
  {
    if entries != [] {
      var mine := Process(w, entries[0], c, mint).calls;
      assert entries[0] in entries;
      CallsSplit(w, entries, c, mint, n);
      if n <= |mine| {
        OneEntrySafe(w, entries, c, mint, n);
      } else {
        assert mine[..|mine|] == mine;
        OneEntrySafe(w, entries, c, mint, |mine|);
        TailOk(entries);
        AnyStopIsSafe(Play(w, mine), entries[1..], c, mint, n - |mine|);
        LaterStop(w, entries, c, mint, ProcessAll(Play(w, mine), entries[1..], c, mint).calls[..n - |mine|]);
      }
    }
  }

  lemma TailOk(entries: seq<Entry>)
    requires entries != [] && OwnRefs(entries) && DistinctKeys(entries)
    ensures OwnRefs(entries[1..]) && DistinctKeys(entries[1..])
    ensures forall e :: e in entries[1..] ==> e in entries && e.key != entries[0].key
  {
    forall e | e in entries[1..] ensures e in entries && e.key != entries[0].key {
      var i :| 0 <= i < |entries[1..]| && entries[1..][i] == e;
      assert entries[i + 1] == e;
    }
    forall i, j | 0 <= i < j < |entries[1..]| ensures entries[1..][i].key != entries[1..][j].key {
      assert entries[1..][i] == entries[i + 1] && entries[1..][j] == entries[j + 1];
    }
  }

  // --- Any history ----------------------------------------------------------------------

  /** `Stopped`: a run over some entries of which only the first `made` calls were made.  `Lost` and
      `Foreign`: somebody else removes a secret, or creates one where there is none. */
  datatype Step =
    | Stopped(entries: seq<Entry>, config: Config, mint: Key -> Token, made: nat)
    | Lost(key: Key)
    | Foreign(key: Key, secret: Secret)

  ghost predicate Possible(w: World, s: Step) {
    match s
    case Stopped(entries, _, _, _) => OwnRefs(entries) && DistinctKeys(entries)
    case Lost(_) => true
    case Foreign(k, secret) => k !in w.secrets && secret.vaultPath.None?
  }

  function CallsOf(w: World, s: Step): seq<Call> {
    if s.Stopped? then
      var calls := ProcessAll(w, s.entries, s.config, s.mint).calls;
      if s.made < |calls| then calls[..s.made] else calls
    else []
  }

  function After(w: World, s: Step): World {
    match s
    case Stopped(_, _, _, _) => Play(w, CallsOf(w, s))
    case Lost(k) => w.(secrets := w.secrets - {k})
    case Foreign(k, secret) => w.(secrets := w.secrets[k := secret])
  }

  function PlayAll(w: World, steps: seq<Step>): World
    decreases |steps|
  {
    if steps == [] then w else PlayAll(After(w, steps[0]), steps[1..])
  }

  ghost predicate PossibleAll(w: World, steps: seq<Step>)
    decreases |steps|
  {
    steps == [] || (Possible(w, steps[0]) && PossibleAll(After(w, steps[0]), steps[1..]))
  }

  /** Neither does somebody else remove the secret under `k`, nor does a run have an entry for it with a
      service account it is managed by. */
  ghost predicate LeftAlone(s: Step, k: Key, secret: Secret) {
    match s
    case Stopped(entries, c, _, _) => forall e :: e in entries && e.key == k ==> !MarkedFor(secret, e, c)
    case Lost(x) => x != k
    case Foreign(_, _) => true
  }

  ghost predicate AlwaysLeftAlone(steps: seq<Step>, k: Key, secret: Secret) {
    forall n :: 0 <= n < |steps| ==> LeftAlone(steps[n], k, secret)
  }

  lemma StepSafe(w: World, s: Step)
    requires Backed(w) && Possible(w, s)
    ensures Backed(After(w, s))
    ensures forall k :: k in w.secrets && LeftAlone(s, k, w.secrets[k]) ==> k in After(w, s).secrets && After(w, s).secrets[k] == w.secrets[k]
  {
    if s.Stopped? {
      var calls := ProcessAll(w, s.entries, s.config, s.mint).calls;
      AnyStopIsSafe(w, s.entries, s.config, s.mint, if s.made < |calls| then s.made else |calls|);
      assert calls[..|calls|] == calls;
      assert Spared(w, After(w, s), s.entries, s.config);
      forall k | k in w.secrets && LeftAlone(s, k, w.secrets[k]) ensures OffLimits(w, s.entries, s.config, k) {}
    }
  }

  /** Over any history of runs that stop between any two calls, with entries changing from run to run
      and others removing and creating secrets, every annotated secret has its token at its path, and a
      secret that others leave alone and no run has a managing entry for is exactly as it was. */
  lemma {:induction false} SafeOverHistory(w: World, steps: seq<Step>)
    requires Backed(w) && PossibleAll(w, steps)
    ensures Backed(PlayAll(w, steps))
    ensures forall k :: k in w.secrets && AlwaysLeftAlone(steps, k, w.secrets[k]) ==>
              k in PlayAll(w, steps).secrets && PlayAll(w, steps).secrets[k] == w.secrets[k]
    decreases |steps|
  {
    if steps != [] {
      var w1 := After(w, steps[0]);
      StepSafe(w, steps[0]);
      SafeOverHistory(w1, steps[1..]);
      forall k | k in w.secrets && AlwaysLeftAlone(steps, k, w.secrets[k])
        ensures k in PlayAll(w, steps).secrets && PlayAll(w, steps).secrets[k] == w.secrets[k]
      {
        assert LeftAlone(steps[0], k, w.secrets[k]);
        forall n | 0 <= n < |steps[1..]| ensures LeftAlone(steps[1..][n], k, w1.secrets[k]) { assert steps[1..][n] == steps[n + 1]; }
      }
    }
  }

  // --- A whole run and the merged list --------------------------------------------------

  predicate NeedsProcessing(e: Entry) {
    e.delete || e.secret.None?
  }

  /** `_merge_entry_updates`: the entries of one list with the results for it; deleted entries go. */
  function MergeOne(e: Entry, results: seq<Result>): seq<Entry> {
    if exists i | 0 <= i < |results| :: results[i].entry.key == e.key && results[i].action == Deleted then []
    else [Updated(e, results)]
  }

  /** The last reference found for the key of `e` wins. */
  function Updated(e: Entry, results: seq<Result>): Entry
    decreases |results|
  {
    if results == [] then e
    else
      var n := |results| - 1;
      if results[n].entry.key == e.key && results[n].vaultSecret.Some? then e.(secret := results[n].vaultSecret)
      else Updated(e, results[..n])
  }

  function Merge(entries: seq<Entry>, results: seq<Result>): seq<Entry> {
    if entries == [] then [] else MergeOne(entries[0], results) + Merge(entries[1..], results)
  }

  lemma OthersDoNotMatter(w: World, w': World, k: Key, e: Entry, c: Config, mint: Key -> Token)
    requires OnlyKey(w, w', k) && e.key != k
    ensures Process(w', e, c, mint) == Process(w, e, c, mint)
  {
    assert e.key in w'.secrets <==> e.key in w.secrets;
  }

  /** The result of entry `i`, as if it were the only one: others work on other keys. */
  lemma {:induction false} ResultsAreLocal(w: World, entries: seq<Entry>, c: Config, mint: Key -> Token, i: nat)
    requires Backed(w) && OwnRefs(entries) && DistinctKeys(entries) && ProcessAll(w, entries, c, mint).ok && i < |entries|
    ensures var o := ProcessAll(w, entries, c, mint);
            && |o.results| == |entries|
            && Process(w, entries[i], c, mint).result == Some(o.results[i])
    decreases |entries|
  {
    var e, o := entries[0], Process(w, entries[0], c, mint);
    var w1 := Play(w, o.calls);
    assert e in entries;
    TailOk(entries);
    ProcessLegal(w, e, c, mint);
    LegalPlay(w, e.key, AccountFor(c, e.admin), o.calls);
    if i > 0 {
      ResultsAreLocal(w1, entries[1..], c, mint, i - 1);
      assert entries[i] == entries[1..][i - 1] && entries[i] in entries[1..];
      OthersDoNotMatter(w, w1, e.key, entries[i], c, mint);
    } else if |entries| > 1 {
      ResultsAreLocal(w1, entries[1..], c, mint, 0);
    }
  }

  lemma ResultOf(w: World, e: Entry, c: Config, mint: Key -> Token)
    requires Process(w, e, c, mint).result.Some?
    ensures Process(w, e, c, mint).result.value.entry == e
    ensures Process(w, e, c, mint).result.value.vaultSecret.Some? ==> Process(w, e, c, mint).result.value.vaultSecret == Some(EntryPath(e.key))
  {
  }

  /** Looking up results by key finds exactly the entry's own one. */
  lemma {:induction false} UpdatedIs(e: Entry, results: seq<Result>, i: nat)
    requires i < |results| && results[i].entry.key == e.key
    requires forall j :: 0 <= j < |results| && j != i ==> results[j].entry.key != e.key
    ensures Updated(e, results) == if results[i].vaultSecret.Some? then e.(secret := results[i].vaultSecret) else e
    decreases |results|
  {
    var n := |results| - 1;
    if i < n {
      UpdatedIs(e, results[..n], i);
    } else if results[n].vaultSecret.None? {
      UpdatedNot(e, results[..n]);
    }
  }

  lemma {:induction false} UpdatedNot(e: Entry, results: seq<Result>)
    requires forall j :: 0 <= j < |results| ==> results[j].entry.key != e.key
    ensures Updated(e, results) == e
    decreases |results|
  {
    if results != [] { UpdatedNot(e, results[..|results| - 1]); }
  }

  /** The secret under an entry's key is there and not its service account's. */
  ghost predicate Collides(w: World, e: Entry, c: Config) {
    e.key in w.secrets && !MarkedFor(w.secrets[e.key], e, c)
  }

  lemma MergedEntry(w: World, entries: seq<Entry>, c: Config, mint: Key -> Token, i: nat)
    requires Backed(w) && OwnRefs(entries) && DistinctKeys(entries) && !c.dry && ProcessAll(w, entries, c, mint).ok && i < |entries|
    ensures var m := MergeOne(entries[i], ProcessAll(w, entries, c, mint).results);
            (exists x :: x in m && NeedsProcessing(x)) <==> NeedsProcessing(entries[i]) && Collides(w, entries[i], c)
    ensures forall x :: x in MergeOne(entries[i], ProcessAll(w, entries, c, mint).results) ==> x.key == entries[i].key && OwnRef(x)
  {
    var results, e := ProcessAll(w, entries, c, mint).results, entries[i];
    ResultsAreLocal(w, entries, c, mint, i);
    ResultOf(w, e, c, mint);
    forall j | 0 <= j < |results| ensures results[j].entry == entries[j] {
      ResultsAreLocal(w, entries, c, mint, j);
      ResultOf(w, entries[j], c, mint);
    }
    assert e in entries;
    UpdatedIs(e, results, i);
    var m := MergeOne(e, results);
    if results[i].action == Deleted {
      assert m == [];
    } else {
      assert m == [Updated(e, results)];
      assert m[0] in m;
    }
  }

  lemma {:induction false} MergeMembers(entries: seq<Entry>, results: seq<Result>)
    ensures forall x :: x in Merge(entries, results) <==> exists i :: 0 <= i < |entries| && x in MergeOne(entries[i], results)
  {
    if entries != [] {
      MergeMembers(entries[1..], results);
      forall x ensures x in Merge(entries, results) <==> exists i :: 0 <= i < |entries| && x in MergeOne(entries[i], results) {
        if x in Merge(entries[1..], results) {
          var i :| 0 <= i < |entries[1..]| && x in MergeOne(entries[1..][i], results);
          assert x in MergeOne(entries[i + 1], results);
        }
        if i :| 0 <= i < |entries| && x in MergeOne(entries[i], results) {
          if i > 0 { assert x in MergeOne(entries[1..][i - 1], results); }
        }
      }
    }
  }

  /** After a whole run whose merged list is adopted, some entry still needs processing if and only if
      one that needed it collides with a secret its service account does not manage. */
  lemma MergedListIsDone(w: World, entries: seq<Entry>, c: Config, mint: Key -> Token)
    requires Backed(w) && OwnRefs(entries) && DistinctKeys(entries) && !c.dry && ProcessAll(w, entries, c, mint).ok
    ensures var merged := Merge(entries, ProcessAll(w, entries, c, mint).results);
            && ((exists x :: x in merged && (x.delete || x.secret == None)) <==>
                  exists e :: e in entries && (e.delete || e.secret == None) && Collides(w, e, c))
            && OwnRefs(merged)
  {
    var results := ProcessAll(w, entries, c, mint).results;
    var merged := Merge(entries, results);
    MergeMembers(entries, results);
    forall i | 0 <= i < |entries|
      ensures (exists x :: x in MergeOne(entries[i], results) && NeedsProcessing(x)) <==> NeedsProcessing(entries[i]) && Collides(w, entries[i], c)
      ensures forall x :: x in MergeOne(entries[i], results) ==> OwnRef(x)
    {
      MergedEntry(w, entries, c, mint, i);
    }
    if x :| x in merged && NeedsProcessing(x) {
      var i :| 0 <= i < |entries| && x in MergeOne(entries[i], results);
      assert entries[i] in entries;
    }
    if e :| e in entries && NeedsProcessing(e) && Collides(w, e, c) {
      var i :| 0 <= i < |entries| && entries[i] == e;
      var x :| x in MergeOne(entries[i], results) && NeedsProcessing(x);
      assert x in merged;
    }
  }

  // --- What a run does for each entry ---------------------------------------------------

  /** Secret and Vault path of the key are the same in both. */
  ghost predicate SameKey(w: World, w': World, k: Key) {
    && (k in w'.secrets <==> k in w.secrets) && (k in w.secrets ==> w'.secrets[k] == w.secrets[k])
    && (EntryPath(k) in w'.vault <==> EntryPath(k) in w.vault)
    && (EntryPath(k) in w.vault ==> w'.vault[EntryPath(k)] == w.vault[EntryPath(k)])
  }

  /** The token is in the secret and in Vault, and the secret is annotated with the path. */
  ghost predicate HandedOver(w: World, k: Key, t: Token) {
    && k in w.secrets && w.secrets[k].vaultPath == Some(EntryPath(k)) && w.secrets[k].token == Some(t)
    && EntryPath(k) in w.vault && w.vault[EntryPath(k)] == t
  }

  /** What is asked for by an entry, given the state before a run; `t` is the token of a new secret. */
  ghost predicate DoneFor(w: World, w': World, e: Entry, c: Config, t: Token, r: Result) {
    var k := e.key;
    if Collides(w, e, c) then SameKey(w, w', k) && r == Result(e, None, Skipped)
    else if e.delete then
      && k !in w'.secrets && r == Result(e, None, Deleted)
      && (if e.secret.Some? then EntryPath(k) !in w'.vault else EntryPath(k) in w'.vault <==> EntryPath(k) in w.vault)
    else if k !in w.secrets then
      && HandedOver(w', k, t) && r == Result(e, Some(EntryPath(k)), Created)
      && w'.secrets[k].managed == w'.secrets[k].account
      && w'.secrets[k].account == Some(if e.admin then c.clusterAdmin else c.dedicated)
    else if e.secret.Some? && w.secrets[k].vaultPath.Some? then SameKey(w, w', k) && r == Result(e, None, Skipped)
    else
      && w.secrets[k].token.Some? && HandedOver(w', k, w.secrets[k].token.value) && r == Result(e, Some(EntryPath(k)), Synced)
      && w'.secrets[k].managed == w.secrets[k].managed && w'.secrets[k].account == w.secrets[k].account
  }

  lemma PlayTwo(w: World, a: Call, b: Call)
    ensures Play(w, [a, b]) == Do(Do(w, a), b)
  {
    assert [a, b][1..] == [b];
    assert Play(Do(w, a), [b]) == Do(Do(w, a), b);
  }

  lemma PlayCreation(w: World, e: Entry, c: Config, mint: Key -> Token)
    requires !e.delete && !c.dry && e.key !in w.secrets
    ensures var account, path, t := AccountFor(c, e.admin), EntryPath(e.key), mint(e.key);
            Play(w, Process(w, e, c, mint).calls)
              == World(w.secrets[e.key := Secret(Some(account), Some(account), Some(path), Some(t))], w.vault[path := t])
  {
    var calls := Process(w, e, c, mint).calls;
    assert calls == [calls[0], calls[1]] + [calls[2], calls[3]];
    PlayConcat(w, [calls[0], calls[1]], [calls[2], calls[3]]);
    PlayTwo(w, calls[0], calls[1]);
    PlayTwo(Do(Do(w, calls[0]), calls[1]), calls[2], calls[3]);
  }

  lemma OneDone(w: World, e: Entry, c: Config, mint: Key -> Token)
    requires Backed(w) && OwnRef(e) && !c.dry && Process(w, e, c, mint).result.Some?
    ensures DoneFor(w, Play(w, Process(w, e, c, mint).calls), e, c, mint(e.key), Process(w, e, c, mint).result.value)
  {
    var calls := Process(w, e, c, mint).calls;
    if |calls| == 4 {
      PlayCreation(w, e, c, mint);
    } else if |calls| == 2 {
      assert calls == [calls[0], calls[1]];
      PlayTwo(w, calls[0], calls[1]);
    } else if |calls| == 1 {
      assert calls == [calls[0]] && calls[1..] == [];
    }
  }

  /** After a whole run each key is as its own entry alone leaves it. */
  lemma {:induction false} EndsLocally(w: World, entries: seq<Entry>, c: Config, mint: Key -> Token, i: nat)
    requires Backed(w) && OwnRefs(entries) && DistinctKeys(entries) && ProcessAll(w, entries, c, mint).ok && i < |entries|
    ensures var k := entries[i].key;
            SameKey(Play(w, Process(w, entries[i], c, mint).calls), Play(w, ProcessAll(w, entries, c, mint).calls), k)
    decreases |entries|
  {
    var e, o := entries[0], Process(w, entries[0], c, mint);
    var w1 := Play(w, o.calls);
    var rest := ProcessAll(w1, entries[1..], c, mint).calls;
    assert e in entries;
    TailOk(entries);
    ProcessLegal(w, e, c, mint);
    LegalPlay(w, e.key, AccountFor(c, e.admin), o.calls);
    PlayConcat(w, o.calls, rest);
    if i > 0 {
      EndsLocally(w1, entries[1..], c, mint, i - 1);
      var mine := entries[i];
      assert mine == entries[1..][i - 1] && mine in entries[1..] && mine in entries;
      OthersDoNotMatter(w, w1, e.key, mine, c, mint);
      OwnCallsLocal(w, w1, mine, c, mint);
      SameKeyTrans(Play(w, Process(w, mine, c, mint).calls), Play(w1, Process(w, mine, c, mint).calls), Play(w1, rest), mine.key);
    } else {
      OtherKeysStay(w1, entries[1..], c, mint, e.key);
    }
    assert ProcessAll(w, entries, c, mint).calls == o.calls + rest;
  }

  lemma SameKeyTrans(a: World, b: World, c: World, k: Key)
    requires SameKey(a, b, k) && SameKey(b, c, k)
    ensures SameKey(a, c, k)
  {
  }

  /** The same calls about one key have the same effect there. */
  lemma {:induction false} SameCalls(w: World, w1: World, k: Key, account: string, calls: seq<Call>)
    requires SameKey(w, w1, k) && AllLegal(w, k, account, calls)
    ensures SameKey(Play(w, calls), Play(w1, calls), k)
    decreases |calls|
  {
    if calls != [] {
      assert SameKey(Do(w, calls[0]), Do(w1, calls[0]), k);
      SameCalls(Do(w, calls[0]), Do(w1, calls[0]), k, account, calls[1..]);
    }
  }

  lemma OwnCallsLocal(w: World, w1: World, e: Entry, c: Config, mint: Key -> Token)
    requires SameKey(w, w1, e.key) && OwnRef(e) && Process(w1, e, c, mint) == Process(w, e, c, mint)
    ensures SameKey(Play(w, Process(w, e, c, mint).calls), Play(w1, Process(w, e, c, mint).calls), e.key)
  {
    ProcessLegal(w, e, c, mint);
    SameCalls(w, w1, e.key, AccountFor(c, e.admin), Process(w, e, c, mint).calls);
  }

  lemma {:induction false} OtherKeysStay(w: World, entries: seq<Entry>, c: Config, mint: Key -> Token, k: Key)
    requires Backed(w) && OwnRefs(entries) && DistinctKeys(entries) && forall e :: e in entries ==> e.key != k
    ensures SameKey(w, Play(w, ProcessAll(w, entries, c, mint).calls), k)
    decreases |entries|
  {
    if entries != [] {
      var e, o := entries[0], Process(w, entries[0], c, mint);
      assert e in entries;
      TailOk(entries);
      ProcessLegal(w, e, c, mint);
      LegalPlay(w, e.key, AccountFor(c, e.admin), o.calls);
      if o.result.Some? {
        OtherKeysStay(Play(w, o.calls), entries[1..], c, mint, k);
        PlayConcat(w, o.calls, ProcessAll(Play(w, o.calls), entries[1..], c, mint).calls);
      }
    }
  }

  /** A run that is not dry and raises nothing does for every entry exactly what it asks for: a new secret
      gets the service account of its kind, and its token goes to Vault; a secret marked for that
      account is synced or deleted; any other secret under the key stays as it is. */
  lemma EveryEntryDone(w: World, entries: seq<Entry>, c: Config, mint: Key -> Token, i: nat)
    requires Backed(w) && OwnRefs(entries) && DistinctKeys(entries) && !c.dry && ProcessAll(w, entries, c, mint).ok && i < |entries|
    ensures var o := ProcessAll(w, entries, c, mint);
            |o.results| == |entries| && DoneFor(w, Play(w, o.calls), entries[i], c, mint(entries[i].key), o.results[i])
  {
    assert entries[i] in entries;
    ResultsAreLocal(w, entries, c, mint, i);
    OneDone(w, entries[i], c, mint);
    EndsLocally(w, entries, c, mint, i);
  }

  /** The secret of the entry is there and its own, has not been handed over, and lacks a token. */
  ghost predicate LacksToken(w: World, e: Entry, c: Config) {
    && !e.delete && e.key in w.secrets && MarkedFor(w.secrets[e.key], e, c) && w.secrets[e.key].token.None?
    && !(e.secret.Some? && w.secrets[e.key].vaultPath.Some?)
  }

  /** A run raises if and only if it is not dry and meets a secret without token that is to be synced. */
  lemma {:induction false} RaisesIff(w: World, entries: seq<Entry>, c: Config, mint: Key -> Token)
    requires Backed(w) && OwnRefs(entries) && DistinctKeys(entries)
    ensures !ProcessAll(w, entries, c, mint).ok <==> !c.dry && exists e :: e in entries && LacksToken(w, e, c)
    decreases |entries|
  {
    if entries != [] {
      var e, o := entries[0], Process(w, entries[0], c, mint);
      var w1 := Play(w, o.calls);
      assert e in entries && (o.result.None? <==> !c.dry && LacksToken(w, e, c));
      TailOk(entries);
      ProcessLegal(w, e, c, mint);
      LegalPlay(w, e.key, AccountFor(c, e.admin), o.calls);
      RaisesIff(w1, entries[1..], c, mint);
      forall x | x in entries[1..] ensures LacksToken(w1, x, c) <==> LacksToken(w, x, c) { assert x in entries && x.key != e.key; }
      assert forall x :: x in entries <==> x == e || x in entries[1..];
    }
  }

  /** A dry run makes no call. */
  lemma {:induction false} DryRunIsDry(w: World, entries: seq<Entry>, c: Config, mint: Key -> Token)
    requires c.dry
    ensures ProcessAll(w, entries, c, mint).calls == []
    decreases |entries|
  {
    if entries != [] { DryRunIsDry(w, entries[1..], c, mint); }
  }

  /** The list to be declared after a whole run: an entry whose key collides stays as it is, a deleted one goes,
      and every other one refers to its Vault path. */
  ghost function Expected(w: World, entries: seq<Entry>, c: Config): seq<Entry> {
    if entries == [] then []
    else
      var e := entries[0];
      (if Collides(w, e, c) then [e] else if e.delete then [] else [e.(secret := Some(EntryPath(e.key)))]) + Expected(w, entries[1..], c)
  }

  /** What becomes of an entry, by its own result. */
  lemma MergeOneIs(entries: seq<Entry>, results: seq<Result>, i: nat)
    requires DistinctKeys(entries) && |results| == |entries| && i < |entries|
    requires forall j :: 0 <= j < |results| ==> results[j].entry == entries[j]
    ensures var e, r := entries[i], results[i];
            MergeOne(e, results) == if r.action == Deleted then [] else [if r.vaultSecret.Some? then e.(secret := r.vaultSecret) else e]
  {
    var e := entries[i];
    forall j | 0 <= j < |results| && j != i ensures results[j].entry.key != e.key { assert results[j].entry == entries[j]; }
    UpdatedIs(e, results, i);
  }

  lemma ResultsMatch(w: World, entries: seq<Entry>, c: Config, mint: Key -> Token)
    requires Backed(w) && OwnRefs(entries) && DistinctKeys(entries) && ProcessAll(w, entries, c, mint).ok
    ensures var results := ProcessAll(w, entries, c, mint).results;
            |results| == |entries| && forall j :: 0 <= j < |results| ==> results[j].entry == entries[j]
  {
    var results := ProcessAll(w, entries, c, mint).results;
    if entries != [] { ResultsAreLocal(w, entries, c, mint, 0); }
    forall j | 0 <= j < |results| ensures results[j].entry == entries[j] {
      ResultsAreLocal(w, entries, c, mint, j);
      ResultOf(w, entries[j], c, mint);
    }
  }

  lemma MergedOneIs(w: World, entries: seq<Entry>, c: Config, mint: Key -> Token, i: nat)
    requires Backed(w) && OwnRefs(entries) && DistinctKeys(entries) && !c.dry && ProcessAll(w, entries, c, mint).ok && i < |entries|
    ensures var e := entries[i];
            MergeOne(e, ProcessAll(w, entries, c, mint).results) ==
              if Collides(w, e, c) then [e] else if e.delete then [] else [e.(secret := Some(EntryPath(e.key)))]
  {
    var o, e := ProcessAll(w, entries, c, mint), entries[i];
    assert e in entries && OwnRef(e);
    ResultsMatch(w, entries, c, mint);
    MergeOneIs(entries, o.results, i);
    EveryEntryDone(w, entries, c, mint, i);
    ResultDecides(w, Play(w, o.calls), e, c, mint(e.key), o.results[i]);
  }

  lemma ResultDecides(w: World, w': World, e: Entry, c: Config, t: Token, r: Result)
    requires DoneFor(w, w', e, c, t, r) && OwnRef(e)
    ensures (if r.action == Deleted then [] else [if r.vaultSecret.Some? then e.(secret := r.vaultSecret) else e])
      == if Collides(w, e, c) then [e] else if e.delete then [] else [e.(secret := Some(EntryPath(e.key)))]
  {
  }

  lemma {:induction false} MergedFrom(w: World, entries: seq<Entry>, c: Config, mint: Key -> Token, k: nat)
    requires Backed(w) && OwnRefs(entries) && DistinctKeys(entries) && !c.dry && ProcessAll(w, entries, c, mint).ok && k <= |entries|
    ensures Merge(entries[k..], ProcessAll(w, entries, c, mint).results) == Expected(w, entries[k..], c)
    decreases |entries| - k
  {
    if k < |entries| {
      assert entries[k..][0] == entries[k] && entries[k..][1..] == entries[k + 1..];
      MergedOneIs(w, entries, c, mint, k);
      MergedFrom(w, entries, c, mint, k + 1);
    }
  }

  /** The merged list is the expected one, in the declared order. */
  lemma MergedIs(w: World, entries: seq<Entry>, c: Config, mint: Key -> Token)
    requires Backed(w) && OwnRefs(entries) && DistinctKeys(entries) && !c.dry && ProcessAll(w, entries, c, mint).ok
    ensures Merge(entries, ProcessAll(w, entries, c, mint).results) == Expected(w, entries, c)
  {
    MergedFrom(w, entries, c, mint, 0);
    assert entries[0..] == entries;
  }

  // --- Foreign references ---------------------------------------------------------------

  /** A deletion takes away the path its entry refers to.  It leaves every annotated secret backed if
      and only if no secret but the deleted one is annotated with that path. */
  lemma DeletionSafeIff(w: World, e: Entry, c: Config, mint: Key -> Token)
    requires Backed(w) && e.delete && !c.dry && !Collides(w, e, c) && e.secret.Some?
    ensures Backed(Play(w, Process(w, e, c, mint).calls))
      <==> forall k :: k in w.secrets && k != e.key ==> w.secrets[k].vaultPath != e.secret
  {
    var calls := Process(w, e, c, mint).calls;
    var p := e.secret.value;
    var w1 := if e.key in w.secrets then Do(w, DeleteSecret(e.key)) else w;
    if e.key in w.secrets {
      assert calls == [DeleteSecret(e.key), DeleteVault(p)] && calls[1..] == [DeleteVault(p)];
    } else {
      assert calls == [DeleteVault(p)];
    }
    assert Play(w1, [DeleteVault(p)]) == Do(w1, DeleteVault(p));
    var w' := Play(w, calls);
    assert w' == Do(w1, DeleteVault(p));
    if k :| k in w.secrets && k != e.key && w.secrets[k].vaultPath == e.secret {
      assert k in w'.secrets && EntryPath(k) !in w'.vault;
    }
  }

  /** An entry that refers to another secret's path takes that secret's token out of Vault. */
  lemma ForeignRefBreaks(k: Key, gone: Key, c: Config, mint: Key -> Token)
    requires k != gone && !c.dry
    ensures var w := World(map[k := Secret(Some(c.dedicated), None, Some(EntryPath(k)), Some("t"))], map[EntryPath(k) := "t"]);
            var e := Entry(gone, false, true, Some(EntryPath(k)));
            Backed(w) && !Backed(Play(w, Process(w, e, c, mint).calls))
  {
    var w := World(map[k := Secret(Some(c.dedicated), None, Some(EntryPath(k)), Some("t"))], map[EntryPath(k) := "t"]);
    var e := Entry(gone, false, true, Some(EntryPath(k)));
    DeletionSafeIff(w, e, c, mint);
    assert k in w.secrets && w.secrets[k].vaultPath == e.secret;
  }
}
