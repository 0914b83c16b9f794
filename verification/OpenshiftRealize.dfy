/** What one realization task does to one (cluster, namespace, kind): the three-way comparison, the
    ownership rules, and the effect of applying or deleting an object, name by name. */
module OpenshiftRealize {
  import opened Common

  type Name = string
  type Caller = string

  /** A leaf of an object's canonical body; the two restart annotations of the pod template are
      fields of their own. */
  datatype Field = KubectlRestartedAt | OpenshiftRestartedAt | Field(path: string)

  const RECYCLE_FIELDS: set<Field> := {KubectlRestartedAt, OpenshiftRestartedAt}

  /** A CPU quantity is known by its milli-units; `EnvValue` is the value of an environment entry. */
  datatype Leaf = Plain(text: string) | Cpu(text: string, millis: int) | EnvValue(text: string)

  type Body = map<Field, Leaf>

  /** The qontract annotations; `major` is `None` when the version is missing or does not parse.  A
      hash is modelled as what it was computed from. */
  datatype Marks = Marks(integration: Option<string>, major: Option<nat>, sha: Option<Body>, caller: Option<Caller>)

  datatype Live = Live(body: Body, marks: Marks, owned: bool)

  datatype Want = Want(body: Body, integration: string, major: nat, caller: Option<Caller>)

  /** One inventory entry: the fetched and the desired objects of one kind in one namespace. */
  datatype Entry = Entry(current: map<Name, Live>, desired: map<Name, Want>, admin: map<Name, bool>, recycles: bool)

  datatype Opts = Opts(
    dry: bool, skipCompare: bool, wait: bool, takeOver: bool, deletion: Option<bool>,
    caller: Option<Caller>, allCallers: set<Caller>, integration: string, major: nat)

  /** `reach(privileged)`: a client for the cluster exists; `present`: the namespace exists; `refuses`:
      the API server rejects the call. */
  datatype Env = Env(reach: bool -> bool, present: bool, refuses: Name -> bool)

  // --- Patching and comparing -----------------------------------------------------------

  /** The restart annotations an object carries with a value. */
  function Carried(body: Body): Body {
    map f | f in RECYCLE_FIELDS && f in body && body[f].text != "" :: body[f]
  }

  /** `patch_desired_resource_for_recycle_annotations`: the desired object's own fields win. */
  function Patch(recycles: bool, want: Want, cur: Live): Want {
    if recycles then want.(body := Carried(cur.body) + want.body) else want
  }

  function Patched(t: Entry): Entry {
    t.(desired := map n | n in t.desired :: if n in t.current then Patch(t.recycles, t.desired[n], t.current[n]) else t.desired[n])
  }

  /** The desired field needs no change: same value, same CPU quantity, or an empty environment
      value the server has dropped. */
  predicate IsMet(cur: Body, f: Field, want: Leaf) {
    if f in cur then cur[f] == want || (cur[f].Cpu? && want.Cpu? && cur[f].millis == want.millis)
    else want == EnvValue("")
  }

  predicate Covers(cur: Body, want: Body) {
    forall f | f in want :: IsMet(cur, f, want[f])
  }

  /** `three_way_diff_using_hash` */
  predicate IsSame(cur: Live, want: Want) {
    && cur.marks.sha == Some(want.body)
    && cur.marks.integration == Some(want.integration)
    && Covers(cur.body, want.body)
  }

  /** The comparison needs an integration annotation beside the hash, or it raises. */
  predicate Raises(t: Entry) {
    exists n | n in t.current && n in t.desired :: t.current[n].marks.sha.Some? && t.current[n].marks.integration.None?
  }

  // --- Deciding -------------------------------------------------------------------------

  datatype Verdict = Leave | Complain | Apply | Delete

  /** Managed by another caller that is still alive. */
  predicate IsForeign(cur: Live, o: Opts) {
    o.caller.Some? && cur.marks.caller != o.caller && cur.marks.caller.Some? && cur.marks.caller.value in o.allCallers
  }

  predicate HasAnnotations(cur: Live, o: Opts) {
    && cur.marks.integration == Some(o.integration)
    && cur.marks.major == Some(o.major)
    && cur.marks.sha.Some?
  }

  function ForIdentical(cur: Live, o: Opts): Verdict {
    if o.caller.None? || cur.marks.caller == o.caller then Leave
    else if o.takeOver || (o.allCallers != {} && !(cur.marks.caller.Some? && cur.marks.caller.value in o.allCallers)) then Apply
    else Complain
  }

  function ForModified(cur: Live, o: Opts): Verdict {
    if !o.dry && o.skipCompare then Apply
    else if !o.takeOver && IsForeign(cur, o) then Complain
    else Apply
  }

  function ForDeleted(cur: Live, o: Opts): Verdict {
    if HasAnnotations(cur, o) then (if o.caller.Some? && cur.marks.caller != o.caller then Leave else Delete)
    else if !o.takeOver || cur.owned then Leave
    else Delete
  }

  /** The verdict on one name, the desired object being patched already. */
  function Decide(t: Entry, n: Name, o: Opts): Verdict {
    if n in t.current && n in t.desired then
      if IsSame(t.current[n], t.desired[n]) then ForIdentical(t.current[n], o) else ForModified(t.current[n], o)
    else if n in t.desired then Apply
    else if n in t.current then ForDeleted(t.current[n], o)
    else Leave
  }

  // --- Acting ---------------------------------------------------------------------------

  /** What `annotate` and `oc apply` leave on the cluster. */
  function Stamped(want: Want, was: Option<Live>): Live {
    Live(want.body, Marks(Some(want.integration), Some(want.major), Some(want.body), want.caller), was.Some? && was.value.owned)
  }

  datatype Effect = Effect(live: Option<Live>, error: bool)

  function DoApply(was: Option<Live>, want: Want, n: Name, privileged: bool, o: Opts, e: Env): Effect {
    if !e.reach(privileged) || o.dry then Effect(was, false)
    else if !e.present then Effect(was, o.wait)
    else if e.refuses(n) then Effect(was, true)
    else Effect(Some(Stamped(want, was)), false)
  }

  function DoDelete(was: Option<Live>, n: Name, privileged: bool, enable: bool, o: Opts, e: Env): Effect {
    if !enable || !e.reach(privileged) || o.dry then Effect(was, false)
    else if e.refuses(n) then Effect(was, true)
    else Effect(None, false)
  }

  /** `use_admin_token` knows desired names only. */
  function Privileged(t: Entry, n: Name): bool {
    n in t.admin && t.admin[n]
  }

  function Lookup(live: map<Name, Live>, n: Name): Option<Live> {
    if n in live then Some(live[n]) else None
  }

  function Handle(t: Entry, n: Name, was: Option<Live>, enable: bool, o: Opts, e: Env): Effect {
    match Decide(t, n, o)
    case Leave => Effect(was, false)
    case Complain => Effect(was, true)
    case Apply => if n in t.desired then DoApply(was, t.desired[n], n, Privileged(t, n), o, e) else Effect(was, false)
    case Delete => DoDelete(was, n, Privileged(t, n), enable, o, e)
  }

  /** The objects once the names `ns` have been handled. */
  function After(t: Entry, live: map<Name, Live>, ns: set<Name>, enable: bool, o: Opts, e: Env): map<Name, Live> {
    map n | n in live.Keys + ns && Settled(t, live, n, ns, enable, o, e).Some? :: Settled(t, live, n, ns, enable, o, e).value
  }

  function Settled(t: Entry, live: map<Name, Live>, n: Name, ns: set<Name>, enable: bool, o: Opts, e: Env): Option<Live> {
    if n in ns then Handle(t, n, Lookup(live, n), enable, o, e).live else Lookup(live, n)
  }

  predicate Fails(t: Entry, live: map<Name, Live>, ns: set<Name>, enable: bool, o: Opts, e: Env) {
    exists n | n in ns :: Handle(t, n, Lookup(live, n), enable, o, e).error
  }

  /** Deletion is on only without any registered error, and then unless overridden. */
  predicate DeletionOn(errors: bool, o: Opts) {
    !errors && o.deletion != Some(false)
  }

  function Names(t: Entry): set<Name> {
    t.current.Keys + t.desired.Keys
  }

  // --- A whole task ---------------------------------------------------------------------

  /** The objects after a task that started with these error flags. */
  function Realized(t: Entry, live: map<Name, Live>, errors: bool, clusterError: bool, o: Opts, e: Env): map<Name, Live> {
    if clusterError || Raises(t) then live
    else After(Patched(t), live, Names(t), DeletionOn(errors, o), o, e)
  }

  predicate RealizeFails(t: Entry, live: map<Name, Live>, errors: bool, clusterError: bool, o: Opts, e: Env) {
    !clusterError && (Raises(t) || Fails(Patched(t), live, Names(t), DeletionOn(errors, o), o, e))
  }

  lemma AfterAt(t: Entry, live: map<Name, Live>, ns: set<Name>, enable: bool, o: Opts, e: Env, n: Name)
    ensures Lookup(After(t, live, ns, enable, o, e), n) == Settled(t, live, n, ns, enable, o, e)
  {
  }

  function Put(live: map<Name, Live>, n: Name, l: Option<Live>): map<Name, Live> {
    if l.Some? then live[n := l.value] else live - {n}
  }

  lemma AfterNothing(t: Entry, live: map<Name, Live>, enable: bool, o: Opts, e: Env)
    ensures After(t, live, {}, enable, o, e) == live
  {
  }

  lemma AfterOneMore(t: Entry, live: map<Name, Live>, ns: set<Name>, n: Name, enable: bool, o: Opts, e: Env)
    requires n !in ns
    ensures var mid := After(t, live, ns, enable, o, e);
            && Lookup(mid, n) == Lookup(live, n)
            && After(t, live, ns + {n}, enable, o, e) == Put(mid, n, Handle(t, n, Lookup(live, n), enable, o, e).live)
  {
    var mid := After(t, live, ns, enable, o, e);
    var a, b := After(t, live, ns + {n}, enable, o, e), Put(mid, n, Handle(t, n, Lookup(live, n), enable, o, e).live);
    forall x ensures Lookup(a, x) == Lookup(b, x) {
      AfterAt(t, live, ns + {n}, enable, o, e, x);
      AfterAt(t, live, ns, enable, o, e, x);
    }
    forall x ensures x in a <==> x in b { assert Lookup(a, x) == Lookup(b, x); }
    forall x | x in a ensures a[x] == b[x] { assert Lookup(a, x) == Lookup(b, x); }
  }
}
