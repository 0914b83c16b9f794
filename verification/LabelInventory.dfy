/** The label inventory of `openshift_namespace_labels` as it runs: maps filled in step by step, a
    copied key list that toggles keys, and the store write before the label calls. */
module LabelInventory {
  import opened Common
  import opened NamespaceLabels

  /** A namespace on a cluster. */
  datatype Ns = Ns(cluster: string, name: string)

  /** One namespace definition: `labels` may be missing, and `errors` counts validation errors. */
  datatype Definition = Definition(ns: Ns, labels: Option<Labels>, errors: nat)

  function Elems(keys: seq<Key>): set<Key> {
    set k | k in keys
  }

  /** Python's `list.remove`: the first occurrence goes. */
  function Remove(keys: seq<Key>, k: Key): (r: seq<Key>)
    ensures multiset(r) == multiset(keys) - multiset{k}
  {
    if keys == [] then []
    else if keys[0] == k then
      assert keys == [k] + keys[1..];
      keys[1..]
    else
      assert keys == [keys[0]] + keys[1..];
      [keys[0]] + Remove(keys[1..], k)
  }

  lemma {:induction false} RemoveOnce(keys: seq<Key>, k: Key)
    requires NoDup(keys)
    ensures NoDup(Remove(keys, k)) && Elems(Remove(keys, k)) == Elems(keys) - {k}
  {
    if keys != [] {
      NoDupTail(keys);
      assert Elems(keys) == {keys[0]} + Elems(keys[1..]);
      if keys[0] != k {
        RemoveOnce(keys[1..], k);
        assert keys[0] !in Elems(Remove(keys[1..], k));
        NoDupCons(keys[0], Remove(keys[1..], k));
        assert Elems(Remove(keys, k)) == {keys[0]} + Elems(Remove(keys[1..], k));
      }
    }
  }

  lemma {:induction false} NothingToRemove(keys: seq<Key>, k: Key)
    requires k !in keys
    ensures Remove(keys, k) == keys
  {
    if keys != [] { NothingToRemove(keys[1..], k); }
  }

  /** The managed-key store. */
  class StateStore {
    var keys: map<Ns, seq<Key>>

    constructor (keys: map<Ns, seq<Key>>)
      ensures this.keys == keys
    {
      this.keys := keys;
    }

    method Add(ns: Ns, managed: seq<Key>)
      modifies this
      ensures keys == old(keys)[ns := managed]
    {
      keys := keys[ns := managed];
    }
  }

  /** The namespaces' labels behind the cluster clients; `raises` says where a label call fails. */
  class Clusters {
    var labels: map<Ns, Labels>
    const raises: set<Ns>

    constructor (labels: map<Ns, Labels>, raises: set<Ns>)
      ensures this.labels == labels && this.raises == raises
    {
      this.labels, this.raises := labels, raises;
    }

    method Label(ns: Ns, change: Change)
      modifies this
      ensures labels == if ns in raises || ns !in old(labels) then old(labels) else old(labels)[ns := ApplyTo(old(labels)[ns], change)]
    {
      if ns !in raises && ns in labels { labels := labels[ns := ApplyTo(labels[ns], change)]; }
    }
  }

  /** The changes found once the keys `done` have been looked at. */
  ghost function ChangesOn(done: set<Key>, desired: Labels, managed: set<Key>, current: Labels): Change {
    map k | k in done && NeedsChange(desired, managed, current, k) :: if k in desired then Some(desired[k]) else None
  }

  lemma OneMoreChange(done: set<Key>, k: Key, desired: Labels, managed: set<Key>, current: Labels)
    ensures var before, after := ChangesOn(done, desired, managed, current), ChangesOn(done + {k}, desired, managed, current);
            after == if NeedsChange(desired, managed, current, k) then before[k := if k in desired then Some(desired[k]) else None] else before
  {
  }

  /** What the inventory knows of one namespace. */
  class Types {
    var desired: Labels
    var current: Option<Labels>
    var managed: Option<seq<Key>>
    var changed: Option<Change>
    var updated: Option<seq<Key>>

    constructor (labels: Labels)
      ensures desired == labels && current == None && managed == None && changed == None && updated == None
    {
      desired, current, managed, changed, updated := labels, None, None, None, None;
    }

    function Managed(): seq<Key>
      reads this
    {
      if managed.Some? then managed.value else []
    }

    function Current(): Labels
      reads this
    {
      if current.Some? then current.value else map[]
    }

    /** The toggled copy of the managed keys, or the keys themselves before the first toggle. */
    function Updated(): seq<Key>
      reads this
    {
      if updated.Some? then updated.value else Managed()
    }

    /** `update_managed_keys`: toggle a key in a copy of the managed list.  A managed key is removed once -
        a second time raises - and any other key is appended, a second time as well. */
    method UpdateManagedKeys(key: Key) returns (ok: bool)
      modifies this`updated
      ensures ok <==> (key in Managed() ==> key in old(Updated()))
      ensures updated == Some(if key in Managed() then Remove(old(Updated()), key) else old(Updated()) + [key])
      ensures !ok ==> Updated() == old(Updated())
    {
      if updated == None { updated := Some(Managed()); }
      if key in Managed() {
        if key !in updated.value {
          NothingToRemove(updated.value, key);
          return false;
        }
        updated := Some(Remove(updated.value, key));
      } else {
        updated := Some(updated.value + [key]);
      }
      return true;
    }

    /** The toggle as `reconcile` uses it: once per key, so that it never raises. */
    method ToggleOnce(key: Key)
      requires NoDup(Updated()) && (key in Managed() <==> key in Updated())
      modifies this`updated
      ensures updated.Some? && NoDup(Updated())
      ensures Elems(Updated()) == if key in Managed() then Elems(old(Updated())) - {key} else Elems(old(Updated())) + {key}
    {
      ghost var keys := Updated();
      if key in Managed() {
        RemoveOnce(keys, key);
      } else {
        assert Elems(keys + [key]) == Elems(keys) + {key};
      }
      var ok := UpdateManagedKeys(key);
      assert ok;
    }

    ghost function Known(): set<Key>
      reads this
    {
      Elems(Managed())
    }

    /** `reconcile` has worked out this namespace. */
    ghost predicate Reconciled()
      reads this
    {
      && changed == Some(Changes(desired, Known(), Current()))
      && NoDup(Updated()) && Elems(Updated()) == Remembered(desired, Known(), Current())
    }

    /** The first loop of `reconcile`: forget keys that are neither desired nor set any more. */
    method CleanUpManaged()
      requires updated == None && NoDup(Managed())
      modifies this`updated
      ensures NoDup(Updated())
      ensures Elems(Updated()) == set k | k in Known() && (k in desired || k in Current())
    {
      var keys := Managed();
      ghost var done: set<Key> := {};
      for i := 0 to |keys|
        invariant NoDup(Updated()) && done == Elems(keys[..i])
        invariant Elems(Updated()) == set k | k in Elems(keys) && (k !in done || k in desired || k in Current())
      {
        var k := keys[i];
        assert k !in keys[..i];
        assert k in Elems(Updated());
        if k !in desired && k !in Current() {
          ToggleOnce(k);
        }
        assert keys[..i + 1] == keys[..i] + [k];
        done := done + {k};
      }
      assert keys[..|keys|] == keys;
    }

    /** One round of the second loop of `reconcile`. */
    method AddDesired(k: Key) returns (conflict: bool)
      requires k in desired && changed.Some? && k !in changed.value && NoDup(Updated())
      requires k !in Current() ==> (k in Known() <==> k in Elems(Updated()))
      modifies this`changed, this`updated
      ensures conflict == IsConflict(desired, Known(), Current(), k)
      ensures changed == if NeedsChange(desired, Known(), Current(), k) then Some(old(changed.value)[k := Some(desired[k])]) else old(changed)
      ensures NoDup(Updated()) && Elems(Updated()) == Elems(old(Updated())) + if k in Current() then {} else {k}
    {
      assert k in Managed() <==> k in Known();
      if k !in Current() {
        if k !in Managed() { ToggleOnce(k); }
        changed := Some(changed.value[k := Some(desired[k])]);
      } else if k !in Managed() {
        return true;
      } else if desired[k] != Current()[k] {
        changed := Some(changed.value[k := Some(desired[k])]);
      }
      return false;
    }

    /** The second loop of `reconcile`: new, conflicting and changed desired labels. */
    method AddAllDesired() returns (conflicts: nat)
      requires changed == Some(map[]) && NoDup(Updated())
      requires Elems(Updated()) == set k | k in Known() && (k in desired || k in Current())
      modifies this`changed, this`updated
      ensures NoDup(Updated()) && Elems(Updated()) == Remembered(desired, Known(), Current())
      ensures changed == Some(ChangesOn(desired.Keys, desired, Known(), Current()))
      ensures conflicts == 0 <==> !HasConflict(desired, Known(), Current())
    {
      conflicts := 0;
      var todo := desired.Keys;
      ghost var m, now, kept := Known(), Current(), Elems(Updated());
      while todo != {}
        invariant todo <= desired.Keys && Known() == m
        invariant NoDup(Updated()) && Elems(Updated()) == kept + ((desired.Keys - todo) - now.Keys)
        invariant changed == Some(ChangesOn(desired.Keys - todo, desired, m, now))
        invariant conflicts == 0 <==> forall k :: k in desired.Keys - todo ==> !IsConflict(desired, m, now, k)
      {
        var k :| k in todo;
        assert desired.Keys - (todo - {k}) == (desired.Keys - todo) + {k};
        OneMoreChange(desired.Keys - todo, k, desired, m, now);
        var conflict := AddDesired(k);
        todo := todo - {k};
        if conflict { conflicts := conflicts + 1; }
      }
      assert desired.Keys - todo == desired.Keys;
    }

    /** The third loop of `reconcile`: managed labels that are not desired any more. */
    method RemoveOld()
      requires changed == Some(ChangesOn(desired.Keys, desired, Known(), Current()))
      modifies this`changed
      ensures changed == Some(Changes(desired, Known(), Current()))
    {
      var now, todo := Current(), Current().Keys;
      ghost var m := Known();
      assert desired.Keys + (now.Keys - todo) == desired.Keys;
      while todo != {}
        invariant todo <= now.Keys
        invariant changed == Some(ChangesOn(desired.Keys + (now.Keys - todo), desired, m, now))
      {
        var k :| k in todo;
        ghost var done := desired.Keys + (now.Keys - todo);
        assert desired.Keys + (now.Keys - (todo - {k})) == done + {k} && (k in desired ==> done + {k} == done);
        OneMoreChange(done, k, desired, m, now);
        assert k in Managed() <==> k in m;
        todo := todo - {k};
        if k in Managed() && k !in desired {
          changed := Some(changed.value[k := None]);
        }
      }
      assert desired.Keys + (now.Keys - todo) == desired.Keys + now.Keys;
    }

    /** `reconcile` for one namespace; the result counts the conflicts. */
    method Reconcile() returns (conflicts: nat)
      requires changed == None && updated == None && NoDup(Managed())
      modifies this`changed, this`updated
      ensures Reconciled()
      ensures conflicts == 0 <==> !HasConflict(desired, Known(), Current())
    {
      changed := Some(map[]);
      CleanUpManaged();
      conflicts := AddAllDesired();
      RemoveOld();
    }
  }

  class Inventory {
    var inv: map<Ns, Types>
    var errors: map<Ns, nat>

    constructor ()
      ensures inv == map[] && errors == map[]
    {
      inv, errors := map[], map[];
    }

    /** Every namespace has types of its own. */
    ghost predicate Valid()
      reads this
    {
      forall a, b :: a in inv && b in inv && a != b ==> inv[a] != inv[b]
    }

    ghost function Objects(): set<Types>
      reads this
    {
      set ns | ns in inv :: inv[ns]
    }

    function Errors(ns: Ns): nat
      reads this
    {
      if ns in errors then errors[ns] else 0
    }

    method AddErrors(ns: Ns, n: nat)
      modifies this`errors
      ensures Errors(ns) == old(Errors(ns)) + n
      ensures forall x :: x != ns ==> Errors(x) == old(Errors(x))
    {
      errors := errors[ns := Errors(ns) + n];
    }

    /** What `get_desired` has made of the definitions `defs`, before the duplicates are dropped. */
    ghost predicate Collected(defs: seq<Definition>, reachable: set<string>, ignored: set<Ns>)
      reads this, Objects()
    {
      && Valid()
      && (forall ns :: Errors(ns) == ErrorsIn(defs, reachable, ns))
      && (forall ns :: ns in inv <==> Accepted(defs, reachable, ns) != [])
      && (forall ns :: ns in ignored <==> |Accepted(defs, reachable, ns)| >= 2)
      && (forall ns :: ns in inv ==> IsNew(inv[ns], Accepted(defs, reachable, ns)[0]))
    }

    /** The loop body of `get_desired`. */
    method Collect(ghost defs: seq<Definition>, d: Definition, reachable: set<string>, ignored: set<Ns>) returns (ignored': set<Ns>)
      requires Collected(defs, reachable, ignored)
      modifies this
      ensures Collected(defs + [d], reachable, ignored') && fresh(Objects() - old(Objects()))
    {
      ignored' := ignored;
      assert (defs + [d])[..|defs|] == defs && (defs + [d])[|defs|] == d;
      if d.labels == None { return; }
      if d.ns.cluster !in reachable { return; }
      AddErrors(d.ns, d.errors);
      if Errors(d.ns) > 0 { return; }
      if d.ns in inv {
        ignored' := ignored + {d.ns};
        return;
      }
      var types := new Types(d.labels.value);
      inv := inv[d.ns := types];
    }

    /** `get_desired`: a namespace stays in the inventory exactly when one single definition of it was
        accepted - reachable, with labels, and without a validation error so far. */
    method GetDesired(defs: seq<Definition>, reachable: set<string>)
      requires inv == map[] && errors == map[]
      modifies this
      ensures Valid() && fresh(Objects())
      ensures forall ns :: Errors(ns) == ErrorsIn(defs, reachable, ns)
      ensures forall ns :: ns in inv <==> |Accepted(defs, reachable, ns)| == 1
      ensures forall ns :: ns in inv ==> IsNew(inv[ns], Accepted(defs, reachable, ns)[0])
    {
      var ignored: set<Ns> := {};
      for k := 0 to |defs|
        invariant Collected(defs[..k], reachable, ignored) && fresh(Objects())
      {
        assert defs[..k + 1] == defs[..k] + [defs[k]];
        ignored := Collect(defs[..k], defs[k], reachable, ignored);
      }
      assert defs[..|defs|] == defs;
      ghost var objects := Objects();
      inv := inv - ignored;
      assert forall t :: t in Objects() ==> t in objects;
    }

    /** `get_managed`: the stored keys of the namespaces in the inventory. */
    method GetManaged(state: StateStore)
      requires Valid() && forall ns :: ns in inv ==> inv[ns].managed == None
      modifies Objects()
      ensures forall t :: t in Objects() ==> t.desired == old(t.desired) && t.current == old(t.current) && t.changed == old(t.changed) && t.updated == old(t.updated)
      ensures forall ns :: ns in inv ==> inv[ns].Managed() == StoreKeys(state.keys, ns)
    {
      var todo := inv.Keys;
      while todo != {}
        invariant todo <= inv.Keys
        invariant forall t :: t in Objects() ==> t.desired == old(t.desired) && t.current == old(t.current) && t.changed == old(t.changed) && t.updated == old(t.updated)
        invariant forall ns :: ns in inv ==> if ns in todo then inv[ns].managed == None else inv[ns].Managed() == StoreKeys(state.keys, ns)
      {
        var ns :| ns in todo;
        todo := todo - {ns};
        if ns !in state.keys { continue; }
        inv[ns].managed := Some(state.keys[ns]);
      }
    }

    /** `get_current`: the labels of every namespace of the clusters that could be listed. */
    method GetCurrent(clusters: Clusters, listed: set<string>)
      requires Valid() && forall ns :: ns in inv ==> inv[ns].current == None
      modifies Objects()
      ensures forall t :: t in Objects() ==> t.desired == old(t.desired) && t.managed == old(t.managed) && t.changed == old(t.changed) && t.updated == old(t.updated)
      ensures forall ns :: ns in inv ==> inv[ns].Current() == Visible(clusters.labels, listed, ns)
    {
      var todo := clusters.labels.Keys;
      while todo != {}
        invariant todo <= clusters.labels.Keys
        invariant forall t :: t in Objects() ==> t.desired == old(t.desired) && t.managed == old(t.managed) && t.changed == old(t.changed) && t.updated == old(t.updated)
        invariant forall ns :: ns in inv ==> if ns in todo then inv[ns].current == None else inv[ns].Current() == Visible(clusters.labels, listed, ns)
      {
        var ns :| ns in todo;
        todo := todo - {ns};
        if ns.cluster !in listed { continue; }
        if ns !in inv { continue; }
        inv[ns].current := Some(clusters.labels[ns]);
      }
    }

    /** `reconcile` has worked out `ns`: its types are complete and a conflict is on record. */
    ghost predicate WorkedOut(ns: Ns)
      requires ns in inv
      reads this, inv[ns]
    {
      inv[ns].Reconciled() && (Errors(ns) == 0 <==> !HasConflict(inv[ns].desired, inv[ns].Known(), inv[ns].Current()))
    }

    /** `reconcile` for one namespace. */
    method ReconcileOne(ns: Ns)
      requires Valid() && ns in inv && Errors(ns) == 0
      requires inv[ns].changed == None && inv[ns].updated == None && NoDup(inv[ns].Managed())
      modifies this`errors, inv[ns]
      ensures WorkedOut(ns) && SameInput(inv[ns], old(inv[ns].desired), old(inv[ns].managed), old(inv[ns].current))
      ensures forall x :: x != ns ==> Errors(x) == old(Errors(x))
      ensures forall x :: x in inv && x != ns && old(WorkedOut(x)) ==> WorkedOut(x)
    {
      var conflicts := inv[ns].Reconcile();
      AddErrors(ns, conflicts);
    }

    /** `reconcile` */
    method Reconcile()
      requires Valid()
      requires forall ns :: ns in inv ==> inv[ns].changed == None && inv[ns].updated == None && NoDup(inv[ns].Managed())
      modifies this`errors, Objects()
      ensures forall t :: t in Objects() ==> SameInput(t, old(t.desired), old(t.managed), old(t.current))
      ensures forall ns :: ns in inv && old(Errors(ns)) == 0 ==> WorkedOut(ns)
      ensures forall ns :: old(Errors(ns)) > 0 || ns !in inv ==> Errors(ns) == old(Errors(ns))
    {
      var todo := inv.Keys;
      while todo != {}
        invariant todo <= inv.Keys
        invariant forall t :: t in Objects() ==> SameInput(t, old(t.desired), old(t.managed), old(t.current))
        invariant forall ns :: ns in todo ==> unchanged(inv[ns]) && Errors(ns) == old(Errors(ns))
        invariant forall ns :: ns in inv && ns !in todo && old(Errors(ns)) == 0 ==> WorkedOut(ns)
        invariant forall ns :: old(Errors(ns)) > 0 || ns !in inv ==> Errors(ns) == old(Errors(ns))
      {
        var ns :| ns in todo;
        todo := todo - {ns};
        if Errors(ns) > 0 { continue; }
        ReconcileOne(ns);
      }
    }

    /** What `realize` leaves in the store for `ns`. */
    ghost function KeysAfter(ns: Ns, before: seq<Key>, dry: bool): seq<Key>
      reads this, set n | n in inv :: inv[n]
    {
      if ns in inv && Errors(ns) == 0 && !dry && inv[ns].updated.Some? && inv[ns].updated.value != [] then inv[ns].updated.value
      else before
    }

    /** What `realize` leaves on the namespace. */
    ghost function LabelsAfter(ns: Ns, before: Labels, raises: set<Ns>, dry: bool): Labels
      reads this, set n | n in inv :: inv[n]
    {
      if ns in inv && Errors(ns) == 0 && !dry && inv[ns].changed.Some? && ns !in raises then ApplyTo(before, inv[ns].changed.value)
      else before
    }

    /** `label` */
    method Label(ns: Ns, clusters: Clusters, dry: bool)
      requires ns in inv
      modifies clusters
      ensures clusters.labels.Keys == old(clusters.labels).Keys
      ensures forall x :: x in clusters.labels ==>
                clusters.labels[x] == if x == ns then LabelsAfter(ns, old(clusters.labels)[x], clusters.raises, dry) else old(clusters.labels)[x]
    {
      if Errors(ns) > 0 { return; }
      if inv[ns].changed == None { return; }
      var changed := inv[ns].changed.value;
      if changed == map[] {
        forall x | x in clusters.labels ensures ApplyTo(clusters.labels[x], map[]) == clusters.labels[x] {}
        return;
      }
      if !dry { clusters.Label(ns, changed); }
    }

    /** `realize`: first every store write, then every label call. */
    method Realize(state: StateStore, clusters: Clusters, dry: bool)
      modifies state, clusters
      ensures forall ns :: StoreKeys(state.keys, ns) == KeysAfter(ns, StoreKeys(old(state.keys), ns), dry)
      ensures clusters.labels.Keys == old(clusters.labels).Keys
      ensures forall ns :: ns in clusters.labels ==> clusters.labels[ns] == LabelsAfter(ns, old(clusters.labels)[ns], clusters.raises, dry)
    {
      WriteStore(state, dry);
      LabelAll(clusters, dry);
    }

    /** The label calls of `realize`. */
    method LabelAll(clusters: Clusters, dry: bool)
      modifies clusters
      ensures clusters.labels.Keys == old(clusters.labels).Keys
      ensures forall ns :: ns in clusters.labels ==> clusters.labels[ns] == LabelsAfter(ns, old(clusters.labels)[ns], clusters.raises, dry)
    {
      var todo := inv.Keys;
      while todo != {}
        invariant todo <= inv.Keys && clusters.labels.Keys == old(clusters.labels).Keys
        invariant forall ns :: ns in clusters.labels ==>
                    clusters.labels[ns] == if ns in todo then old(clusters.labels)[ns] else LabelsAfter(ns, old(clusters.labels)[ns], clusters.raises, dry)
      {
        var ns :| ns in todo;
        todo := todo - {ns};
        Label(ns, clusters, dry);
      }
    }

    /** The store loop of `realize`: an empty key list is not written. */
    method WriteStore(state: StateStore, dry: bool)
      modifies state
      ensures forall ns :: StoreKeys(state.keys, ns) == KeysAfter(ns, StoreKeys(old(state.keys), ns), dry)
    {
      var todo := inv.Keys;
      while todo != {}
        invariant todo <= inv.Keys
        invariant forall ns :: var before := StoreKeys(old(state.keys), ns);
                    StoreKeys(state.keys, ns) == if ns in todo then before else KeysAfter(ns, before, dry)
      {
        var ns :| ns in todo;
        todo := todo - {ns};
        if Errors(ns) > 0 { continue; }
        if inv[ns].updated.Some? && inv[ns].updated.value != [] {
          if !dry { state.Add(ns, inv[ns].updated.value); }
        }
      }
    }
  }

  ghost predicate SameInput(t: Types, desired: Labels, managed: Option<seq<Key>>, current: Option<Labels>)
    reads t
  {
    t.desired == desired && t.managed == managed && t.current == current
  }

  ghost predicate IsNew(t: Types, labels: Labels)
    reads t
  {
    t.desired == labels && t.current == None && t.managed == None && t.changed == None && t.updated == None
  }

  predicate IsLooked(d: Definition, reachable: set<string>, ns: Ns) {
    d.ns == ns && d.labels.Some? && ns.cluster in reachable
  }

  function ErrorsIn(defs: seq<Definition>, reachable: set<string>, ns: Ns): nat {
    if defs == [] then 0
    else
      var n := |defs| - 1;
      ErrorsIn(defs[..n], reachable, ns) + if IsLooked(defs[n], reachable, ns) then defs[n].errors else 0
  }

  /** The label sets accepted for `ns`, in order. */
  function Accepted(defs: seq<Definition>, reachable: set<string>, ns: Ns): seq<Labels> {
    if defs == [] then []
    else
      var n := |defs| - 1;
      var before := Accepted(defs[..n], reachable, ns);
      if IsLooked(defs[n], reachable, ns) && ErrorsIn(defs, reachable, ns) == 0 then before + [defs[n].labels.value] else before
  }

  /** Definition `k` is the only one that names the namespace with labels, its cluster can be reached, and it
      is without errors. */
  ghost predicate IsOnly(defs: seq<Definition>, reachable: set<string>, ns: Ns, k: nat) {
    && k < |defs| && ns.cluster in reachable
    && defs[k].ns == ns && defs[k].labels != None && defs[k].errors == 0
    && forall j :: 0 <= j < |defs| && j != k ==> defs[j].ns != ns || defs[j].labels == None
  }

  lemma {:induction false} NoneLooked(defs: seq<Definition>, reachable: set<string>, ns: Ns)
    requires forall j :: 0 <= j < |defs| ==> !IsLooked(defs[j], reachable, ns)
    ensures Accepted(defs, reachable, ns) == [] && ErrorsIn(defs, reachable, ns) == 0
  {
    if defs != [] { NoneLooked(defs[..|defs| - 1], reachable, ns); }
  }

  lemma {:induction false} SomeLooked(defs: seq<Definition>, reachable: set<string>, ns: Ns, k: nat)
    requires k < |defs| && IsLooked(defs[k], reachable, ns) && ErrorsIn(defs, reachable, ns) == 0
    ensures Accepted(defs, reachable, ns) != [] && defs[k].errors == 0
    ensures |Accepted(defs, reachable, ns)| == 1 ==>
              && Accepted(defs, reachable, ns)[0] == defs[k].labels.value
              && forall j :: 0 <= j < |defs| && j != k ==> !IsLooked(defs[j], reachable, ns)
  {
    var n := |defs| - 1;
    if k < n {
      SomeLooked(defs[..n], reachable, ns, k);
      forall j | 0 <= j < n && j != k && |Accepted(defs[..n], reachable, ns)| == 1 ensures !IsLooked(defs[j], reachable, ns) { assert defs[..n][j] == defs[j]; }
    } else {
      if Accepted(defs[..n], reachable, ns) == [] {
        forall j | 0 <= j < n ensures !IsLooked(defs[j], reachable, ns) {
          if IsLooked(defs[j], reachable, ns) { SomeLooked(defs[..n], reachable, ns, j); }
        }
      }
    }
  }

  /** A run touches a namespace exactly if a single definition names it with labels, on a cluster that can be
      reached and without errors; then it desires that definition's labels. */
  lemma {:induction false} TouchedIff(defs: seq<Definition>, reachable: set<string>, ns: Ns)
    ensures |Accepted(defs, reachable, ns)| == 1 && ErrorsIn(defs, reachable, ns) == 0 <==> exists k: nat :: IsOnly(defs, reachable, ns, k)
    ensures forall k: nat :: IsOnly(defs, reachable, ns, k) ==> Accepted(defs, reachable, ns) == [defs[k].labels.value]
  {
    forall k: nat | IsOnly(defs, reachable, ns, k)
      ensures Accepted(defs, reachable, ns) == [defs[k].labels.value] && ErrorsIn(defs, reachable, ns) == 0
    {
      OnlyIsAccepted(defs, reachable, ns, k);
    }
    if |Accepted(defs, reachable, ns)| == 1 && ErrorsIn(defs, reachable, ns) == 0 {
      if forall j :: 0 <= j < |defs| ==> !IsLooked(defs[j], reachable, ns) { NoneLooked(defs, reachable, ns); }
      var k :| 0 <= k < |defs| && IsLooked(defs[k], reachable, ns);
      SomeLooked(defs, reachable, ns, k);
      assert IsOnly(defs, reachable, ns, k);
    }
  }

  lemma {:induction false} OnlyIsAccepted(defs: seq<Definition>, reachable: set<string>, ns: Ns, k: nat)
    requires IsOnly(defs, reachable, ns, k)
    ensures Accepted(defs, reachable, ns) == [defs[k].labels.value] && ErrorsIn(defs, reachable, ns) == 0
  {
    var n := |defs| - 1;
    if k < n {
      OnlyIsAccepted(defs[..n], reachable, ns, k);
    } else {
      NoneLooked(defs[..n], reachable, ns);
    }
  }

  function StoreKeys(keys: map<Ns, seq<Key>>, ns: Ns): seq<Key> {
    if ns in keys then keys[ns] else []
  }

  function Visible(labels: map<Ns, Labels>, listed: set<string>, ns: Ns): Labels {
    if ns.cluster in listed && ns in labels then labels[ns] else map[]
  }

  /** The state of a namespace as module NamespaceLabels sees it. */
  ghost function StateOf(labels: map<Ns, Labels>, keys: map<Ns, seq<Key>>, ns: Ns): State {
    State(if ns in labels then labels[ns] else map[], Elems(StoreKeys(keys, ns)))
  }

  ghost predicate NoDupKeys(keys: map<Ns, seq<Key>>) {
    forall ns :: ns in keys ==> NoDup(keys[ns])
  }

  /** The step a whole run makes of namespace `ns`. */
  ghost function StepOf(defs: seq<Definition>, reachable: set<string>, listed: set<string>, raises: set<Ns>, dry: bool, ns: Ns): Step
    requires |Accepted(defs, reachable, ns)| == 1
  {
    Run(Accepted(defs, reachable, ns)[0], ns.cluster in listed, dry, if ns in raises then BeforeLabels else Never)
  }

  /** What one run leaves of one namespace, whatever the loops did. */
  lemma OneNamespace(inventory: Inventory, labels: map<Ns, Labels>, keys: map<Ns, seq<Key>>, listed: set<string>, raises: set<Ns>, dry: bool, ns: Ns)
    requires ns in inventory.inv && ns in labels && inventory.WorkedOut(ns)
    requires inventory.inv[ns].Managed() == StoreKeys(keys, ns) && inventory.inv[ns].Current() == Visible(labels, listed, ns)
    ensures State(inventory.LabelsAfter(ns, labels[ns], raises, dry), Elems(inventory.KeysAfter(ns, StoreKeys(keys, ns), dry)))
      == Next(StateOf(labels, keys, ns), Run(inventory.inv[ns].desired, ns.cluster in listed, dry, if ns in raises then BeforeLabels else Never))
  {
    var t := inventory.inv[ns];
    if t.updated.Some? { ElemsEmpty(t.updated.value); }
    var known := Elems(StoreKeys(keys, ns));
    assert t.updated == None ==> Remembered(t.desired, known, t.Current()) == known;
  }

  lemma ElemsEmpty(keys: seq<Key>)
    ensures keys == [] <==> Elems(keys) == {}
  {
    if keys != [] { assert keys[0] in Elems(keys); }
  }

  /** The inventory holds what one run plans for every accepted namespace. */
  ghost predicate Ready(inventory: Inventory, defs: seq<Definition>, reachable: set<string>, listed: set<string>, labels: map<Ns, Labels>, keys: map<Ns, seq<Key>>)
    reads inventory, inventory.Objects()
  {
    && (forall ns :: ns in inventory.inv <==> |Accepted(defs, reachable, ns)| == 1)
    && (forall ns :: ErrorsIn(defs, reachable, ns) > 0 ==> inventory.Errors(ns) > 0)
    && (forall ns :: ns in inventory.inv && ErrorsIn(defs, reachable, ns) == 0 ==>
          && inventory.WorkedOut(ns)
          && inventory.inv[ns].desired == Accepted(defs, reachable, ns)[0]
          && inventory.inv[ns].Managed() == StoreKeys(keys, ns) && inventory.inv[ns].Current() == Visible(labels, listed, ns))
  }

  /** Everything before `realize`: collect the three kinds of labels and work out the changes. */
  method Prepare(defs: seq<Definition>, reachable: set<string>, listed: set<string>, state: StateStore, clusters: Clusters) returns (inventory: Inventory)
    requires NoDupKeys(state.keys)
    ensures fresh(inventory) && fresh(inventory.Objects())
    ensures Ready(inventory, defs, reachable, listed, clusters.labels, state.keys)
  {
    inventory := new Inventory();
    inventory.GetDesired(defs, reachable);
    inventory.GetManaged(state);
    inventory.GetCurrent(clusters, listed);
    inventory.Reconcile();
  }

  /** `run_integration`, from the collected definitions on. */
  method RunOnce(defs: seq<Definition>, reachable: set<string>, listed: set<string>, state: StateStore, clusters: Clusters, dry: bool)
    requires NoDupKeys(state.keys)
    modifies state, clusters
    ensures clusters.labels.Keys == old(clusters.labels).Keys && NoDupKeys(state.keys)
    ensures forall ns :: ns in clusters.labels && |Accepted(defs, reachable, ns)| == 1 && ErrorsIn(defs, reachable, ns) == 0 ==>
              StateOf(clusters.labels, state.keys, ns)
                == Next(StateOf(old(clusters.labels), old(state.keys), ns), StepOf(defs, reachable, listed, clusters.raises, dry, ns))
    ensures forall ns :: |Accepted(defs, reachable, ns)| != 1 || ErrorsIn(defs, reachable, ns) > 0 ==>
              StateOf(clusters.labels, state.keys, ns) == StateOf(old(clusters.labels), old(state.keys), ns)
  {
    var inventory := Prepare(defs, reachable, listed, state, clusters);
    inventory.Realize(state, clusters, dry);
    forall ns | ns in state.keys ensures NoDup(state.keys[ns]) {
      var before := StoreKeys(old(state.keys), ns);
      assert NoDup(before) && state.keys[ns] == inventory.KeysAfter(ns, before, dry);
      if state.keys[ns] != before { assert inventory.WorkedOut(ns); }
    }
    forall ns | ns in clusters.labels && |Accepted(defs, reachable, ns)| == 1 && ErrorsIn(defs, reachable, ns) == 0
      ensures StateOf(clusters.labels, state.keys, ns)
        == Next(StateOf(old(clusters.labels), old(state.keys), ns), StepOf(defs, reachable, listed, clusters.raises, dry, ns))
    {
      OneNamespace(inventory, old(clusters.labels), old(state.keys), listed, clusters.raises, dry, ns);
    }
  }

  /** A whole run: every namespace with one single definition - with labels, without errors, on a cluster that
      can be reached - makes exactly the step of module NamespaceLabels for that definition; every other
      one is left alone. */
  method RunIntegration(defs: seq<Definition>, reachable: set<string>, listed: set<string>, state: StateStore, clusters: Clusters, dry: bool)
    requires NoDupKeys(state.keys)
    modifies state, clusters
    ensures clusters.labels.Keys == old(clusters.labels).Keys && NoDupKeys(state.keys)
    ensures forall ns, k: nat :: ns in clusters.labels && IsOnly(defs, reachable, ns, k) ==>
              StateOf(clusters.labels, state.keys, ns)
                == Next(StateOf(old(clusters.labels), old(state.keys), ns),
                        Run(defs[k].labels.value, ns.cluster in listed, dry, if ns in clusters.raises then BeforeLabels else Never))
    ensures forall ns :: (forall k: nat :: !IsOnly(defs, reachable, ns, k)) ==>
              StateOf(clusters.labels, state.keys, ns) == StateOf(old(clusters.labels), old(state.keys), ns)
  {
    RunOnce(defs, reachable, listed, state, clusters, dry);
    forall ns { TouchedIff(defs, reachable, ns); }
  }
}
