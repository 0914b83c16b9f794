/** The realization task of `openshift_base` as it runs: four handlers loop over the parts of a diff,
    in any order within a part, and change the cluster, the inventory's error flags and the options.
    The loops differ only in what they do to one name, so they are written once: `HandleEach` is the
    loop of all four handlers, and `HandleOne` takes the branch of the part that the name is in. */
module OpenshiftBase {
  import opened Common
  import opened OpenshiftRealize
  import opened OpenshiftOutcome

  /** One (cluster, namespace, kind) behind its client. */
  class OcClient {
    var live: map<Name, Live>
    const env: Env

    constructor (live: map<Name, Live>, env: Env)
      ensures this.live == live && this.env == env
    {
      this.live, this.env := live, env;
    }

    /** `oc apply`: sets the object or is refused. */
    method Apply(name: Name, resource: Want) returns (ok: bool)
      modifies this
      ensures ok == !env.refuses(name)
      ensures live == if ok then old(live)[name := Stamped(resource, Lookup(old(live), name))] else old(live)
    {
      ok := !env.refuses(name);
      if ok { live := live[name := Stamped(resource, Lookup(live, name))]; }
    }

    /** `oc delete` */
    method Delete(name: Name) returns (ok: bool)
      modifies this
      ensures ok == !env.refuses(name)
      ensures live == if ok then old(live) - {name} else old(live)
    {
      ok := !env.refuses(name);
      if ok { live := live - {name}; }
    }
  }

  class ResourceInventory {
    var errorRegistered: bool
    var errorClusters: set<string>

    constructor ()
      ensures !errorRegistered && errorClusters == {}
    {
      errorRegistered, errorClusters := false, {};
    }

    /** `register_error` without a cluster, as the handlers call it: the flags of the clusters are set
        while the current state is fetched. */
    method RegisterError()
      modifies this`errorRegistered
      ensures errorRegistered
    {
      errorRegistered := true;
    }
  }

  /** The inventory's data for one kind. */
  class Data {
    var current: map<Name, Live>
    var desired: map<Name, Want>
    var useAdminToken: map<Name, bool>
    const recycles: bool

    constructor (t: Entry)
      ensures Contents() == t
    {
      current, desired, useAdminToken, recycles := t.current, t.desired, t.admin, t.recycles;
    }

    ghost function Contents(): Entry
      reads this
    {
      Entry(current, desired, useAdminToken, recycles)
    }
  }

  class ApplyOptions {
    const o: Opts
    var privileged: bool
    var enableDeletion: bool

    constructor (o: Opts)
      ensures this.o == o && !privileged && !enableDeletion
    {
      this.o, privileged, enableDeletion := o, false, false;
    }
  }

  datatype Action = Action(name: Name, verdict: Verdict, privileged: bool)

  ghost predicate IsPlanned(t: Entry, n: Name, o: Opts) {
    Decide(t, n, o) == Apply || Decide(t, n, o) == Delete
  }

  /** One action for every name that gets one, and no other. */
  ghost predicate ActionsFor(t: Entry, ns: set<Name>, actions: seq<Action>, o: Opts) {
    && (forall a :: a in actions <==> a.name in ns && IsPlanned(t, a.name, o) && a == Action(a.name, Decide(t, a.name, o), Privileged(t, a.name)))
    && (forall i, j :: 0 <= i < j < |actions| ==> actions[i].name != actions[j].name)
  }

  /** From objects `live0` and error flag `err0`, the names `ns` have been handled. */
  ghost predicate Worked(t: Entry, ns: set<Name>, live0: map<Name, Live>, err0: bool, live: map<Name, Live>, err: bool,
                         actions: seq<Action>, enable: bool, o: Opts, e: Env) {
    && live == After(t, live0, ns, enable, o, e)
    && err == (err0 || Fails(t, live0, ns, enable, o, e))
    && ActionsFor(t, ns, actions, o)
  }

  /** An action that is called for: an apply or a deletion, with admin rights where the entry asks for them. */
  ghost predicate IsCalledFor(t: Entry, a: Action, o: Opts) {
    && ((a.verdict == Apply && ToApply(t, a.name, o)) || (a.verdict == Delete && ToDelete(t, a.name, o)))
    && a.privileged == (a.name in t.admin && t.admin[a.name])
  }

  lemma ActionsAre(t: Entry, actions: seq<Action>, o: Opts)
    requires ActionsFor(Patched(t), Names(t), actions, o)
    ensures forall a :: a in actions <==> IsCalledFor(t, a, o)
  {
    forall a ensures a in actions <==> IsCalledFor(t, a, o) { VerdictIs(t, a.name, o); }
  }

  lemma WorkedNothing(t: Entry, live: map<Name, Live>, err: bool, enable: bool, o: Opts, e: Env)
    ensures Worked(t, {}, live, err, live, err, [], enable, o, e)
  {
    AfterNothing(t, live, enable, o, e);
  }

  lemma WorkedMore(t: Entry, ns: set<Name>, n: Name, live0: map<Name, Live>, err0: bool, live: map<Name, Live>, err: bool,
                   actions: seq<Action>, enable: bool, o: Opts, e: Env)
    requires Worked(t, ns, live0, err0, live, err, actions, enable, o, e) && n !in ns
    ensures Lookup(live, n) == Lookup(live0, n)
    ensures var effect := Handle(t, n, Lookup(live, n), enable, o, e);
            var a := if IsPlanned(t, n, o) then [Action(n, Decide(t, n, o), Privileged(t, n))] else [];
            Worked(t, ns + {n}, live0, err0, Put(live, n, effect.live), err || effect.error, actions + a, enable, o, e)
  {
    AfterOneMore(t, live0, ns, n, enable, o, e);
    var effect := Handle(t, n, Lookup(live, n), enable, o, e);
    assert Fails(t, live0, ns + {n}, enable, o, e) <==> Fails(t, live0, ns, enable, o, e) || effect.error by {
      if effect.error { assert n in ns + {n}; }
      if Fails(t, live0, ns, enable, o, e) {
        var x :| x in ns && Handle(t, x, Lookup(live0, x), enable, o, e).error;
        assert x in ns + {n};
      }
    }
    MoreActions(t, ns, n, actions, o);
  }

  lemma MoreActions(t: Entry, ns: set<Name>, n: Name, actions: seq<Action>, o: Opts)
    requires ActionsFor(t, ns, actions, o) && n !in ns
    ensures var a := if IsPlanned(t, n, o) then [Action(n, Decide(t, n, o), Privileged(t, n))] else [];
            ActionsFor(t, ns + {n}, actions + a, o)
  {
    var a := if IsPlanned(t, n, o) then [Action(n, Decide(t, n, o), Privileged(t, n))] else [];
    forall x ensures x in actions + a <==> x in actions || x in a {}
    forall i | 0 <= i < |actions| ensures actions[i].name != n { assert actions[i] in actions; }
  }

  lemma PutSame(live: map<Name, Live>, n: Name)
    ensures Put(live, n, Lookup(live, n)) == live
  {
  }

  // --- Acting on one name ---------------------------------------------------------------

  /** `apply_action`: only errors of the API server are caught, and registered. */
  method ApplyAction(oc: OcClient, ri: ResourceInventory, name: Name, resource: Want, options: ApplyOptions)
    modifies oc, ri`errorRegistered
    ensures var effect := DoApply(Lookup(old(oc.live), name), resource, name, options.privileged, options.o, oc.env);
            && oc.live == Put(old(oc.live), name, effect.live)
            && ri.errorRegistered == (old(ri.errorRegistered) || effect.error)
  {
    PutSame(oc.live, name);
    if !oc.env.reach(options.privileged) { return; }
    if options.o.dry { return; }
    if !oc.env.present {
      if options.o.wait { ri.RegisterError(); }
      return;
    }
    var ok := oc.Apply(name, resource);
    if !ok { ri.RegisterError(); }
  }

  /** `delete_action` */
  method DeleteAction(oc: OcClient, ri: ResourceInventory, name: Name, options: ApplyOptions)
    modifies oc, ri`errorRegistered
    ensures var effect := DoDelete(Lookup(old(oc.live), name), name, options.privileged, options.enableDeletion, options.o, oc.env);
            && oc.live == Put(old(oc.live), name, effect.live)
            && ri.errorRegistered == (old(ri.errorRegistered) || effect.error)
  {
    PutSame(oc.live, name);
    if !options.enableDeletion { return; }
    if !oc.env.reach(options.privileged) { return; }
    if options.o.dry { return; }
    var ok := oc.Delete(name);
    if !ok { ri.RegisterError(); }
  }

  /** `should_apply` */
  method ShouldApply(current: Live, ri: ResourceInventory, o: Opts) returns (yes: bool)
    modifies ri`errorRegistered
    ensures yes == (ForModified(current, o) == Apply)
    ensures ri.errorRegistered == (old(ri.errorRegistered) || ForModified(current, o) == Complain)
  {
    if !o.dry && o.skipCompare { return true; }
    if !o.takeOver && o.caller.Some? && current.marks.caller != o.caller && o.allCallers != {}
       && current.marks.caller.Some? && current.marks.caller.value in o.allCallers {
      ri.RegisterError();
      return false;
    }
    return true;
  }

  /** `should_take_over` */
  method ShouldTakeOver(current: Live, ri: ResourceInventory, o: Opts) returns (yes: bool)
    modifies ri`errorRegistered
    ensures yes == (ForIdentical(current, o) == Apply)
    ensures ri.errorRegistered == (old(ri.errorRegistered) || ForIdentical(current, o) == Complain)
  {
    if o.caller.Some? && o.caller != current.marks.caller {
      if o.takeOver || (o.allCallers != {} && !(current.marks.caller.Some? && current.marks.caller.value in o.allCallers)) {
        return true;
      }
      ri.RegisterError();
    }
    return false;
  }

  /** `should_delete` */
  method ShouldDelete(current: Live, o: Opts) returns (yes: bool)
    ensures yes == (ForDeleted(current, o) == Delete)
  {
    if HasAnnotations(current, o) {
      if o.caller.Some? && current.marks.caller != o.caller { return false; }
    } else if !o.takeOver {
      return false;
    } else if current.owned {
      return false;
    }
    return true;
  }

  // --- The handlers ---------------------------------------------------------------------

  /** From objects `live0` and error flag `err0`, one name has been handled. */
  ghost predicate Stepped(t: Entry, n: Name, live0: map<Name, Live>, err0: bool, live: map<Name, Live>, err: bool,
                          actions: seq<Action>, enable: bool, o: Opts, e: Env) {
    var effect := Handle(t, n, Lookup(live0, n), enable, o, e);
    && live == Put(live0, n, effect.live) && err == (err0 || effect.error)
    && actions == if IsPlanned(t, n, o) then [Action(n, Decide(t, n, o), Privileged(t, n))] else []
  }

  /** The loop body of `handle_identical_resources`. */
  method HandleIdentical(oc: OcClient, ri: ResourceInventory, name: Name, data: Data, options: ApplyOptions) returns (actions: seq<Action>)
    requires name in data.current && name in data.desired && IsSame(data.current[name], data.desired[name])
    modifies oc, ri`errorRegistered, options`privileged
    ensures Stepped(data.Contents(), name, old(oc.live), old(ri.errorRegistered), oc.live, ri.errorRegistered,
                    actions, options.enableDeletion, options.o, oc.env)
  {
    PutSame(oc.live, name);
    var takeOver := ShouldTakeOver(data.current[name], ri, options.o);
    if !takeOver { return []; }
    options.privileged := name in data.useAdminToken && data.useAdminToken[name];
    actions := [Action(name, Apply, options.privileged)];
    ApplyAction(oc, ri, name, data.desired[name], options);
  }

  /** The loop body of `handle_modified_resources`. */
  method HandleModified(oc: OcClient, ri: ResourceInventory, name: Name, data: Data, options: ApplyOptions) returns (actions: seq<Action>)
    requires name in data.current && name in data.desired && !IsSame(data.current[name], data.desired[name])
    modifies oc, ri`errorRegistered, options`privileged
    ensures Stepped(data.Contents(), name, old(oc.live), old(ri.errorRegistered), oc.live, ri.errorRegistered,
                    actions, options.enableDeletion, options.o, oc.env)
  {
    PutSame(oc.live, name);
    var apply := ShouldApply(data.current[name], ri, options.o);
    if !apply { return []; }
    options.privileged := name in data.useAdminToken && data.useAdminToken[name];
    actions := [Action(name, Apply, options.privileged)];
    ApplyAction(oc, ri, name, data.desired[name], options);
  }

  /** The loop body of `handle_deleted_resources`. */
  method HandleDeleted(oc: OcClient, ri: ResourceInventory, name: Name, data: Data, options: ApplyOptions) returns (actions: seq<Action>)
    requires name in data.current && name !in data.desired
    modifies oc, ri`errorRegistered, options`privileged
    ensures Stepped(data.Contents(), name, old(oc.live), old(ri.errorRegistered), oc.live, ri.errorRegistered,
                    actions, options.enableDeletion, options.o, oc.env)
  {
    PutSame(oc.live, name);
    var delete := ShouldDelete(data.current[name], options.o);
    if !delete { return []; }
    options.privileged := name in data.useAdminToken && data.useAdminToken[name];
    actions := [Action(name, Delete, options.privileged)];
    DeleteAction(oc, ri, name, options);
  }

  /** The loop body of `handle_new_resources`. */
  method HandleNew(oc: OcClient, ri: ResourceInventory, name: Name, data: Data, options: ApplyOptions) returns (actions: seq<Action>)
    requires name !in data.current && name in data.desired
    modifies oc, ri`errorRegistered, options`privileged
    ensures Stepped(data.Contents(), name, old(oc.live), old(ri.errorRegistered), oc.live, ri.errorRegistered,
                    actions, options.enableDeletion, options.o, oc.env)
  {
    options.privileged := name in data.useAdminToken && data.useAdminToken[name];
    actions := [Action(name, Apply, options.privileged)];
    ApplyAction(oc, ri, name, data.desired[name], options);
  }

  /** The loop body of the handler that `name` belongs to. */
  method HandleOne(oc: OcClient, ri: ResourceInventory, name: Name, data: Data, options: ApplyOptions) returns (actions: seq<Action>)
    requires name in data.current || name in data.desired
    modifies oc, ri`errorRegistered, options`privileged
    ensures Stepped(data.Contents(), name, old(oc.live), old(ri.errorRegistered), oc.live, ri.errorRegistered,
                    actions, options.enableDeletion, options.o, oc.env)
  {
    if name !in data.current {
      actions := HandleNew(oc, ri, name, data, options);
    } else if name !in data.desired {
      actions := HandleDeleted(oc, ri, name, data, options);
    } else if IsSame(data.current[name], data.desired[name]) {
      actions := HandleIdentical(oc, ri, name, data, options);
    } else {
      actions := HandleModified(oc, ri, name, data, options);
    }
  }

  /** The loop that the four handlers share in shape, over the names of one part in any order. */
  method HandleEach(oc: OcClient, ri: ResourceInventory, names: set<Name>, data: Data, options: ApplyOptions)
    returns (actions: seq<Action>)
    requires names <= data.current.Keys + data.desired.Keys
    modifies oc, ri`errorRegistered, options`privileged
    ensures Worked(data.Contents(), names, old(oc.live), old(ri.errorRegistered), oc.live, ri.errorRegistered,
                   actions, options.enableDeletion, options.o, oc.env)
  {
    actions := [];
    ghost var t := data.Contents();
    var todo := names;
    WorkedNothing(t, oc.live, ri.errorRegistered, options.enableDeletion, options.o, oc.env);
    while todo != {}
      invariant todo <= names && options.enableDeletion == old(options.enableDeletion)
      invariant Worked(t, names - todo, old(oc.live), old(ri.errorRegistered), oc.live, ri.errorRegistered,
                       actions, options.enableDeletion, options.o, oc.env)
    {
      var name :| name in todo;
      WorkedMore(t, names - todo, name, old(oc.live), old(ri.errorRegistered), oc.live, ri.errorRegistered,
                 actions, options.enableDeletion, options.o, oc.env);
      assert names - (todo - {name}) == names - todo + {name};
      todo := todo - {name};
      var more := HandleOne(oc, ri, name, data, options);
      actions := actions + more;
    }
    assert names - todo == names;
  }

  /** `handle_identical_resources` */
  method HandleIdenticalResources(oc: OcClient, ri: ResourceInventory, identical: set<Name>, data: Data, options: ApplyOptions)
    returns (actions: seq<Action>)
    requires forall n :: n in identical ==> n in data.current && n in data.desired && IsSame(data.current[n], data.desired[n])
    modifies oc, ri`errorRegistered, options`privileged
    ensures Worked(data.Contents(), identical, old(oc.live), old(ri.errorRegistered), oc.live, ri.errorRegistered,
                   actions, options.enableDeletion, options.o, oc.env)
  {
    actions := HandleEach(oc, ri, identical, data, options);
  }

  /** `handle_new_resources` */
  method HandleNewResources(oc: OcClient, ri: ResourceInventory, added: set<Name>, data: Data, options: ApplyOptions)
    returns (actions: seq<Action>)
    requires forall n :: n in added ==> n !in data.current && n in data.desired
    modifies oc, ri`errorRegistered, options`privileged
    ensures Worked(data.Contents(), added, old(oc.live), old(ri.errorRegistered), oc.live, ri.errorRegistered,
                   actions, options.enableDeletion, options.o, oc.env)
  {
    actions := HandleEach(oc, ri, added, data, options);
  }

  /** `handle_modified_resources` */
  method HandleModifiedResources(oc: OcClient, ri: ResourceInventory, modified: set<Name>, data: Data, options: ApplyOptions)
    returns (actions: seq<Action>)
    requires forall n :: n in modified ==> n in data.current && n in data.desired && !IsSame(data.current[n], data.desired[n])
    modifies oc, ri`errorRegistered, options`privileged
    ensures Worked(data.Contents(), modified, old(oc.live), old(ri.errorRegistered), oc.live, ri.errorRegistered,
                   actions, options.enableDeletion, options.o, oc.env)
  {
    actions := HandleEach(oc, ri, modified, data, options);
  }

  /** `handle_deleted_resources` */
  method HandleDeletedResources(oc: OcClient, ri: ResourceInventory, deleted: set<Name>, data: Data, options: ApplyOptions)
    returns (actions: seq<Action>)
    requires forall n :: n in deleted ==> n in data.current && n !in data.desired
    modifies oc, ri`errorRegistered, options`privileged
    ensures Worked(data.Contents(), deleted, old(oc.live), old(ri.errorRegistered), oc.live, ri.errorRegistered,
                   actions, options.enableDeletion, options.o, oc.env)
  {
    actions := HandleEach(oc, ri, deleted, data, options);
  }

  // --- One realization --------------------------------------------------------------------

  /** The in-place patching of the desired objects. */
  method PatchDesired(data: Data)
    modifies data`desired
    ensures data.Contents() == Patched(old(data.Contents()))
  {
    var shared := data.current.Keys * data.desired.Keys;
    var todo := shared;
    ghost var t := data.Contents();
    while todo != {}
      invariant todo <= shared && data.desired.Keys == t.desired.Keys
      invariant forall n :: n in t.desired ==> data.desired[n] == (if n in shared - todo then Patch(t.recycles, t.desired[n], t.current[n]) else t.desired[n])
    {
      var name :| name in todo;
      todo := todo - {name};
      data.desired := data.desired[name := Patch(data.recycles, data.desired[name], data.current[name])];
    }
    assert data.desired == Patched(t).desired;
  }

  /** `diff_mappings` with the three-way comparison, which may raise. */
  method DiffMappings(data: Data) returns (ok: bool, add: set<Name>, delete: set<Name>, change: set<Name>, identical: set<Name>)
    ensures ok == !Raises(data.Contents())
    ensures add == data.desired.Keys - data.current.Keys && delete == data.current.Keys - data.desired.Keys
    ensures ok ==> change + identical == data.current.Keys * data.desired.Keys
    ensures forall n :: n in identical ==> n in data.current && n in data.desired && IsSame(data.current[n], data.desired[n])
    ensures forall n :: n in change ==> n in data.current && n in data.desired && !IsSame(data.current[n], data.desired[n])
  {
    add, delete := data.desired.Keys - data.current.Keys, data.current.Keys - data.desired.Keys;
    change, identical := {}, {};
    var shared := data.current.Keys * data.desired.Keys;
    var todo := shared;
    while todo != {}
      invariant todo <= shared && change + identical == shared - todo
      invariant forall n :: n in identical ==> n in shared && IsSame(data.current[n], data.desired[n])
      invariant forall n :: n in change ==> n in shared && !IsSame(data.current[n], data.desired[n])
      invariant forall n :: n in shared - todo ==> !(data.current[n].marks.sha.Some? && data.current[n].marks.integration.None?)
    {
      var name :| name in todo;
      if data.current[name].marks.sha.Some? && data.current[name].marks.integration.None? {
        return false, add, delete, change, identical;
      }
      todo := todo - {name};
      if IsSame(data.current[name], data.desired[name]) {
        identical := identical + {name};
      } else {
        change := change + {name};
      }
    }
    ok := true;
  }

  lemma WorkedJoin(t: Entry, a: set<Name>, b: set<Name>, live0: map<Name, Live>, err0: bool, live1: map<Name, Live>, err1: bool,
                   live2: map<Name, Live>, err2: bool, acts1: seq<Action>, acts2: seq<Action>, enable: bool, o: Opts, e: Env)
    requires Worked(t, a, live0, err0, live1, err1, acts1, enable, o, e)
    requires Worked(t, b, live1, err1, live2, err2, acts2, enable, o, e) && a !! b
    ensures Worked(t, a + b, live0, err0, live2, err2, acts1 + acts2, enable, o, e)
  {
    forall n ensures Lookup(live2, n) == Settled(t, live0, n, a + b, enable, o, e)
      ensures n !in a ==> Lookup(live1, n) == Lookup(live0, n)
    {
      AfterAt(t, live0, a, enable, o, e, n);
      AfterAt(t, live1, b, enable, o, e, n);
    }
    var goal := After(t, live0, a + b, enable, o, e);
    forall n ensures Lookup(goal, n) == Lookup(live2, n) { AfterAt(t, live0, a + b, enable, o, e, n); }
    forall n ensures n in goal <==> n in live2 { assert Lookup(goal, n) == Lookup(live2, n); }
    forall n | n in goal ensures goal[n] == live2[n] { assert Lookup(goal, n) == Lookup(live2, n); }
    JoinFails(t, a, b, live0, live1, enable, o, e);
    JoinActions(t, a, b, acts1, acts2, o);
  }

  lemma JoinFails(t: Entry, a: set<Name>, b: set<Name>, live0: map<Name, Live>, live1: map<Name, Live>, enable: bool, o: Opts, e: Env)
    requires forall n :: n !in a ==> Lookup(live1, n) == Lookup(live0, n)
    requires a !! b
    ensures Fails(t, live0, a + b, enable, o, e) <==> Fails(t, live0, a, enable, o, e) || Fails(t, live1, b, enable, o, e)
  {
    forall n | n in b ensures Handle(t, n, Lookup(live1, n), enable, o, e) == Handle(t, n, Lookup(live0, n), enable, o, e) {
      assert n !in a;
    }
    if Fails(t, live0, a, enable, o, e) {
      var n :| n in a && Handle(t, n, Lookup(live0, n), enable, o, e).error;
      assert n in a + b;
    }
    if Fails(t, live1, b, enable, o, e) {
      var n :| n in b && Handle(t, n, Lookup(live1, n), enable, o, e).error;
      assert n in a + b;
    }
  }

  lemma JoinActions(t: Entry, a: set<Name>, b: set<Name>, acts1: seq<Action>, acts2: seq<Action>, o: Opts)
    requires ActionsFor(t, a, acts1, o) && ActionsFor(t, b, acts2, o) && a !! b
    ensures ActionsFor(t, a + b, acts1 + acts2, o)
  {
    forall x ensures x in acts1 + acts2 <==> x in acts1 || x in acts2 {}
    forall i, j | 0 <= i < |acts1| && 0 <= j < |acts2| ensures acts1[i].name != acts2[j].name {
      assert acts1[i] in acts1 && acts2[j] in acts2;
    }
  }

  /** The four handlers in their order: identical, new, modified, deleted. */
  method HandleAll(oc: OcClient, ri: ResourceInventory, add: set<Name>, delete: set<Name>, change: set<Name>, identical: set<Name>,
                   data: Data, options: ApplyOptions)
    returns (actions: seq<Action>)
    requires add == data.desired.Keys - data.current.Keys && delete == data.current.Keys - data.desired.Keys
    requires change + identical == data.current.Keys * data.desired.Keys
    requires forall n :: n in identical ==> n in data.current && n in data.desired && IsSame(data.current[n], data.desired[n])
    requires forall n :: n in change ==> n in data.current && n in data.desired && !IsSame(data.current[n], data.desired[n])
    modifies oc, ri`errorRegistered, options`privileged
    ensures Worked(data.Contents(), Names(data.Contents()), old(oc.live), old(ri.errorRegistered), oc.live, ri.errorRegistered,
                   actions, options.enableDeletion, options.o, oc.env)
  {
    ghost var t, enable, o, e := data.Contents(), options.enableDeletion, options.o, oc.env;
    ghost var live0, err0 := oc.live, ri.errorRegistered;
    actions := HandleIdenticalResources(oc, ri, identical, data, options);
    ghost var live1, err1 := oc.live, ri.errorRegistered;
    var more := HandleNewResources(oc, ri, add, data, options);
    WorkedJoin(t, identical, add, live0, err0, live1, err1, oc.live, ri.errorRegistered, actions, more, enable, o, e);
    actions := actions + more;
    ghost var live2, err2 := oc.live, ri.errorRegistered;
    more := HandleModifiedResources(oc, ri, change, data, options);
    WorkedJoin(t, identical + add, change, live0, err0, live2, err2, oc.live, ri.errorRegistered, actions, more, enable, o, e);
    actions := actions + more;
    ghost var live3, err3 := oc.live, ri.errorRegistered;
    more := HandleDeletedResources(oc, ri, delete, data, options);
    WorkedJoin(t, identical + add + change, delete, live0, err0, live3, err3, oc.live, ri.errorRegistered, actions, more, enable, o, e);
    actions := actions + more;
    assert identical + add + change + delete == Names(t);
  }

  /** Patching changes neither the names nor what the comparison trips over. */
  lemma PatchedSame(t: Entry)
    ensures Names(Patched(t)) == Names(t) && Raises(Patched(t)) == Raises(t)
  {
  }

  /** `_realize_resource_data_3way_diff`; `ok` is false when the comparison raises. */
  method RealizeResourceData(oc: OcClient, ri: ResourceInventory, cluster: string, data: Data, options: ApplyOptions)
    returns (ok: bool, actions: seq<Action>)
    modifies oc, ri`errorRegistered, data`desired, options`privileged, options`enableDeletion
    ensures oc.live == Realized(old(data.Contents()), old(oc.live), old(ri.errorRegistered), cluster in ri.errorClusters, options.o, oc.env)
    ensures var failed := RealizeFails(old(data.Contents()), old(oc.live), old(ri.errorRegistered), cluster in ri.errorClusters, options.o, oc.env);
            ok ==> (ri.errorRegistered <==> old(ri.errorRegistered) || failed)
    ensures ok == (cluster in ri.errorClusters || !Raises(old(data.Contents())))
    ensures !ok || cluster in ri.errorClusters ==> actions == [] && ri.errorRegistered == old(ri.errorRegistered)
    ensures ok && cluster !in ri.errorClusters ==>
      && (forall a :: a in actions <==> IsCalledFor(old(data.Contents()), a, options.o))
      && (forall i, j :: 0 <= i < j < |actions| ==> actions[i].name != actions[j].name)
  {
    if cluster in ri.errorClusters { return true, []; }
    options.enableDeletion := !ri.errorRegistered;
    if options.enableDeletion && options.o.deletion == Some(false) { options.enableDeletion := false; }
    PatchDesired(data);
    PatchedSame(old(data.Contents()));
    var add, delete, change, identical;
    ok, add, delete, change, identical := DiffMappings(data);
    if !ok { return false, []; }
    actions := HandleAll(oc, ri, add, delete, change, identical, data, options);
    ActionsAre(old(data.Contents()), actions, options.o);
  }
}
