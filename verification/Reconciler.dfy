/** Reconcile itself, written the way the program runs it: a client whose calls change the
    store, a custom resource updated in place, loops over extras, classes and pods with early
    exits. Each method is proved against the step machine of Engine, so everything proved of
    that machine holds of this program. */
module Reconciler {
  import opened Kinds
  import opened Specs
  import opened Manifests
  import opened Naming
  import opened ServerSideApply
  import opened Status
  import opened Contract
  import opened IngressClasses
  import opened Pods
  import opened Cluster
  import opened Engine
  import opened Machines
  import opened Teardown

  /** The connection to the API server. budget is the number of calls that will succeed before
      one fails for a reason of its own. */
  class Client {
    var world: World
    var budget: nat

    constructor (world: World, budget: nat)
      ensures this.world == world && this.budget == budget
    {
      this.world, this.budget := world, budget;
    }

    /** One call: it fails when the budget is spent or the API server refuses the request, and
        then changes nothing. */
    method Send(r: Request) returns (ok: bool)
      modifies this
      ensures ok <==> old(budget) > 0 && Accepted(old(world), r)
      ensures ok ==> world == Serve(old(world), r) && budget == old(budget) - 1
      ensures !ok ==> world == old(world)
    {
      if budget == 0 {
        return false;
      }
      budget := budget - 1;
      if !Accepted(world, r) {
        return false;
      }
      world := Serve(world, r);
      return true;
    }

    method GetObject(key: Key) returns (ok: bool, existing: Option<Obj>)
      modifies this
      ensures ok <==> old(budget) > 0
      ensures world == old(world)
      ensures ok ==> budget == old(budget) - 1 && existing == if key in world.objs then Some(world.objs[key]) else None
    {
      ok := Send(Observe);
      existing := if key in world.objs then Some(world.objs[key]) else None;
    }

    method Observing() returns (ok: bool)
      modifies this
      ensures ok <==> old(budget) > 0
      ensures world == old(world) && (ok ==> budget == old(budget) - 1)
    {
      ok := Send(Observe);
    }

    /** Deleting an object that is already gone is no error. */
    method Delete(key: Key) returns (ok: bool)
      modifies this
      ensures ok <==> old(budget) > 0
      ensures ok ==> world == old(world).(objs := Deleted(old(world).objs, key)) && budget == old(budget) - 1
      ensures !ok ==> world == old(world)
    {
      ok := Send(Request.Delete(key));
    }

    method DeletePod(ns: string, name: string) returns (ok: bool)
      modifies this
      ensures ok <==> old(budget) > 0
      ensures ok ==> world == old(world).(pods := PodDeleted(old(world).pods, ns, name)) && budget == old(budget) - 1
      ensures !ok ==> world == old(world)
    {
      ok := Send(Request.DeletePod(ns, name));
    }

    /** DeleteAllOf the volume claims that match. */
    method DeletePvcs(ns: string, selector: map<string, string>) returns (ok: bool)
      modifies this
      ensures ok <==> old(budget) > 0
      ensures ok ==> world == old(world).(pvcs := PvcsDeleted(old(world).pvcs, ns, selector))
      ensures ok ==> budget == old(budget) - 1
      ensures !ok ==> world == old(world)
    {
      ok := Send(Request.DeletePvcs(ns, selector));
    }

    method GetCr(k: CrKey) returns (ok: bool, cr: Option<CR>)
      modifies this
      ensures ok <==> old(budget) > 0
      ensures world == old(world)
      ensures ok ==> budget == old(budget) - 1 && cr == if k in world.crs then Some(world.crs[k]) else None
    {
      ok := Send(Observe);
      cr := if k in world.crs then Some(world.crs[k]) else None;
    }

    /** The whole resource is written, provided it has not changed since it was read. */
    method Update(cr: Resource, schema: map<Field, Rule>) returns (ok: bool)
      modifies this
      ensures ok <==> old(budget) > 0 && Current(old(world), cr.key, cr.Value())
      ensures world == if ok then Serve(old(world), Request.Update(cr.key, cr.Value(), cr.finalizers, schema))
                       else old(world)
    {
      ok := Send(Request.Update(cr.key, cr.Value(), cr.finalizers, schema));
    }

    /** Only the status is written, under the same proviso. */
    method UpdateStatus(cr: Resource) returns (ok: bool)
      modifies this
      ensures ok <==> old(budget) > 0 && Current(old(world), cr.key, cr.Value())
      ensures world == if ok then Serve(old(world), Request.UpdateStatus(cr.key, cr.Value(), cr.status)) else old(world)
    {
      ok := Send(Request.UpdateStatus(cr.key, cr.Value(), cr.status));
    }

    /** Server-Side Apply; the merged object comes back. */
    method Patch(key: Key, m: Manifest, mgr: Manager) returns (ok: bool, merged: Obj)
      modifies this
      ensures ok <==> old(budget) > 0 && (key.gvk == StatefulSet ==> key in old(world).objs)
      ensures ok ==> merged == Applied(old(world), key, m, mgr) && budget == old(budget) - 1
      ensures world == if ok then old(world).(objs := old(world).objs[key := merged]) else old(world)
    {
      ok := Send(Apply(key, m, mgr));
      merged := if key in world.objs then world.objs[key] else ABSENT;
    }
  }

  /** A custom resource read into memory. */
  class Resource {
    const key: CrKey
    const rv: nat
    const generation: nat
    const deleting: bool
    var finalizers: set<string>
    var spec: Spec
    var status: CrStatus

    constructor (key: CrKey, cr: CR)
      ensures this.key == key && Value() == cr
    {
      this.key, this.rv, this.generation, this.deleting := key, cr.rv, cr.generation, cr.deleting;
      this.finalizers, this.spec, this.status := cr.finalizers, cr.spec, cr.status;
    }

    function Value(): CR
      reads this
    {
      CR(rv, generation, finalizers, deleting, spec, status)
    }

    method AddFinalizer()
      modifies this
      ensures Value() == old(Value()).(finalizers := old(finalizers) + {FINALIZER})
    {
      finalizers := finalizers + {FINALIZER};
    }

    method RemoveFinalizer()
      modifies this
      ensures Value() == old(Value()).(finalizers := old(finalizers) - {FINALIZER})
    {
      finalizers := finalizers - {FINALIZER};
    }
  }

  // ---------------------------------------------------------------- matching the machine

  /** A method that runs from pc to pc' of the machine, or stops with an error. */
  twostate predicate Runs(client: Client, run: Machine, pc: Pc, pc': Pc, ok: bool)
    reads client
  {
    run(old(client.world), pc, old(client.budget))
    == if ok then run(client.world, pc', client.budget) else (client.world, false)
  }

  // ---------------------------------------------------------------- unsticking

  /** The store after deleting the named pods one by one. */
  function PodsDeleted(pods: seq<Pod>, ns: string, names: seq<string>): seq<Pod>
    decreases |names|
  {
    if names == [] then pods else PodsDeleted(PodDeleted(pods, ns, names[0]), ns, names[1..])
  }

  lemma {:induction false} PodsDeletedExactly(pods: seq<Pod>, ns: string, names: seq<string>)
    ensures forall p :: p in PodsDeleted(pods, ns, names) <==> p in pods && !(p.ns == ns && p.name in names)
    decreases |names|
  {
    if names != [] {
      assert names == [names[0]] + names[1..];
      PodsDeletedExactly(PodDeleted(pods, ns, names[0]), ns, names[1..]);
    }
  }

  /** The rollout of this StatefulSet calls for listing its pods. */
  predicate LooksAtPods(w: World, key: Key) {
    key in w.objs && Unfinished(w.objs[key])
  }

  /** What one run of the unstick step is to delete. */
  function UnstickVictims(w: World, key: Key): seq<string> {
    if LooksAtPods(w, key)
    then Victims(ListPods(w.pods, key.ns, w.objs[key].selector), UpdateRevision(w.objs[key]))
    else []
  }

  /** The calls it makes before the first deletion. */
  function Looks(w: World, key: Key): nat {
    if LooksAtPods(w, key) then 2 else 1
  }

  /** The store after the deletions that fit into `calls` calls. */
  function Drained(w: World, ns: string, victims: seq<string>, calls: nat): World {
    w.(pods := PodsDeleted(w.pods, ns, if calls < |victims| then victims[..calls] else victims))
  }

  lemma DrainedStep(w: World, ns: string, victims: seq<string>, calls: nat)
    requires victims != [] && calls > 0
    ensures Drained(w, ns, victims, calls)
            == Drained(w.(pods := PodDeleted(w.pods, ns, victims[0])), ns, victims[1..], calls - 1)
  {
    if calls < |victims| {
      assert victims[..calls][1..] == victims[1..][..calls - 1];
    }
  }

  /** What the machine does with a list of victims. */
  lemma {:induction false} VictimsMachine(
    run: Machine, ad: Adapter, w: World, k: CrKey, seen: CR, target: Obj, e: Extra, rest: seq<Extra>,
    revision: string, victims: seq<string>, calls: nat)
    requires IsMachine(run, ad, k)
    ensures var v := Drained(w, k.ns, victims, calls);
            run(w, EnterVictims(seen, target, e, rest, revision, victims), calls)
            == if calls < |victims| then (v, false) else run(v, EnterExtras(seen, target, rest), calls - |victims|)
    decreases |victims|
  {
    if victims != [] {
      var pc := EnterVictims(seen, target, e, rest, revision, victims);
      var next := EnterVictims(seen, target, e, rest, revision, victims[1..]);
      if calls == 0 {
        CallStops(run, ad, w, k, pc, calls);
      } else {
        CallAdvances(run, ad, w, k, pc, calls, DeletePod(k.ns, victims[0]), next);
        VictimsMachine(run, ad, w.(pods := PodDeleted(w.pods, k.ns, victims[0])), k, seen, target, e, rest,
                       revision, victims[1..], calls - 1);
        DrainedStep(w, k.ns, victims, calls);
      }
    }
  }

  /** The store after the unstick step. */
  function AfterUnstick(w: World, key: Key, calls: nat): World {
    if calls < Looks(w, key) then w else Drained(w, key.ns, UnstickVictims(w, key), calls - Looks(w, key))
  }

  lemma ListingMachine(
    run: Machine, ad: Adapter, w: World, k: CrKey, seen: CR, target: Obj, e: Extra, rest: seq<Extra>,
    revision: string, selector: map<string, string>, calls: nat)
    requires IsMachine(run, ad, k)
    ensures run(w, AtUnstickList(seen, target, e, rest, revision, selector), calls)
            == if calls == 0 then (w, false)
               else run(w, EnterVictims(seen, target, e, rest, revision,
                                        Victims(ListPods(w.pods, k.ns, selector), revision)),
                        calls - 1)
  {
    var pc := AtUnstickList(seen, target, e, rest, revision, selector);
    if calls == 0 {
      CallStops(run, ad, w, k, pc, calls);
    } else {
      CallAdvances(run, ad, w, k, pc, calls, Observe,
                   EnterVictims(seen, target, e, rest, revision, Victims(ListPods(w.pods, k.ns, selector), revision)));
    }
  }

  lemma LookedAtMachine(
    run: Machine, ad: Adapter, w: World, k: CrKey, seen: CR, target: Obj, e: Extra, rest: seq<Extra>, calls: nat)
    requires IsMachine(run, ad, k) && calls > 0 && LooksAtPods(w, ExtraKey(k, e))
    ensures var sts := w.objs[ExtraKey(k, e)];
            run(w, AtUnstickGet(seen, target, e, rest), calls)
            == run(w, AtUnstickList(seen, target, e, rest, UpdateRevision(sts), sts.selector), calls - 1)
  {
    var sts := w.objs[ExtraKey(k, e)];
    CallAdvances(run, ad, w, k, AtUnstickGet(seen, target, e, rest), calls, Observe,
                 AtUnstickList(seen, target, e, rest, UpdateRevision(sts), sts.selector));
  }

  lemma NotLookedAtMachine(
    run: Machine, ad: Adapter, w: World, k: CrKey, seen: CR, target: Obj, e: Extra, rest: seq<Extra>, calls: nat)
    requires IsMachine(run, ad, k) && (calls == 0 || !LooksAtPods(w, ExtraKey(k, e)))
    ensures run(w, AtUnstickGet(seen, target, e, rest), calls)
            == if calls == 0 then (w, false) else run(w, EnterExtras(seen, target, rest), calls - 1)
  {
    var pc := AtUnstickGet(seen, target, e, rest);
    if calls == 0 {
      CallStops(run, ad, w, k, pc, calls);
    } else {
      CallAdvances(run, ad, w, k, pc, calls, Observe, EnterExtras(seen, target, rest));
    }
  }

  /** What the machine does from the look at the rollout to the end of the deletions. */
  lemma UnstickMachine(
    run: Machine, ad: Adapter, w: World, k: CrKey, seen: CR, target: Obj, e: Extra, rest: seq<Extra>, calls: nat)
    requires IsMachine(run, ad, k)
    ensures var key := ExtraKey(k, e);
            var needed := Looks(w, key) + |UnstickVictims(w, key)|;
            run(w, AtUnstickGet(seen, target, e, rest), calls)
            == if calls < needed then (AfterUnstick(w, key, calls), false)
               else run(AfterUnstick(w, key, calls), EnterExtras(seen, target, rest), calls - needed)
  {
    var key := ExtraKey(k, e);
    if calls > 0 && LooksAtPods(w, key) {
      LookedAtMachine(run, ad, w, k, seen, target, e, rest, calls);
      var revision, selector := UpdateRevision(w.objs[key]), w.objs[key].selector;
      ListingMachine(run, ad, w, k, seen, target, e, rest, revision, selector, calls - 1);
      if calls > 1 {
        VictimsMachine(run, ad, w, k, seen, target, e, rest, revision, UnstickVictims(w, key), calls - 2);
      }
    } else {
      NotLookedAtMachine(run, ad, w, k, seen, target, e, rest, calls);
    }
  }

  /** The machine at the look that precedes a patch. */
  lemma LookMachine(run: Machine, ad: Adapter, w: World, k: CrKey, seen: CR, target: Obj, todo: seq<Extra>, calls: nat)
    requires IsMachine(run, ad, k) && todo != [] && todo[0].desired.Some? && todo[0].patchOnly
    ensures run(w, EnterExtras(seen, target, todo), calls)
            == if calls == 0 then (w, false)
               else run(w, if ExtraKey(k, todo[0]) in w.objs then AtExtra(seen, target, todo[0], todo[1..])
                           else EnterExtras(seen, target, todo[1..]), calls - 1)
  {
    var pc := EnterExtras(seen, target, todo);
    if calls == 0 {
      CallStops(run, ad, w, k, pc, calls);
    } else {
      CallAdvances(run, ad, w, k, pc, calls, Observe,
                   if ExtraKey(k, todo[0]) in w.objs then AtExtra(seen, target, todo[0], todo[1..])
                   else EnterExtras(seen, target, todo[1..]));
    }
  }

  /** The machine at one apply. */
  lemma PatchMachine(
    run: Machine, ad: Adapter, w: World, k: CrKey, seen: CR, target: Obj, e: Extra, rest: seq<Extra>, calls: nat)
    requires IsMachine(run, ad, k) && e.desired.Some?
    ensures var key := ExtraKey(k, e);
            run(w, AtExtra(seen, target, e, rest), calls)
            == if calls == 0 || (key.gvk == StatefulSet && key !in w.objs) then (w, false)
               else run(w.(objs := w.objs[key := Applied(w, key, e.desired.value, Operator(k.kind))]),
                        if e.patchOnly && e.gvk == StatefulSet then AtUnstickGet(seen, target, e, rest)
                        else EnterExtras(seen, target, rest),
                        calls - 1)
  {
    var pc, r := AtExtra(seen, target, e, rest), Apply(ExtraKey(k, e), e.desired.value, Operator(k.kind));
    if calls == 0 || !Accepted(w, r) {
      CallStops(run, ad, w, k, pc, calls);
    } else {
      CallAdvances(run, ad, w, k, pc, calls, r,
                   if e.patchOnly && e.gvk == StatefulSet then AtUnstickGet(seen, target, e, rest)
                   else EnterExtras(seen, target, rest));
    }
  }

  /** The machine at one prune. */
  lemma PruneMachine(
    run: Machine, ad: Adapter, w: World, k: CrKey, seen: CR, target: Obj, e: Extra, rest: seq<Extra>, calls: nat)
    requires IsMachine(run, ad, k) && e.desired.None?
    ensures run(w, AtExtra(seen, target, e, rest), calls)
            == if calls == 0 then (w, false)
               else run(w.(objs := Deleted(w.objs, ExtraKey(k, e))), EnterExtras(seen, target, rest), calls - 1)
  {
    var pc := AtExtra(seen, target, e, rest);
    if calls == 0 {
      CallStops(run, ad, w, k, pc, calls);
    } else {
      CallAdvances(run, ad, w, k, pc, calls, Delete(ExtraKey(k, e)), EnterExtras(seen, target, rest));
    }
  }

  // ---------------------------------------------------------------- the machine, call by call

  lemma StartMachine(run: Machine, ad: Adapter, w: World, k: CrKey, calls: nat)
    requires IsMachine(run, ad, k)
    ensures run(w, AtStart, calls)
            == if calls == 0 then (w, false)
               else if k !in w.crs then (w, true)
               else match Dispatch(k, w.crs[k])
                    case Return(ok) => (w, ok)
                    case Goto(pc) => run(w, pc, calls - 1)
  {
    if calls == 0 {
      CallStops(run, ad, w, k, AtStart, calls);
    } else {
      match Continue(ad, w, k, AtStart)
      case Return(ok) => CallReturns(run, ad, w, k, AtStart, calls, Observe, ok);
      case Goto(pc) => CallAdvances(run, ad, w, k, AtStart, calls, Observe, pc);
    }
  }

  lemma GetTargetMachine(run: Machine, ad: Adapter, w: World, k: CrKey, seen: CR, calls: nat)
    requires IsMachine(run, ad, k)
    ensures run(w, AtGetTarget(seen), calls)
            == if calls == 0 then (w, false)
               else run(w, if NeedsClass(ad, seen.spec) then AtListClasses(seen) else AtApplyTarget(seen, ""),
                        calls - 1)
  {
    if calls == 0 {
      CallStops(run, ad, w, k, AtGetTarget(seen), calls);
    } else {
      CallAdvances(run, ad, w, k, AtGetTarget(seen), calls, Observe,
                   if NeedsClass(ad, seen.spec) then AtListClasses(seen) else AtApplyTarget(seen, ""));
    }
  }

  lemma ListClassesMachine(run: Machine, ad: Adapter, w: World, k: CrKey, seen: CR, calls: nat)
    requires IsMachine(run, ad, k)
    ensures run(w, AtListClasses(seen), calls)
            == if calls == 0 then (w, false) else run(w, AtApplyTarget(seen, Resolved(w.classes)), calls - 1)
  {
    if calls == 0 {
      CallStops(run, ad, w, k, AtListClasses(seen), calls);
    } else {
      CallAdvances(run, ad, w, k, AtListClasses(seen), calls, Observe, AtApplyTarget(seen, Resolved(w.classes)));
    }
  }

  lemma ApplyTargetMachine(run: Machine, ad: Adapter, w: World, k: CrKey, seen: CR, cls: string, calls: nat)
    requires IsMachine(run, ad, k)
    ensures var spec := LocalSpec(ad, seen, cls);
            var merged := Applied(w, TargetKey(k), ad.manifest(spec, k.ns, k.name), Operator(k.kind));
            run(w, AtApplyTarget(seen, cls), calls)
            == if calls == 0 then (w, false)
               else run(w.(objs := w.objs[TargetKey(k) := merged]), EnterExtras(seen, merged, Extras(ad, k, spec)),
                        calls - 1)
  {
    var pc, spec := AtApplyTarget(seen, cls), LocalSpec(ad, seen, cls);
    var r := Apply(TargetKey(k), ad.manifest(spec, k.ns, k.name), Operator(k.kind));
    if calls == 0 {
      CallStops(run, ad, w, k, pc, calls);
    } else {
      CallAdvances(run, ad, w, k, pc, calls, r,
                   EnterExtras(seen, Applied(w, TargetKey(k), r.m, r.mgr), Extras(ad, k, spec)));
    }
  }

  lemma StatusMachine(run: Machine, ad: Adapter, w: World, k: CrKey, seen: CR, target: Obj, calls: nat)
    requires IsMachine(run, ad, k)
    ensures run(w, AtStatus(seen, target), calls)
            == if calls == 0 || !Current(w, k, seen) then (w, false)
               else (Serve(w, UpdateStatus(k, seen, MirroredStatus(ad, k, seen, target, w.now))), true)
  {
    var pc := AtStatus(seen, target);
    if calls == 0 || !Current(w, k, seen) {
      CallStops(run, ad, w, k, pc, calls);
    } else {
      CallReturns(run, ad, w, k, pc, calls, UpdateStatus(k, seen, MirroredStatus(ad, k, seen, target, w.now)), true);
    }
  }

  lemma UpdateMachine(run: Machine, ad: Adapter, w: World, k: CrKey, pc: Pc, calls: nat)
    requires IsMachine(run, ad, k) && (pc.AtAddFinalizer? || pc.AtRemoveFinalizer?)
    ensures var finalizers := if pc.AtAddFinalizer? then pc.seen.finalizers + {FINALIZER}
                              else pc.seen.finalizers - {FINALIZER};
            run(w, pc, calls)
            == if calls == 0 || !Current(w, k, pc.seen) then (w, false)
               else (Serve(w, Update(k, pc.seen, finalizers, ad.schema)), true)
  {
    if calls == 0 || !Current(w, k, pc.seen) {
      CallStops(run, ad, w, k, pc, calls);
    } else {
      CallReturns(run, ad, w, k, pc, calls, RequestOf(ad, k, pc, w.now), true);
    }
  }

  lemma ClassToSet(classes: seq<IngressClass>)
    requires forall c :: c in classes ==> c.name != ""
    ensures forall i :: OnlyDefault(classes, i) ==> Resolved(classes) == classes[i].name && Resolved(classes) != ""
    ensures (forall i :: !OnlyDefault(classes, i)) <==> Resolved(classes) == ""
  {
    NothingResolved(classes);
    forall i | OnlyDefault(classes, i) ensures Resolved(classes) == classes[i].name {
      assert classes[i] in classes;
      ResolvedExactly(classes, classes[i].name);
    }
  }

  /** The store calls for no look at pods: no such StatefulSet, no update under way, or none
      that could be told by its labels. */
  predicate NothingToUnstick(w: World, key: Key) {
    key in w.objs ==>
      var strs := w.objs[key].status.strs;
      || "updateRevision" !in strs || strs["updateRevision"] == ""
      || ("currentRevision" in strs && strs["currentRevision"] == strs["updateRevision"])
      || w.objs[key].selector == map[]
  }

  class GenericReconciler {
    const client: Client
    const ad: Adapter

    constructor (client: Client, ad: Adapter)
      ensures this.client == client && this.ad == ad
    {
      this.client, this.ad := client, ad;
    }

    /** Deletes, in list order, the pods of one StatefulSet that are off its update revision
        and not Ready, until a call fails. */
    method UnstickStatefulSetRollout(ns: string, name: string) returns (ok: bool)
      modifies client
      ensures var key, w, b := Key(StatefulSet, ns, name), old(client.world), old(client.budget);
              var needed := Looks(w, key) + |UnstickVictims(w, key)|;
              && (ok <==> b >= needed) && (ok ==> client.budget == b - needed)
              && client.world == AfterUnstick(w, key, b)
      ensures NothingToUnstick(old(client.world), Key(StatefulSet, ns, name)) ==> client.world == old(client.world)
    {
      var key := Key(StatefulSet, ns, name);
      var sts;
      ok, sts := client.GetObject(key);
      if !ok || sts.None? {
        return;
      }
      var updateRevision, currentRevision := UpdateRevision(sts.value), CurrentRevision(sts.value);
      if updateRevision == "" || updateRevision == currentRevision {
        return;
      }
      var selector := sts.value.selector;
      if selector == map[] {
        return;
      }
      ok := client.Observing();
      if !ok {
        return;
      }
      ok := DeleteStuckPods(ns, updateRevision, ListPods(client.world.pods, ns, selector));
    }

    /** The loop over the listed pods. */
    method DeleteStuckPods(ns: string, revision: string, pods: seq<Pod>) returns (ok: bool)
      modifies client
      ensures var victims, b := Victims(pods, revision), old(client.budget);
              && (ok <==> b >= |victims|) && (ok ==> client.budget == b - |victims|)
              && client.world == Drained(old(client.world), ns, victims, b)
    {
      ghost var left := Victims(pods, revision);
      for i := 0 to |pods|
        invariant left == Victims(pods[i..], revision)
        invariant client.budget - |left| == old(client.budget) - |Victims(pods, revision)|
        invariant Drained(client.world, ns, left, client.budget)
                  == Drained(old(client.world), ns, Victims(pods, revision), old(client.budget))
      {
        var pod := pods[i];
        assert pods[i..][1..] == pods[i + 1..];
        var ready := IsPodReady(pod);
        if OnRevision(pod, revision) || ready {
          continue;
        }
        if client.budget > 0 {
          DrainedStep(client.world, ns, left, client.budget);
        }
        ok := client.DeletePod(ns, pod.name);
        if !ok {
          return;
        }
        left := left[1..];
      }
      ok := true;
    }

    /** Apply one desired auxiliary object: look for it first and leave an absent one alone if it
        is patched only, and unstick the rollout of a patched StatefulSet. */
    method ApplyExtra(
      k: CrKey, extra: Extra, ghost run: Machine, ghost seen: CR, ghost target: Obj, ghost rest: seq<Extra>)
      returns (ok: bool)
      requires IsMachine(run, ad, k) && extra.desired.Some?
      modifies client
      ensures Runs(client, run, EnterExtras(seen, target, [extra] + rest), EnterExtras(seen, target, rest), ok)
    {
      assert ([extra] + rest)[1..] == rest;
      if extra.patchOnly {
        LookMachine(run, ad, client.world, k, seen, target, [extra] + rest, client.budget);
        var existing;
        ok, existing := client.GetObject(ExtraKey(k, extra));
        if !ok || existing.None? {
          return;
        }
      }
      PatchMachine(run, ad, client.world, k, seen, target, extra, rest, client.budget);
      var applied;
      ok, applied := client.Patch(ExtraKey(k, extra), extra.desired.value, Operator(k.kind));
      if !ok {
        return;
      }
      if extra.patchOnly && extra.gvk == StatefulSet {
        UnstickMachine(run, ad, client.world, k, seen, target, extra, rest, client.budget);
        ok := UnstickStatefulSetRollout(k.ns, extra.name);
      }
    }

    /** Apply or prune every auxiliary object the adapter lists. */
    method ApplyExtraResources(cr: Resource, ghost run: Machine, ghost seen: CR, ghost target: Obj) returns (ok: bool)
      requires IsMachine(run, ad, cr.key)
      modifies client
      ensures Runs(client, run, EnterExtras(seen, target, Extras(ad, cr.key, cr.spec)), AtStatus(seen, target), ok)
    {
      var k := cr.key;
      var extras := ad.extras(cr.spec, TargetName(k.name), k.ns, k.name);
      assert extras[0..] == extras;
      for i := 0 to |extras|
        invariant Runs(client, run, EnterExtras(seen, target, extras), EnterExtras(seen, target, extras[i..]), true)
      {
        var extra := extras[i];
        ghost var rest := extras[i + 1..];
        assert extras[i..] == [extra] + rest && extras[i..][1..] == rest;
        if extra.desired.Some? {
          ok := ApplyExtra(k, extra, run, seen, target, rest);
          if !ok {
            return;
          }
          continue;
        }
        PruneMachine(run, ad, client.world, k, seen, target, extra, rest, client.budget);
        ok := client.Delete(ExtraKey(k, extra));
        if !ok {
          return;
        }
      }
      ok := true;
    }

    /** The target is gone or marked afterwards; one that is already gone is no error. */
    method DeleteTarget(ns: string, kind: Kind, name: string) returns (ok: bool)
      modifies client
      ensures ok <==> old(client.budget) > 0
      ensures ok ==> client.budget == old(client.budget) - 1
      ensures var w := old(client.world);
              client.world == if ok then w.(objs := Deleted(w.objs, Key(Target(kind), ns, name))) else w
    {
      ok := client.Delete(Key(Target(kind), ns, name));
    }

    /** Delete every auxiliary object but the patched-only ones. */
    method DeleteExtraResources(cr: Resource, ghost run: Machine, ghost seen: CR) returns (ok: bool)
      requires IsMachine(run, ad, cr.key)
      modifies client
      ensures Runs(client, run, EnterDelete(ad, cr.key, seen, Extras(ad, cr.key, cr.spec)),
                   EnterDelete(ad, cr.key, seen, []), ok)
      ensures var w, extras := old(client.world), ad.extras(cr.spec, cr.key.name, cr.key.ns, cr.key.name);
              ok ==> client.world == w.(objs := TornDown(w.objs, cr.key, extras))
    {
      var k := cr.key;
      var extras := ad.extras(cr.spec, TargetName(k.name), k.ns, k.name);
      assert extras[0..] == extras;
      for i := 0 to |extras|
        invariant Runs(client, run, EnterDelete(ad, k, seen, extras), EnterDelete(ad, k, seen, extras[i..]), true)
        invariant client.world == old(client.world).(objs := client.world.objs)
        invariant TornDown(client.world.objs, k, extras[i..]) == TornDown(old(client.world.objs), k, extras)
      {
        var extra := extras[i];
        ghost var rest := extras[i + 1..];
        assert extras[i..][0] == extra && extras[i..][1..] == rest;
        if extra.patchOnly {
          continue;
        }
        ExtraDeleted(run, ad, client.world, k, seen, extra, rest, client.budget);
        ok := client.Delete(ExtraKey(k, extra));
        if !ok {
          return;
        }
      }
      ok := true;
    }

    /** Delete the volume claims behind the target, unless the adapter selects none. */
    method DeletePVCs(cr: Resource, ghost run: Machine, ghost seen: CR) returns (ok: bool)
      requires IsMachine(run, ad, cr.key)
      modifies client
      ensures Runs(client, run, EnterDelete(ad, cr.key, seen, []), AtRemoveFinalizer(seen), ok)
      ensures var w, labels := old(client.world), ad.pvcSelector(cr.key.name);
              client.world == if ok && labels != map[] then w.(pvcs := PvcsDeleted(w.pvcs, cr.key.ns, labels)) else w
    {
      var labels := ad.pvcSelector(TargetName(cr.key.name));
      if |labels| == 0 {
        assert labels == map[];
        return true;
      }
      ClaimsDeleted(run, ad, client.world, cr.key, seen, client.budget);
      ok := client.DeletePvcs(cr.key.ns, labels);
    }

    /** Fill in, in memory only, the class of a requested Ingress that names none: the one class
        annotated as the cluster's default, if there is exactly one. */
    method DefaultIngressClass(cr: Resource, ghost run: Machine) returns (ok: bool, ghost cls: string)
      requires IsMachine(run, ad, cr.key)
      requires forall c :: c in client.world.classes ==> c.name != ""
      modifies client, cr
      ensures client.world == old(client.world)
      ensures var wanted, classes := ad.requestedClass(old(cr.spec)), old(client.world.classes);
              ok ==>
                && (wanted == Some("") ==> forall i :: OnlyDefault(classes, i) ==>
                      cr.spec == ad.setClass(old(cr.spec), classes[i].name))
                && ((wanted != Some("") || forall i :: !OnlyDefault(classes, i)) ==> cr.spec == old(cr.spec))
      ensures var seen := old(cr.Value());
              var pc := if NeedsClass(ad, seen.spec) then AtListClasses(seen) else AtApplyTarget(seen, "");
              Runs(client, run, pc, AtApplyTarget(seen, cls), ok)
              && (ok ==> cr.Value() == seen.(spec := LocalSpec(ad, seen, cls)))
    {
      cls := "";
      var requested := ad.requestedClass(cr.spec);
      if requested.None? || requested.value != "" {
        return true, cls;
      }
      ListClassesMachine(run, ad, client.world, cr.key, cr.Value(), client.budget);
      ok := client.Observing();
      if !ok {
        return;
      }
      cls := Resolved(client.world.classes);
      ClassToSet(client.world.classes);
      var resolved := ResolveDefaultIngressClass(client.world.classes);
      if resolved == "" {
        return;
      }
      cr.spec := ad.setClass(cr.spec, resolved);
    }

    /** The deletion path. */
    method CleanUp(cr: Resource, ghost run: Machine) returns (ok: bool)
      requires IsMachine(run, ad, cr.key)
      modifies client, cr
      ensures (client.world, ok) == run(old(client.world), AtDeleteTarget(old(cr.Value())), old(client.budget))
    {
      ghost var seen := cr.Value();
      TargetDeleted(run, ad, client.world, cr.key, seen, client.budget);
      ok := DeleteTarget(cr.key.ns, cr.key.kind, TargetName(cr.key.name));
      if !ok {
        return;
      }
      ok := DeleteExtraResources(cr, run, seen);
      if !ok {
        return;
      }
      ok := DeletePVCs(cr, run, seen);
      if !ok {
        return;
      }
      UpdateMachine(run, ad, client.world, cr.key, AtRemoveFinalizer(seen), client.budget);
      cr.RemoveFinalizer();
      ok := client.Update(cr, ad.schema);
    }

    /** Extract the target's status, mirror it onto the resource in memory, write it back. The
        resource may differ from the one read in its spec. */
    method MirrorStatus(cr: Resource, ghost run: Machine, ghost seen: CR, target: Obj) returns (ok: bool)
      requires IsMachine(run, ad, cr.key) && cr.Value() == seen.(spec := cr.spec)
      modifies client, cr
      ensures (client.world, ok) == run(old(client.world), AtStatus(seen, target), old(client.budget))
    {
      StatusMachine(run, ad, client.world, cr.key, seen, target, client.budget);
      cr.status := ad.mirror(cr.status, TargetName(cr.key.name), ad.extract(target), cr.generation, client.world.now);
      ok := client.UpdateStatus(cr);
    }

    /** Apply the target's manifest, built from the resource in memory; the merged object comes
        back. */
    method ApplyTarget(cr: Resource, ghost run: Machine, ghost seen: CR, ghost cls: string)
      returns (ok: bool, target: Obj)
      requires IsMachine(run, ad, cr.key) && cr.spec == LocalSpec(ad, seen, cls)
      modifies client
      ensures Runs(client, run, AtApplyTarget(seen, cls),
                   EnterExtras(seen, target, Extras(ad, cr.key, cr.spec)), ok)
      ensures var k, w := cr.key, old(client.world);
              ok ==> client.world == w.(objs := w.objs[TargetKey(k) := target]) &&
                     target == Applied(w, TargetKey(k), ad.manifest(cr.spec, k.ns, k.name), Operator(k.kind))
    {
      var k := cr.key;
      ApplyTargetMachine(run, ad, client.world, k, seen, cls, client.budget);
      var desired := ad.manifest(cr.spec, k.ns, k.name);
      ok, target := client.Patch(TargetKey(k), desired, Operator(k.kind));
    }

    /** The normal path, the finalizer being there. */
    method ApplyAll(cr: Resource, ghost run: Machine) returns (ok: bool)
      requires IsMachine(run, ad, cr.key)
      requires forall c :: c in client.world.classes ==> c.name != ""
      modifies client, cr
      ensures (client.world, ok) == run(old(client.world), AtGetTarget(old(cr.Value())), old(client.budget))
    {
      ghost var seen := cr.Value();
      var k := cr.key;
      GetTargetMachine(run, ad, client.world, k, seen, client.budget);
      var existing;
      ok, existing := client.GetObject(TargetKey(k));
      if !ok {
        return;
      }
      ghost var cls;
      ok, cls := DefaultIngressClass(cr, run);
      if !ok {
        return;
      }
      var target;
      ok, target := ApplyTarget(cr, run, seen, cls);
      if !ok {
        return;
      }
      ok := ApplyExtraResources(cr, run, seen, target);
      if !ok {
        return;
      }
      ok := MirrorStatus(cr, run, seen, target);
    }

    /** Reconcile: on every store, and wherever a call fails, it leaves the store and returns
        the verdict that the step machine does. */
    method Reconcile(k: CrKey) returns (ok: bool)
      requires forall c :: c in client.world.classes ==> c.name != ""
      modifies client
      ensures (client.world, ok) == Exec(ad, old(client.world), k, AtStart, old(client.budget))
    {
      ghost var run: Machine := (w, pc, calls: nat) => Exec(ad, w, k, pc, calls);
      StartMachine(run, ad, client.world, k, client.budget);
      var found;
      ok, found := client.GetCr(k);
      if !ok || found.None? {
        return;
      }
      var cr := new Resource(k, found.value);
      if cr.deleting {
        if FINALIZER in cr.finalizers {
          ok := CleanUp(cr, run);
        }
        return;
      }
      if FINALIZER !in cr.finalizers {
        UpdateMachine(run, ad, client.world, k, AtAddFinalizer(cr.Value()), client.budget);
        cr.AddFinalizer();
        ok := client.Update(cr, ad.schema);
        return;
      }
      ok := ApplyAll(cr, run);
    }
  }
}
