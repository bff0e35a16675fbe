/** The reconcile engine as a step machine: one step is one API call of Reconcile, together
    with the local computation up to the next call. */
module Engine {
  import opened Kinds
  import opened Specs
  import opened Manifests
  import opened Naming
  import opened Contract
  import opened ServerSideApply
  import opened Status
  import opened IngressClasses
  import opened Pods
  import opened Cluster

  /** The call a worker makes next, with the locals it holds: the custom resource as it was
      read, the ingress class resolved for it ("" for none), the target as the apply
      returned it, and the auxiliary object at hand with those after it. */
  datatype Pc =
    | AtStart
    | AtAddFinalizer(seen: CR)
    | AtGetTarget(seen: CR)
    | AtListClasses(seen: CR)
    | AtApplyTarget(seen: CR, className: string)
    | AtExtraGet(seen: CR, target: Obj, e: Extra, rest: seq<Extra>)
    | AtExtra(seen: CR, target: Obj, e: Extra, rest: seq<Extra>)
    | AtUnstickGet(seen: CR, target: Obj, e: Extra, rest: seq<Extra>)
    | AtUnstickList(seen: CR, target: Obj, e: Extra, rest: seq<Extra>, revision: string, selector: map<string, string>)
    | AtUnstickDelete(seen: CR, target: Obj, e: Extra, rest: seq<Extra>, revision: string, victim: string,
                      others: seq<string>)
    | AtStatus(seen: CR, target: Obj)
    | AtDeleteTarget(seen: CR)
    | AtDeleteExtra(seen: CR, e: Extra, rest: seq<Extra>)
    | AtDeletePvcs(seen: CR)
    | AtRemoveFinalizer(seen: CR)

  /** After a call Reconcile either returns, with or without an error, or goes on. */
  datatype Next = Return(ok: bool) | Goto(pc: Pc)

  datatype Stepped = Stepped(w: World, next: Next)

  // ---------------------------------------------------------------- local computation

  /** The spec the manifests are built from: the one read, with the resolved class set. */
  function LocalSpec(ad: Adapter, seen: CR, className: string): Spec {
    if className == "" then seen.spec else ad.setClass(seen.spec, className)
  }

  /** An Ingress is requested without a class, by a kind that defaults it. */
  predicate NeedsClass(ad: Adapter, spec: Spec) {
    ad.requestedClass(spec) == Some("")
  }

  function TargetManifest(ad: Adapter, k: CrKey, seen: CR, className: string): Manifest {
    ad.manifest(LocalSpec(ad, seen, className), k.ns, k.name)
  }

  function Extras(ad: Adapter, k: CrKey, spec: Spec): seq<Extra> {
    ad.extras(spec, TargetName(k.name), k.ns, k.name)
  }

  function ExtraKey(k: CrKey, e: Extra): Key {
    Key(e.gvk, k.ns, e.name)
  }

  /** The call with which the loop of applyExtraResources continues: a patch of a foreign
      object is preceded by a look whether the object exists. */
  function EnterExtras(seen: CR, target: Obj, todo: seq<Extra>): Pc {
    if todo == [] then AtStatus(seen, target)
    else if todo[0].desired.Some? && todo[0].patchOnly then AtExtraGet(seen, target, todo[0], todo[1..])
    else AtExtra(seen, target, todo[0], todo[1..])
  }

  /** The call with which the loop of deleteExtraResources continues: patch-only entries are
      skipped; after the last entry come the volume claims, if any. */
  function EnterDelete(ad: Adapter, k: CrKey, seen: CR, todo: seq<Extra>): Pc {
    if todo == [] then
      if ad.pvcSelector(TargetName(k.name)) == map[] then AtRemoveFinalizer(seen) else AtDeletePvcs(seen)
    else if todo[0].patchOnly then EnterDelete(ad, k, seen, todo[1..])
    else AtDeleteExtra(seen, todo[0], todo[1..])
  }

  function EnterVictims(seen: CR, target: Obj, e: Extra, rest: seq<Extra>, revision: string, victims: seq<string>): Pc {
    if victims == [] then EnterExtras(seen, target, rest)
    else AtUnstickDelete(seen, target, e, rest, revision, victims[0], victims[1..])
  }

  /** Reconcile after its first read. */
  function Dispatch(k: CrKey, cr: CR): Next {
    if cr.deleting then
      if FINALIZER in cr.finalizers then Goto(AtDeleteTarget(cr)) else Return(true)
    else if FINALIZER !in cr.finalizers then Goto(AtAddFinalizer(cr))
    else Goto(AtGetTarget(cr))
  }

  function UpdateRevision(o: Obj): string {
    if "updateRevision" in o.status.strs then o.status.strs["updateRevision"] else ""
  }

  function CurrentRevision(o: Obj): string {
    if "currentRevision" in o.status.strs then o.status.strs["currentRevision"] else ""
  }

  /** The rollout of this StatefulSet is worth looking at. */
  predicate Unfinished(o: Obj) {
    UpdateRevision(o) != "" && UpdateRevision(o) != CurrentRevision(o) && o.selector != map[]
  }

  // ---------------------------------------------------------------- one call

  function MirroredStatus(ad: Adapter, k: CrKey, seen: CR, target: Obj, now: nat): CrStatus {
    ad.mirror(seen.status, TargetName(k.name), ad.extract(target), seen.generation, now)
  }

  /** The request a worker sends. */
  function RequestOf(ad: Adapter, k: CrKey, pc: Pc, now: nat): Request {
    match pc
    case AtAddFinalizer(seen) => Update(k, seen, seen.finalizers + {FINALIZER}, ad.schema)
    case AtApplyTarget(seen, cls) => Apply(TargetKey(k), TargetManifest(ad, k, seen, cls), Operator(k.kind))
    case AtExtra(_, _, e, _) =>
      if e.desired.Some? then Apply(ExtraKey(k, e), e.desired.value, Operator(k.kind)) else Delete(ExtraKey(k, e))
    case AtUnstickDelete(_, _, _, _, _, victim, _) => DeletePod(k.ns, victim)
    case AtStatus(seen, target) => UpdateStatus(k, seen, MirroredStatus(ad, k, seen, target, now))
    case AtDeleteTarget(_) => Delete(TargetKey(k))
    case AtDeleteExtra(_, e, _) => Delete(ExtraKey(k, e))
    case AtDeletePvcs(_) => DeletePvcs(k.ns, ad.pvcSelector(TargetName(k.name)))
    case AtRemoveFinalizer(seen) => Update(k, seen, seen.finalizers - {FINALIZER}, ad.schema)
    case _ => Observe
  }

  /** What the worker does with an accepted request's answer; w is the store it was served on. */
  function Continue(ad: Adapter, w: World, k: CrKey, pc: Pc): Next {
    match pc
    case AtStart => if k in w.crs then Dispatch(k, w.crs[k]) else Return(true)
    case AtAddFinalizer(_) => Return(true)
    case AtGetTarget(seen) => Goto(if NeedsClass(ad, seen.spec) then AtListClasses(seen) else AtApplyTarget(seen, ""))
    case AtListClasses(seen) => Goto(AtApplyTarget(seen, Resolved(w.classes)))
    case AtApplyTarget(seen, cls) =>
      Goto(EnterExtras(seen, Applied(w, TargetKey(k), TargetManifest(ad, k, seen, cls), Operator(k.kind)),
                       Extras(ad, k, LocalSpec(ad, seen, cls))))
    case AtExtraGet(seen, target, e, rest) =>
      Goto(if ExtraKey(k, e) in w.objs then AtExtra(seen, target, e, rest) else EnterExtras(seen, target, rest))
    case AtExtra(seen, target, e, rest) =>
      Goto(if e.desired.Some? && e.patchOnly && e.gvk == StatefulSet then AtUnstickGet(seen, target, e, rest)
           else EnterExtras(seen, target, rest))
    case AtUnstickGet(seen, target, e, rest) =>
      if ExtraKey(k, e) in w.objs && Unfinished(w.objs[ExtraKey(k, e)]) then
        var sts := w.objs[ExtraKey(k, e)];
        Goto(AtUnstickList(seen, target, e, rest, UpdateRevision(sts), sts.selector))
      else Goto(EnterExtras(seen, target, rest))
    case AtUnstickList(seen, target, e, rest, revision, selector) =>
      Goto(EnterVictims(seen, target, e, rest, revision, Victims(ListPods(w.pods, k.ns, selector), revision)))
    case AtUnstickDelete(seen, target, e, rest, revision, _, others) =>
      Goto(EnterVictims(seen, target, e, rest, revision, others))
    case AtStatus(_, _) => Return(true)
    case AtDeleteTarget(seen) => Goto(EnterDelete(ad, k, seen, Extras(ad, k, seen.spec)))
    case AtDeleteExtra(seen, _, rest) => Goto(EnterDelete(ad, k, seen, rest))
    case AtDeletePvcs(seen) => Goto(AtRemoveFinalizer(seen))
    case AtRemoveFinalizer(_) => Return(true)
  }

  /** One call: a refused request makes Reconcile return the error. */
  function Step(ad: Adapter, w: World, k: CrKey, pc: Pc): Stepped {
    var r := RequestOf(ad, k, pc, w.now);
    if Accepted(w, r) then Stepped(Serve(w, r), Continue(ad, w, k, pc)) else Stepped(w, Return(false))
  }

  // ---------------------------------------------------------------- one uninterrupted pass

  /** What a pass from pc leaves behind when nothing interferes and the first `calls` calls
      succeed: the store, and whether Reconcile returned without an error. */
  function Exec(ad: Adapter, w: World, k: CrKey, pc: Pc, calls: nat): (World, bool)
    decreases calls
  {
    if calls == 0 then (w, false)
    else
      var s := Step(ad, w, k, pc);
      match s.next
      case Return(ok) => (s.w, ok)
      case Goto(pc') => Exec(ad, s.w, k, pc', calls - 1)
  }

  predicate Applying(pc: Pc) {
    pc.AtGetTarget? || pc.AtListClasses? || pc.AtApplyTarget? || pc.AtExtraGet? || pc.AtExtra? ||
    pc.AtUnstickGet? || pc.AtUnstickList? || pc.AtUnstickDelete? || pc.AtStatus?
  }

  predicate Deleting(pc: Pc) {
    pc.AtDeleteTarget? || pc.AtDeleteExtra? || pc.AtDeletePvcs? || pc.AtRemoveFinalizer?
  }
}
