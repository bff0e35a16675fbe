/** What one successful pass of Reconcile leaves behind, stated declaratively: object by
    object, pod by pod, and for the status. The step machine refines this statement. */
module Convergence {
  import opened Kinds
  import opened Specs
  import opened Manifests
  import opened Naming
  import opened ServerSideApply
  import opened Status
  import opened Contract
  import opened IngressClasses
  import opened Pods
  import opened Cluster
  import opened Engine
  import opened Machines
  import opened Interleaving
  import opened Safety
  import opened Orphans

  /** Stored, finalizer included, and not marked for deletion. */
  predicate Active(w: World, k: CrKey) {
    k in w.crs && !w.crs[k].deleting && FINALIZER in w.crs[k].finalizers
  }

  /** The class the pass sets: only when an Ingress is requested without one. */
  function ClassFor(ad: Adapter, w: World, spec: Spec): string {
    if NeedsClass(ad, spec) then Resolved(w.classes) else ""
  }

  /** What a pass starting from a store has to do. */
  datatype Plan = Plan(k: CrKey, start: World, manifest: Manifest, extras: seq<Extra>)

  function PlanOf(ad: Adapter, w: World, k: CrKey): Plan
    requires k in w.crs
  {
    var spec := LocalSpec(ad, w.crs[k], ClassFor(ad, w, w.crs[k].spec));
    Plan(k, w, ad.manifest(spec, k.ns, k.name), Extras(ad, k, spec))
  }

  function At(w: World, key: Key): Option<Obj> {
    if key in w.objs then Some(w.objs[key]) else None
  }

  function KeyAt(plan: Plan, j: int): Key
    requires 0 <= j < |plan.extras|
  {
    ExtraKey(plan.k, plan.extras[j])
  }

  /** The target after the pass. */
  function TargetAfter(plan: Plan): Obj {
    Applied(plan.start, TargetKey(plan.k), plan.manifest, Operator(plan.k.kind))
  }

  /** One auxiliary object after the pass: applied, left out for want of an object to patch,
      or pruned. */
  function ExtraAfter(plan: Plan, e: Extra): Option<Obj> {
    var key := ExtraKey(plan.k, e);
    if e.desired.None? then At(plan.start.(objs := Deleted(plan.start.objs, key)), key)
    else if e.patchOnly && key !in plan.start.objs then None
    else Some(Applied(plan.start, key, e.desired.value, Operator(plan.k.kind)))
  }

  /** The target and the first i auxiliary objects are as planned, every other object is as
      it was. */
  ghost predicate DoneObjs(plan: Plan, w: World, i: int)
    requires 0 <= i <= |plan.extras|
  {
    && At(w, TargetKey(plan.k)) == Some(TargetAfter(plan))
    && (forall j :: 0 <= j < i ==> At(w, KeyAt(plan, j)) == ExtraAfter(plan, plan.extras[j]))
    && (forall key :: key != TargetKey(plan.k) && (forall j :: 0 <= j < i ==> key != KeyAt(plan, j)) ==>
          At(w, key) == At(plan.start, key))
  }

  /** The j-th extra is a patched StatefulSet with an unfinished rollout, and p one of its
      pods that is off the update revision and not Ready. */
  predicate PodVictim(plan: Plan, j: int, p: Pod)
    requires 0 <= j < |plan.extras|
  {
    var e, key := plan.extras[j], KeyAt(plan, j);
    && e.desired.Some? && e.patchOnly && key in plan.start.objs && Unfinished(plan.start.objs[key])
    && Selected(p, plan.k.ns, plan.start.objs[key].selector)
    && Stuck(p, UpdateRevision(plan.start.objs[key]))
  }

  /** p is a pod of the StatefulSet at key that its rollout will not get past: the revisions
      differ, p carries the labels of the selector but not the hash of the update revision, and
      is not Ready. */
  ghost predicate HoldsUp(w: World, key: Key, p: Pod) {
    key in w.objs &&
    var strs, selector := w.objs[key].status.strs, w.objs[key].selector;
    && "updateRevision" in strs && strs["updateRevision"] != ""
    && ("currentRevision" in strs ==> strs["currentRevision"] != strs["updateRevision"])
    && selector != map[] && p.ns == key.ns
    && (forall l :: l in selector ==> l in p.labels && p.labels[l] == selector[l])
    && ("controller-revision-hash" in p.labels ==> p.labels["controller-revision-hash"] != strs["updateRevision"])
    && !(exists i :: TrueAt(p.conditions, i))
  }

  /** That is what the engine's tests come to. */
  lemma HoldsUpExactly(w: World, key: Key, p: Pod)
    ensures HoldsUp(w, key, p) <==>
            (key in w.objs && Unfinished(w.objs[key]) && Selected(p, key.ns, w.objs[key].selector) &&
             Stuck(p, UpdateRevision(w.objs[key])))
  {
    ReadyExactly(p.conditions);
  }

  /** A stuck pod of one of the first i extras. */
  ghost predicate Earlier(plan: Plan, i: int, p: Pod)
    requires 0 <= i <= |plan.extras|
  {
    exists j :: 0 <= j < i && PodVictim(plan, j, p)
  }

  /** Exactly the stuck pods of the first i extras are gone. */
  ghost predicate DonePods(plan: Plan, w: World, i: int)
    requires 0 <= i <= |plan.extras|
  {
    forall p :: p in w.pods <==> p in plan.start.pods && !Earlier(plan, i, p)
  }

  predicate SameRest(plan: Plan, w: World) {
    w == plan.start.(objs := w.objs, pods := w.pods)
  }

  /** The keys of a plan are distinct, and exactly its StatefulSets are patched only. */
  ghost predicate Distinct(plan: Plan) {
    && (forall i, j :: 0 <= i < j < |plan.extras| ==> KeyAt(plan, i) != KeyAt(plan, j))
    && (forall i :: 0 <= i < |plan.extras| ==>
          KeyAt(plan, i) != TargetKey(plan.k)
          && (plan.extras[i].patchOnly <==> plan.extras[i].gvk == StatefulSet)
          && (plan.extras[i].patchOnly ==> plan.extras[i].desired.Some?))
  }

  lemma PlanDistinct(ad: Adapter, w: World, k: CrKey)
    requires Lawful(ad) && k in w.crs
    ensures Distinct(PlanOf(ad, w, k)) && |PlanOf(ad, w, k).extras| == |ad.ids|
  {
    var plan := PlanOf(ad, w, k);
    var spec := LocalSpec(ad, w.crs[k], ClassFor(ad, w, w.crs[k].spec));
    ExtrasLength(ad, k, spec);
    forall i | 0 <= i < |plan.extras| ensures Conforms(ad, k, plan.extras[i], i) {
      ExtraIsId(ad, k, spec, i);
    }
    forall i, j | 0 <= i < |plan.extras| && 0 <= j < |plan.extras|
      ensures KeyAt(plan, i) != TargetKey(k) && (i != j ==> KeyAt(plan, i) != KeyAt(plan, j))
    {
      OwnKeysDistinct(ad.ids, k, i, j);
    }
  }

  // ---------------------------------------------------------------- the pass as a plan

  /** The worker is at entry i of the plan, with the locals it should hold. */
  ghost predicate AtEntry(plan: Plan, w: World, seen: CR, target: Obj, i: int) {
    && plan.k in plan.start.crs && seen == plan.start.crs[plan.k] && SameRest(plan, w)
    && 0 <= i <= |plan.extras| && target == TargetAfter(plan)
  }

  ghost predicate Entry(plan: Plan, w: World, seen: CR, target: Obj, e: Extra, rest: seq<Extra>, done: nat) {
    var i := |plan.extras| - |rest| - 1;
    && 0 <= i && plan.extras[i] == e && plan.extras[i + 1..] == rest
    && AtEntry(plan, w, seen, target, i) && i + done <= |plan.extras| && DoneObjs(plan, w, i + done)
  }

  predicate AtOutset(plan: Plan, w: World, seen: CR) {
    w == plan.start && plan.k in w.crs && seen == w.crs[plan.k]
  }

  /** In the middle of the victims of entry i: what is left of its stuck pods is among the
      names still to delete, and only stuck pods have gone. */
  ghost predicate DeletingVictims(plan: Plan, w: World, i: int, left: seq<string>)
    requires 0 <= i < |plan.extras|
  {
    && (forall p :: p in w.pods ==>
        p in plan.start.pods && !Earlier(plan, i, p) && (PodVictim(plan, i, p) ==> p.name in left))
    && (forall p :: p in plan.start.pods && !Earlier(plan, i, p) && !PodVictim(plan, i, p) ==> p in w.pods)
    && (forall n :: n in left ==> exists p :: p in plan.start.pods && PodVictim(plan, i, p) && p.name == n)
  }

  ghost predicate Unsticking(plan: Plan, w: World, seen: CR, target: Obj, e: Extra, rest: seq<Extra>) {
    Entry(plan, w, seen, target, e, rest, 1) && e.patchOnly && e.desired.Some? && ExtraKey(plan.k, e) in plan.start.objs
  }

  /** What holds at each call of an uninterrupted pass. */
  ghost predicate OnPlan(ad: Adapter, plan: Plan, w: World, pc: Pc) {
    match pc
    case AtGetTarget(seen) => AtOutset(plan, w, seen)
    case AtListClasses(seen) => AtOutset(plan, w, seen) && NeedsClass(ad, seen.spec)
    case AtApplyTarget(seen, cls) => AtOutset(plan, w, seen) && cls == ClassFor(ad, w, seen.spec)
    case AtExtraGet(seen, target, e, rest) =>
      Entry(plan, w, seen, target, e, rest, 0) && DonePods(plan, w, |plan.extras| - |rest| - 1) && e.desired.Some? &&
        e.patchOnly
    case AtExtra(seen, target, e, rest) =>
      Entry(plan, w, seen, target, e, rest, 0) && DonePods(plan, w, |plan.extras| - |rest| - 1) &&
      (e.patchOnly ==> ExtraKey(plan.k, e) in w.objs)
    case AtUnstickGet(seen, target, e, rest) =>
      Unsticking(plan, w, seen, target, e, rest) && DonePods(plan, w, |plan.extras| - |rest| - 1)
    case AtUnstickList(seen, target, e, rest, revision, selector) =>
      Unsticking(plan, w, seen, target, e, rest) && DonePods(plan, w, |plan.extras| - |rest| - 1) &&
      var sts := plan.start.objs[ExtraKey(plan.k, e)];
      Unfinished(sts) && revision == UpdateRevision(sts) && selector == sts.selector
    case AtUnstickDelete(seen, target, e, rest, _, victim, others) =>
      Unsticking(plan, w, seen, target, e, rest) &&
        DeletingVictims(plan, w, |plan.extras| - |rest| - 1, [victim] + others)
    case AtStatus(seen, target) =>
      AtEntry(plan, w, seen, target, |plan.extras|) && DoneObjs(plan, w, |plan.extras|) &&
        DonePods(plan, w, |plan.extras|)
    case _ => false
  }

  lemma EnterOnPlan(ad: Adapter, plan: Plan, w: World, seen: CR, target: Obj, i: int)
    requires Distinct(plan) && AtEntry(plan, w, seen, target, i) && DoneObjs(plan, w, i) && DonePods(plan, w, i)
    ensures OnPlan(ad, plan, w, EnterExtras(seen, target, plan.extras[i..]))
  {
    if i < |plan.extras| {
      var todo := plan.extras[i..];
      assert todo[0] == plan.extras[i] && todo[1..] == plan.extras[i + 1..];
    }
  }

  // ---------------------------------------------------------------- every call keeps to the plan

  ghost predicate PlanFor(ad: Adapter, plan: Plan) {
    && plan.k in plan.start.crs && plan == PlanOf(ad, plan.start, plan.k)
    && Distinct(plan) && UniqueNames(plan.start.pods)
  }

  ghost predicate Keeps(ad: Adapter, plan: Plan, w: World, pc: Pc) {
    Accepted(w, RequestOf(ad, plan.k, pc, w.now)) &&
    var next := Continue(ad, w, plan.k, pc);
    next.Goto? && OnPlan(ad, plan, Serve(w, RequestOf(ad, plan.k, pc, w.now)), next.pc)
  }

  lemma KeepsBy(ad: Adapter, plan: Plan, w: World, pc: Pc, v: World, next: Pc)
    requires Does(ad, w, plan.k, pc, v, next) && OnPlan(ad, plan, v, next)
    ensures Keeps(ad, plan, w, pc)
  {
  }

  lemma UnstickCalls(ad: Adapter, w: World, k: CrKey, pc: Pc)
    requires pc.AtUnstickList? || pc.AtUnstickDelete?
    ensures if pc.AtUnstickList? then
              Does(ad, w, k, pc, w, EnterVictims(pc.seen, pc.target, pc.e, pc.rest, pc.revision,
                                                 Victims(ListPods(w.pods, k.ns, pc.selector), pc.revision)))
            else
              Does(ad, w, k, pc, w.(pods := PodDeleted(w.pods, k.ns, pc.victim)),
                   EnterVictims(pc.seen, pc.target, pc.e, pc.rest, pc.revision, pc.others))
  {
  }

  lemma TargetApplied(ad: Adapter, plan: Plan, w: World, pc: Pc)
    requires PlanFor(ad, plan) && pc.AtApplyTarget? && OnPlan(ad, plan, w, pc)
    ensures Keeps(ad, plan, w, pc)
  {
    var r := RequestOf(ad, plan.k, pc, w.now);
    var v := Serve(w, r);
    assert plan.extras[0..] == plan.extras;
    EnterOnPlan(ad, plan, v, pc.seen, TargetAfter(plan), 0);
  }

  /** An entry not reached yet is as it was at the start. */
  lemma NotYetReached(plan: Plan, w: World, i: int)
    requires Distinct(plan) && 0 <= i < |plan.extras| && DoneObjs(plan, w, i)
    ensures At(w, KeyAt(plan, i)) == At(plan.start, KeyAt(plan, i))
  {
  }

  lemma NoVictims(plan: Plan, w: World, i: int)
    requires 0 <= i < |plan.extras| && DonePods(plan, w, i) && forall p :: !PodVictim(plan, i, p)
    ensures DonePods(plan, w, i + 1)
  {
    forall p ensures Earlier(plan, i, p) <==> Earlier(plan, i + 1, p) {
    }
  }

  lemma NothingToPatch(ad: Adapter, plan: Plan, w: World, pc: Pc)
    requires Distinct(plan) && pc.AtExtraGet? && OnPlan(ad, plan, w, pc)
    ensures Keeps(ad, plan, w, pc)
  {
    var i := |plan.extras| - |pc.rest| - 1;
    NotYetReached(plan, w, i);
    if ExtraKey(plan.k, pc.e) !in w.objs {
      NoVictims(plan, w, i);
      EnterOnPlan(ad, plan, w, pc.seen, pc.target, i + 1);
    }
  }

  /** Writing the planned object at entry i. */
  lemma EntryWritten(plan: Plan, w: World, v: World, i: int)
    requires Distinct(plan) && 0 <= i < |plan.extras| && DoneObjs(plan, w, i)
    requires At(v, KeyAt(plan, i)) == ExtraAfter(plan, plan.extras[i])
    requires forall key :: key != KeyAt(plan, i) ==> At(v, key) == At(w, key)
    ensures DoneObjs(plan, v, i + 1)
  {
  }

  lemma EntryServed(ad: Adapter, plan: Plan, w: World, pc: Pc)
    requires Distinct(plan) && pc.AtExtra? && OnPlan(ad, plan, w, pc)
    ensures Accepted(w, RequestOf(ad, plan.k, pc, w.now))
    ensures var v := Serve(w, RequestOf(ad, plan.k, pc, w.now));
            DoneObjs(plan, v, |plan.extras| - |pc.rest|) && v == w.(objs := v.objs)
  {
    var i := |plan.extras| - |pc.rest| - 1;
    NotYetReached(plan, w, i);
    var v := Serve(w, RequestOf(ad, plan.k, pc, w.now));
    EntryWritten(plan, w, v, i);
  }

  lemma EntryDone(ad: Adapter, plan: Plan, w: World, pc: Pc)
    requires Distinct(plan) && pc.AtExtra? && OnPlan(ad, plan, w, pc)
    ensures Keeps(ad, plan, w, pc)
  {
    EntryServed(ad, plan, w, pc);
    var i := |plan.extras| - |pc.rest| - 1;
    var v := Serve(w, RequestOf(ad, plan.k, pc, w.now));
    if !(pc.e.desired.Some? && pc.e.patchOnly) {
      NoVictims(plan, v, i);
      EnterOnPlan(ad, plan, v, pc.seen, pc.target, i + 1);
    } else {
      NotYetReached(plan, w, i);
    }
  }

  /** A patch leaves what the unstick step reads. */
  lemma PatchedReadsSame(plan: Plan, w: World, pc: Pc)
    requires AtListedExtra(pc) && Unsticking(plan, w, pc.seen, pc.target, pc.e, pc.rest)
    ensures var key := ExtraKey(plan.k, pc.e);
            key in w.objs && w.objs[key].status == plan.start.objs[key].status &&
              w.objs[key].selector == plan.start.objs[key].selector
  {
    assert KeyAt(plan, |plan.extras| - |pc.rest| - 1) == ExtraKey(plan.k, pc.e);
  }

  lemma RolloutLookedAt(ad: Adapter, plan: Plan, w: World, pc: Pc)
    requires Distinct(plan) && pc.AtUnstickGet? && OnPlan(ad, plan, w, pc)
    ensures Keeps(ad, plan, w, pc)
  {
    PatchedReadsSame(plan, w, pc);
    var i := |plan.extras| - |pc.rest| - 1;
    if !Unfinished(w.objs[ExtraKey(plan.k, pc.e)]) {
      NoVictims(plan, w, i);
      EnterOnPlan(ad, plan, w, pc.seen, pc.target, i + 1);
    }
  }

  lemma VictimsEntered(
    ad: Adapter, plan: Plan, w: World, seen: CR, target: Obj, e: Extra, rest: seq<Extra>, revision: string,
    left: seq<string>)
    requires Distinct(plan) && |rest| < |plan.extras|
    requires Unsticking(plan, w, seen, target, e, rest) && DeletingVictims(plan, w, |plan.extras| - |rest| - 1, left)
    ensures OnPlan(ad, plan, w, EnterVictims(seen, target, e, rest, revision, left))
  {
    var i := |plan.extras| - |rest| - 1;
    if left == [] {
      forall p ensures Earlier(plan, i + 1, p) <==> Earlier(plan, i, p) || PodVictim(plan, i, p) {
      }
      EnterOnPlan(ad, plan, w, seen, target, i + 1);
    } else {
      assert [left[0]] + left[1..] == left;
    }
  }

  lemma ListedAreVictims(plan: Plan, w: World, i: int)
    requires 0 <= i < |plan.extras| && DonePods(plan, w, i) && KeyAt(plan, i) in plan.start.objs
    requires var e, sts := plan.extras[i], plan.start.objs[KeyAt(plan, i)];
             e.desired.Some? && e.patchOnly && Unfinished(sts)
    ensures var sts := plan.start.objs[KeyAt(plan, i)];
            DeletingVictims(plan, w, i, Victims(ListPods(w.pods, plan.k.ns, sts.selector), UpdateRevision(sts)))
  {
    var sts := plan.start.objs[KeyAt(plan, i)];
    var listed := ListPods(w.pods, plan.k.ns, sts.selector);
    forall p | p in w.pods && PodVictim(plan, i, p) ensures p.name in Victims(listed, UpdateRevision(sts)) {
      assert p in listed;
      VictimsAreStuck(listed, UpdateRevision(sts), p.name);
    }
    forall n | n in Victims(listed, UpdateRevision(sts))
      ensures exists p :: p in plan.start.pods && PodVictim(plan, i, p) && p.name == n
    {
      VictimsAreStuck(listed, UpdateRevision(sts), n);
    }
  }

  lemma ListedHere(plan: Plan, w: World, seen: CR, target: Obj, e: Extra, rest: seq<Extra>)
    requires Unsticking(plan, w, seen, target, e, rest) && DonePods(plan, w, |plan.extras| - |rest| - 1)
    requires Unfinished(plan.start.objs[ExtraKey(plan.k, e)])
    ensures var sts := plan.start.objs[ExtraKey(plan.k, e)];
            DeletingVictims(plan, w, |plan.extras| - |rest| - 1,
                            Victims(ListPods(w.pods, plan.k.ns, sts.selector), UpdateRevision(sts)))
  {
    assert KeyAt(plan, |plan.extras| - |rest| - 1) == ExtraKey(plan.k, e);
    ListedAreVictims(plan, w, |plan.extras| - |rest| - 1);
  }

  lemma VictimsOnList(ad: Adapter, plan: Plan, w: World, seen: CR, target: Obj, e: Extra, rest: seq<Extra>)
    requires Distinct(plan) && Unsticking(plan, w, seen, target, e, rest)
    requires DonePods(plan, w, |plan.extras| - |rest| - 1) && Unfinished(plan.start.objs[ExtraKey(plan.k, e)])
    ensures var sts := plan.start.objs[ExtraKey(plan.k, e)];
            var revision := UpdateRevision(sts);
            var victims := Victims(ListPods(w.pods, plan.k.ns, sts.selector), revision);
            OnPlan(ad, plan, w, EnterVictims(seen, target, e, rest, revision, victims))
  {
    var sts := plan.start.objs[ExtraKey(plan.k, e)];
    ListedHere(plan, w, seen, target, e, rest);
    VictimsEntered(ad, plan, w, seen, target, e, rest, UpdateRevision(sts),
                   Victims(ListPods(w.pods, plan.k.ns, sts.selector), UpdateRevision(sts)));
  }

  lemma VictimsListed(ad: Adapter, plan: Plan, w: World, pc: Pc)
    requires Distinct(plan) && pc.AtUnstickList? && OnPlan(ad, plan, w, pc)
    ensures Keeps(ad, plan, w, pc)
  {
    var victims := Victims(ListPods(w.pods, plan.k.ns, pc.selector), pc.revision);
    VictimsOnList(ad, plan, w, pc.seen, pc.target, pc.e, pc.rest);
    UnstickCalls(ad, w, plan.k, pc);
    KeepsBy(ad, plan, w, pc, w, EnterVictims(pc.seen, pc.target, pc.e, pc.rest, pc.revision, victims));
  }

  lemma OneVictimLess(plan: Plan, w: World, v: World, i: int, victim: string, others: seq<string>)
    requires UniqueNames(plan.start.pods) && 0 <= i < |plan.extras| && DeletingVictims(plan, w, i, [victim] + others)
    requires v.pods == PodDeleted(w.pods, plan.k.ns, victim)
    ensures DeletingVictims(plan, v, i, others)
  {
    assert victim in [victim] + others;
    var q :| q in plan.start.pods && PodVictim(plan, i, q) && q.name == victim;
    assert forall p :: p in plan.start.pods && p.ns == plan.k.ns && p.name == victim ==> p == q;
    assert forall n :: n in others ==> n in [victim] + others;
  }

  lemma UnstickingElsewhere(plan: Plan, w: World, v: World, seen: CR, target: Obj, e: Extra, rest: seq<Extra>)
    requires Unsticking(plan, w, seen, target, e, rest) && v == w.(pods := v.pods)
    ensures Unsticking(plan, v, seen, target, e, rest)
  {
  }

  lemma VictimGone(
    ad: Adapter, plan: Plan, w: World, v: World, seen: CR, target: Obj, e: Extra, rest: seq<Extra>,
    revision: string, victim: string, others: seq<string>)
    requires Distinct(plan) && UniqueNames(plan.start.pods) && |rest| < |plan.extras|
    requires v == w.(pods := PodDeleted(w.pods, plan.k.ns, victim)) && Unsticking(plan, w, seen, target, e, rest)
    requires DeletingVictims(plan, w, |plan.extras| - |rest| - 1, [victim] + others)
    ensures OnPlan(ad, plan, v, EnterVictims(seen, target, e, rest, revision, others))
  {
    OneVictimLess(plan, w, v, |plan.extras| - |rest| - 1, victim, others);
    UnstickingElsewhere(plan, w, v, seen, target, e, rest);
    VictimsEntered(ad, plan, v, seen, target, e, rest, revision, others);
  }

  lemma VictimDeleted(ad: Adapter, plan: Plan, w: World, pc: Pc)
    requires Distinct(plan) && UniqueNames(plan.start.pods) && pc.AtUnstickDelete? && OnPlan(ad, plan, w, pc)
    ensures Keeps(ad, plan, w, pc)
  {
    var v := w.(pods := PodDeleted(w.pods, plan.k.ns, pc.victim));
    VictimGone(ad, plan, w, v, pc.seen, pc.target, pc.e, pc.rest, pc.revision, pc.victim, pc.others);
    UnstickCalls(ad, w, plan.k, pc);
    KeepsBy(ad, plan, w, pc, v, EnterVictims(pc.seen, pc.target, pc.e, pc.rest, pc.revision, pc.others));
  }

  /** No call of an uninterrupted pass is refused, and each leads to the next of the plan. */
  lemma EveryCallKeeps(ad: Adapter, plan: Plan, w: World, pc: Pc)
    requires PlanFor(ad, plan) && OnPlan(ad, plan, w, pc) && !pc.AtStatus?
    ensures Keeps(ad, plan, w, pc)
  {
    match pc
    case AtApplyTarget(_, _) => TargetApplied(ad, plan, w, pc);
    case AtExtraGet(_, _, _, _) => NothingToPatch(ad, plan, w, pc);
    case AtExtra(_, _, _, _) => EntryDone(ad, plan, w, pc);
    case AtUnstickGet(_, _, _, _) => RolloutLookedAt(ad, plan, w, pc);
    case AtUnstickList(_, _, _, _, _, _) => VictimsListed(ad, plan, w, pc);
    case AtUnstickDelete(_, _, _, _, _, _, _) => VictimDeleted(ad, plan, w, pc);
    case _ =>
  }

  // ---------------------------------------------------------------- the whole pass

  /** The status the pass writes: mirrored from the target as it now is. */
  function StatusAfter(ad: Adapter, plan: Plan): CrStatus
    requires plan.k in plan.start.crs
  {
    MirroredStatus(ad, plan.k, plan.start.crs[plan.k], TargetAfter(plan), plan.start.now)
  }

  /** The declarative statement of a successful pass. */
  ghost predicate Completed(ad: Adapter, plan: Plan, v: World)
    requires plan.k in plan.start.crs
  {
    && DoneObjs(plan, v, |plan.extras|) && DonePods(plan, v, |plan.extras|)
    && plan.k in v.crs
    && v.crs == plan.start.crs[plan.k :=
                               plan.start.crs[plan.k].(status := StatusAfter(ad, plan), rv := v.crs[plan.k].rv)]
    && v == plan.start.(objs := v.objs, pods := v.pods, crs := v.crs, clock := v.clock)
  }

  lemma StatusDone(ad: Adapter, plan: Plan, w: World, pc: Pc)
    requires PlanFor(ad, plan) && OnPlan(ad, plan, w, pc) && pc.AtStatus?
    ensures var s := Step(ad, w, plan.k, pc); s.next == Return(true) && Completed(ad, plan, s.w)
  {
    var v := Step(ad, w, plan.k, pc).w;
    assert v.crs[plan.k].status == StatusAfter(ad, plan);
    assert v.crs == plan.start.crs[plan.k :=
                                   plan.start.crs[plan.k].(status := StatusAfter(ad, plan), rv := v.crs[plan.k].rv)];
  }

  /** The last call of a pass. */
  lemma StatusRun(run: Machine, ad: Adapter, plan: Plan, w: World, pc: Pc, calls: nat)
    requires IsMachine(run, ad, plan.k) && PlanFor(ad, plan) && OnPlan(ad, plan, w, pc) && pc.AtStatus?
    ensures if calls == 0 then run(w, pc, calls) == (w, false)
            else run(w, pc, calls).1 && Completed(ad, plan, run(w, pc, calls).0)
  {
    if calls == 0 {
      CallStops(run, ad, w, plan.k, pc, calls);
    } else {
      StatusDone(ad, plan, w, pc);
      CallReturns(run, ad, w, plan.k, pc, calls, RequestOf(ad, plan.k, pc, w.now), true);
    }
  }

  /** Any other call: it leads on, and the plan with it. */
  lemma KeptRun(run: Machine, ad: Adapter, plan: Plan, w: World, pc: Pc, calls: nat) returns (v: World, next: Pc)
    requires IsMachine(run, ad, plan.k) && PlanFor(ad, plan) && OnPlan(ad, plan, w, pc) && !pc.AtStatus?
    ensures Does(ad, w, plan.k, pc, v, next) && OnPlan(ad, plan, v, next)
    ensures run(w, pc, calls) == if calls == 0 then (w, false) else run(v, next, calls - 1)
  {
    EveryCallKeeps(ad, plan, w, pc);
    v := Serve(w, RequestOf(ad, plan.k, pc, w.now));
    next := Continue(ad, w, plan.k, pc).pc;
    if calls == 0 {
      CallStops(run, ad, w, plan.k, pc, calls);
    } else {
      Advances(run, ad, w, plan.k, pc, calls, v, next);
    }
  }

  lemma {:induction false} PassFromPlan(run: Machine, ad: Adapter, plan: Plan, w: World, pc: Pc, calls: nat)
    requires IsMachine(run, ad, plan.k) && PlanFor(ad, plan) && OnPlan(ad, plan, w, pc)
    requires run(w, pc, calls).1
    ensures Completed(ad, plan, run(w, pc, calls).0)
    decreases calls
  {
    if pc.AtStatus? {
      StatusRun(run, ad, plan, w, pc, calls);
    } else {
      var v, next := KeptRun(run, ad, plan, w, pc, calls);
      PassFromPlan(run, ad, plan, v, next, calls - 1);
    }
  }

  /** The first call of a pass over an active resource. */
  lemma PassBegins(run: Machine, ad: Adapter, w: World, k: CrKey, calls: nat)
    requires IsMachine(run, ad, k) && Lawful(ad) && Active(w, k) && UniqueNames(w.pods)
    ensures PlanFor(ad, PlanOf(ad, w, k)) && OnPlan(ad, PlanOf(ad, w, k), w, AtGetTarget(w.crs[k]))
    ensures run(w, AtStart, calls) == if calls == 0 then (w, false) else run(w, AtGetTarget(w.crs[k]), calls - 1)
  {
    PlanDistinct(ad, w, k);
    if calls == 0 {
      CallStops(run, ad, w, k, AtStart, calls);
    } else {
      CallAdvances(run, ad, w, k, AtStart, calls, Observe, AtGetTarget(w.crs[k]));
    }
  }

  /** Refinement: a pass over an active resource that returns without an error, with nobody
      interfering, leaves exactly what the plan made from the store it started on says. */
  lemma PassOutcome(ad: Adapter, w: World, k: CrKey, calls: nat)
    requires Lawful(ad) && Active(w, k) && UniqueNames(w.pods)
    requires Exec(ad, w, k, AtStart, calls).1
    ensures Completed(ad, PlanOf(ad, w, k), Exec(ad, w, k, AtStart, calls).0)
  {
    var run := MachineOf(ad, k);
    PassBegins(run, ad, w, k, calls);
    PassFromPlan(run, ad, PlanOf(ad, w, k), w, AtGetTarget(w.crs[k]), calls - 1);
  }
}
