/** What follows from the outcome of a successful pass: it succeeds when no call fails, it
    does not depend on how the store came about, and repeating it changes nothing. */
module Fixpoints {
  import opened Kinds
  import opened Specs
  import opened Manifests
  import opened Naming
  import opened ServerSideApply
  import opened Status
  import opened Contract
  import opened IngressClasses
  import opened Pods
  import opened Cluster
  import opened Engine
  import opened Machines
  import opened Interleaving
  import opened Safety
  import opened Orphans
  import opened Convergence
  import opened Deletion

  // ---------------------------------------------------------------- progress

  /** The calls one clean pass over an active resource takes at most. */
  function PassCalls(ad: Adapter, pods: nat): nat {
    5 + Times(|ad.ids|, PerExtra(pods))
  }

  lemma FewerPods(w: World, r: Request)
    requires Accepted(w, r)
    ensures |Serve(w, r).pods| <= |w.pods|
  {
  }

  lemma CallProgresses(ad: Adapter, w: World, k: CrKey, pc: Pc, v: World, next: Pc, most: nat)
    requires Lawful(ad) && Does(ad, w, k, pc, v, next) && !pc.AtStart? && |w.pods| <= most
    ensures |v.pods| <= most && Cost(ad, next, most) < Cost(ad, pc, most)
  {
    ContinueCost(ad, w, k, pc, most);
    FewerPods(w, RequestOf(ad, k, pc, w.now));
  }

  lemma OnPlanCost(ad: Adapter, plan: Plan, w: World, pc: Pc, most: nat)
    requires OnPlan(ad, plan, w, pc)
    ensures Cost(ad, pc, most) > Pass(ad) && !pc.AtStart?
  {
  }

  lemma {:induction false} PlanSucceeds(run: Machine, ad: Adapter, plan: Plan, w: World, pc: Pc, calls: nat, most: nat)
    requires IsMachine(run, ad, plan.k) && Lawful(ad) && PlanFor(ad, plan) && OnPlan(ad, plan, w, pc)
    requires |w.pods| <= most && calls + Pass(ad) >= Cost(ad, pc, most)
    ensures run(w, pc, calls).1
    decreases calls
  {
    OnPlanCost(ad, plan, w, pc, most);
    if pc.AtStatus? {
      StatusRun(run, ad, plan, w, pc, calls);
    } else {
      var v, next := KeptRun(run, ad, plan, w, pc, calls);
      CallProgresses(ad, w, plan.k, pc, v, next, most);
      PlanSucceeds(run, ad, plan, v, next, calls - 1, most);
    }
  }

  lemma StartCost(ad: Adapter, w: World, k: CrKey, calls: nat)
    requires k in w.crs && calls >= PassCalls(ad, |w.pods|)
    ensures calls - 1 + Pass(ad) >= Cost(ad, AtGetTarget(w.crs[k]), |w.pods|)
  {
  }

  /** No call of an undisturbed pass is ever refused: if enough calls succeed, the pass does. */
  lemma CleanPassSucceeds(ad: Adapter, w: World, k: CrKey, calls: nat)
    requires Lawful(ad) && Active(w, k) && UniqueNames(w.pods) && calls >= PassCalls(ad, |w.pods|)
    ensures Exec(ad, w, k, AtStart, calls).1
  {
    var run := MachineOf(ad, k);
    PassBegins(run, ad, w, k, calls);
    StartCost(ad, w, k, calls);
    PlanSucceeds(run, ad, PlanOf(ad, w, k), w, AtGetTarget(w.crs[k]), calls - 1, |w.pods|);
  }

  // ---------------------------------------------------------------- idempotence

  function OrAbsent(w: World, key: Key): Obj {
    if key in w.objs then w.objs[key] else ABSENT
  }

  /** The two stores ask for the same: one spec, one resolution of the ingress class. */
  predicate SameWishes(ad: Adapter, w: World, v: World, k: CrKey) {
    && k in w.crs && k in v.crs && w.crs[k].spec == v.crs[k].spec
    && ClassFor(ad, w, w.crs[k].spec) == ClassFor(ad, v, v.crs[k].spec)
  }

  lemma SamePlan(ad: Adapter, w: World, v: World, k: CrKey)
    requires SameWishes(ad, w, v, k)
    ensures PlanOf(ad, v, k) == PlanOf(ad, w, k).(start := v)
  {
  }

  /** The store already is what the plan wants. */
  ghost predicate Settled(ad: Adapter, plan: Plan)
    requires plan.k in plan.start.crs
  {
    && At(plan.start, TargetKey(plan.k)) == Some(TargetAfter(plan))
    && (forall j :: 0 <= j < |plan.extras| ==> At(plan.start, KeyAt(plan, j)) == ExtraAfter(plan, plan.extras[j]))
    && (forall j, p :: 0 <= j < |plan.extras| && p in plan.start.pods ==> !PodVictim(plan, j, p))
    && StatusAfter(ad, plan) == plan.start.crs[plan.k].status
  }

  lemma AppliedTwice(w: World, v: World, key: Key, m: Manifest, mgr: Manager)
    requires key in v.objs && v.objs[key] == Applied(w, key, m, mgr)
    ensures Applied(v, key, m, mgr) == v.objs[key]
  {
    MergeIdempotent(OrAbsent(w, key), m, mgr);
  }

  lemma EntrySettled(plan: Plan, v: World, j: int)
    requires 0 <= j < |plan.extras| && At(v, KeyAt(plan, j)) == ExtraAfter(plan, plan.extras[j])
    ensures At(v, KeyAt(plan, j)) == ExtraAfter(plan.(start := v), plan.extras[j])
    ensures forall p :: PodVictim(plan.(start := v), j, p) ==> PodVictim(plan, j, p)
  {
    var e, key := plan.extras[j], KeyAt(plan, j);
    if e.desired.Some? && key in v.objs {
      AppliedTwice(plan.start, v, key, e.desired.value, Operator(plan.k.kind));
    }
  }

  /** A completed plan leaves a store that is settled, and still is at any later time. */
  lemma CompletedSettles(ad: Adapter, plan: Plan, v: World, later: nat)
    requires Lawful(ad) && PlanFor(ad, plan) && Completed(ad, plan, v)
    ensures var u := v.(now := later);
            PlanOf(ad, u, plan.k) == plan.(start := u) && Settled(ad, plan.(start := u))
  {
    var k, u := plan.k, v.(now := later);
    SamePlan(ad, plan.start, u, k);
    AppliedTwice(plan.start, u, TargetKey(k), plan.manifest, Operator(k.kind));
    forall j | 0 <= j < |plan.extras|
      ensures At(u, KeyAt(plan, j)) == ExtraAfter(plan.(start := u), plan.extras[j])
      ensures forall p :: p in u.pods ==> !PodVictim(plan.(start := u), j, p)
    {
      EntrySettled(plan, u, j);
      assert forall p :: PodVictim(plan, j, p) ==> Earlier(plan, |plan.extras|, p);
    }
    assert TargetAfter(plan.(start := u)) == TargetAfter(plan);
    MirroredLater(ad, plan, u);
  }

  lemma MirroredLater(ad: Adapter, plan: Plan, u: World)
    requires Lawful(ad) && plan.k in plan.start.crs && plan.k in u.crs
    requires TargetAfter(plan.(start := u)) == TargetAfter(plan)
    requires u.crs[plan.k].status == StatusAfter(ad, plan)
    requires u.crs[plan.k].generation == plan.start.crs[plan.k].generation
    ensures StatusAfter(ad, plan.(start := u)) == u.crs[plan.k].status
  {
    var cr, name, t := plan.start.crs[plan.k], TargetName(plan.k.name), ad.extract(TargetAfter(plan));
    assert ad.mirror(ad.mirror(cr.status, name, t, cr.generation, plan.start.now), name, t, cr.generation, u.now)
        == ad.mirror(cr.status, name, t, cr.generation, plan.start.now);
  }

  lemma VictimIsPlanned(ad: Adapter, plan: Plan, w: World, pc: Pc)
    requires OnPlan(ad, plan, w, pc) && pc.AtUnstickDelete?
    ensures exists j, p :: 0 <= j < |plan.extras| && p in plan.start.pods && PodVictim(plan, j, p)
  {
    assert pc.victim in [pc.victim] + pc.others;
  }

  lemma SettledTarget(ad: Adapter, plan: Plan, pc: Pc)
    requires PlanFor(ad, plan) && Settled(ad, plan) && OnPlan(ad, plan, plan.start, pc) && pc.AtApplyTarget?
    ensures Step(ad, plan.start, plan.k, pc).w == plan.start
  {
    var w := plan.start;
    assert w.objs[TargetKey(plan.k) := TargetAfter(plan)] == w.objs;
  }

  lemma SettledEntry(ad: Adapter, plan: Plan, pc: Pc)
    requires PlanFor(ad, plan) && Settled(ad, plan) && OnPlan(ad, plan, plan.start, pc) && pc.AtExtra?
    ensures Step(ad, plan.start, plan.k, pc).w == plan.start
  {
    var w, e, key := plan.start, pc.e, KeyAt(plan, |plan.extras| - |pc.rest| - 1);
    assert key == ExtraKey(plan.k, e);
    if e.desired.Some? {
      assert w.objs[key := Applied(w, key, e.desired.value, Operator(plan.k.kind))] == w.objs;
    } else {
      assert Deleted(w.objs, key) == w.objs;
    }
  }

  /** Once the store is settled, no call of a pass changes it. */
  lemma SettledStaysPut(ad: Adapter, plan: Plan, pc: Pc)
    requires PlanFor(ad, plan) && Settled(ad, plan) && OnPlan(ad, plan, plan.start, pc)
    ensures Step(ad, plan.start, plan.k, pc).w == plan.start
  {
    match pc
    case AtApplyTarget(_, _) => SettledTarget(ad, plan, pc);
    case AtExtra(_, _, _, _) => SettledEntry(ad, plan, pc);
    case AtUnstickDelete(_, _, _, _, _, _, _) => VictimIsPlanned(ad, plan, plan.start, pc);
    case _ =>
  }

  lemma {:induction false} SettledForGood(run: Machine, ad: Adapter, plan: Plan, pc: Pc, calls: nat)
    requires IsMachine(run, ad, plan.k) && PlanFor(ad, plan) && Settled(ad, plan) && OnPlan(ad, plan, plan.start, pc)
    ensures run(plan.start, pc, calls).0 == plan.start
    decreases calls
  {
    if calls == 0 {
      CallStops(run, ad, plan.start, plan.k, pc, calls);
    } else {
      SettledStaysPut(ad, plan, pc);
      if pc.AtStatus? {
        StatusDone(ad, plan, plan.start, pc);
        CallReturns(run, ad, plan.start, plan.k, pc, calls, RequestOf(ad, plan.k, pc, plan.start.now), true);
      } else {
        var v, next := KeptRun(run, ad, plan, plan.start, pc, calls);
        SettledForGood(run, ad, plan, next, calls - 1);
      }
    }
  }

  /** Idempotence: a second pass, at any later time, complete or cut short anywhere, leaves the
      whole store as the first successful one left it: objects, extras, pods, status and
      versions. */
  lemma SecondPassChangesNothing(ad: Adapter, w: World, k: CrKey, calls: nat, later: nat, again: nat)
    requires Lawful(ad) && Active(w, k) && UniqueNames(w.pods)
    requires Exec(ad, w, k, AtStart, calls).1
    ensures var v := Exec(ad, w, k, AtStart, calls).0.(now := later); Exec(ad, v, k, AtStart, again).0 == v
  {
    var run, plan, v := MachineOf(ad, k), PlanOf(ad, w, k), Exec(ad, w, k, AtStart, calls).0;
    PassOutcome(ad, w, k, calls);
    PlanDistinct(ad, w, k);
    CompletedSettles(ad, plan, v, later);
    PassBegins(run, ad, v.(now := later), k, again);
    if again > 0 {
      SettledForGood(run, ad, plan.(start := v.(now := later)), AtGetTarget(v.crs[k]), again - 1);
    }
  }

  /** What only the vendor owns on the target stays, its status included, and nothing outside
      the resource's own objects, stuck pods and status changes. */
  lemma PassFrame(ad: Adapter, w: World, k: CrKey, calls: nat, p: Path)
    requires Lawful(ad) && Active(w, k) && UniqueNames(w.pods)
    requires Exec(ad, w, k, AtStart, calls).1
    ensures var plan, v := PlanOf(ad, w, k), Exec(ad, w, k, AtStart, calls).0;
            && TargetKey(k) in v.objs && k in v.crs
            && (TargetKey(k) in w.objs ==>
                  var a, b := w.objs[TargetKey(k)], v.objs[TargetKey(k)];
                  b.status == a.status &&
                  (p in a.fields && Operator(k.kind) !in a.fields[p].owners && p !in plan.manifest.fields ==>
                     p in b.fields && b.fields[p] == a.fields[p]))
            && (forall key :: !Manages(ad.ids, k, key) ==> At(v, key) == At(w, key))
            && (forall c :: c != k ==> (c in v.crs <==> c in w.crs) && (c in w.crs ==> v.crs[c] == w.crs[c]))
            && v.crs[k].spec == w.crs[k].spec && v.crs[k].finalizers == w.crs[k].finalizers
            && v.pvcs == w.pvcs
  {
    var plan, v := PlanOf(ad, w, k), Exec(ad, w, k, AtStart, calls).0;
    PassOutcome(ad, w, k, calls);
    PlanDistinct(ad, w, k);
    if TargetKey(k) in w.objs && p in w.objs[TargetKey(k)].fields &&
      Operator(k.kind) !in w.objs[TargetKey(k)].fields[p].owners
       && p !in plan.manifest.fields {
      ForeignFieldsKept(w.objs[TargetKey(k)], plan.manifest, Operator(k.kind), p);
    }
    forall key | !Manages(ad.ids, k, key) ensures At(v, key) == At(w, key) {
      forall j | 0 <= j < |plan.extras| ensures key != KeyAt(plan, j) {
        ExtraIsId(ad, k, LocalSpec(ad, w.crs[k], ClassFor(ad, w, w.crs[k].spec)), j);
      }
    }
  }

  ghost predicate StuckIn(w: World, k: CrKey, id: ExtraId, p: Pod) {
    id.patchOnly && HoldsUp(w, IdKey(k, id), p)
  }

  ghost predicate StuckFor(ad: Adapter, w: World, k: CrKey, p: Pod) {
    exists j :: 0 <= j < |ad.ids| && StuckIn(w, k, ad.ids[j], p)
  }

  lemma VictimAtEntry(ad: Adapter, w: World, k: CrKey, j: int, p: Pod)
    requires Lawful(ad) && k in w.crs && 0 <= j < |PlanOf(ad, w, k).extras|
    ensures j < |ad.ids| && (PodVictim(PlanOf(ad, w, k), j, p) <==> StuckIn(w, k, ad.ids[j], p))
  {
    ExtraIsId(ad, k, LocalSpec(ad, w.crs[k], ClassFor(ad, w, w.crs[k].spec)), j);
    HoldsUpExactly(w, IdKey(k, ad.ids[j]), p);
  }

  /** Unstick exactness: a successful pass deletes precisely the namespace's pods that match
      the selector of one of its patched StatefulSets with an unfinished rollout, are off
      that one's update revision and are not Ready. */
  lemma PassDeletesStuckPods(ad: Adapter, w: World, k: CrKey, calls: nat, p: Pod)
    requires Lawful(ad) && Active(w, k) && UniqueNames(w.pods)
    requires Exec(ad, w, k, AtStart, calls).1
    ensures p in Exec(ad, w, k, AtStart, calls).0.pods <==> (p in w.pods && !StuckFor(ad, w, k, p))
  {
    PassOutcome(ad, w, k, calls);
    PlanDistinct(ad, w, k);
    var plan := PlanOf(ad, w, k);
    forall j | 0 <= j < |plan.extras| ensures PodVictim(plan, j, p) <==> StuckIn(w, k, ad.ids[j], p) {
      VictimAtEntry(ad, w, k, j, p);
    }
  }
}
