/** History independence: what a successful pass leaves does not depend on what this operator
    did before, on which specs it tried, nor on how far it got. */
module Pasts {
  import opened Kinds
  import opened Specs
  import opened Manifests
  import opened Naming
  import opened ServerSideApply
  import opened Status
  import opened Contract
  import opened IngressClasses
  import opened Pods
  import opened Cluster
  import opened Engine
  import opened Machines
  import opened Interleaving
  import opened Orphans
  import opened Convergence
  import opened Fixpoints

  // ---------------------------------------------------------------- two stores

  /** Everybody but this manager sees the same object in both stores, finalizers that the
      manifest asks for aside. */
  predicate SameForOthers(w: World, v: World, key: Key, m: Manifest, mgr: Manager) {
    Others(OrAbsent(w, key), mgr) == Others(OrAbsent(v, key), mgr) && SameBeside(OrAbsent(w, key), OrAbsent(v, key), m)
  }

  /** That holds of everything the plan applies; what it prunes may differ. */
  ghost predicate SameVendorState(plan: Plan, v: World) {
    var mgr := Operator(plan.k.kind);
    && SameForOthers(plan.start, v, TargetKey(plan.k), plan.manifest, mgr)
    && forall j :: 0 <= j < |plan.extras| && plan.extras[j].desired.Some? ==>
         && SameForOthers(plan.start, v, KeyAt(plan, j), plan.extras[j].desired.value, mgr)
         && (plan.extras[j].patchOnly ==> (KeyAt(plan, j) in plan.start.objs <==> KeyAt(plan, j) in v.objs))
  }

  lemma SameApplied(w: World, v: World, key: Key, m: Manifest, mgr: Manager)
    requires SameForOthers(w, v, key, m, mgr)
    ensures Applied(w, key, m, mgr) == Applied(v, key, m, mgr)
  {
    ApplyForgets(OrAbsent(w, key), OrAbsent(v, key), m, mgr);
  }

  lemma PrunedNotLive(plan: Plan, v: World, j: int)
    requires 0 <= j < |plan.extras| && plan.extras[j].desired.None?
    requires At(v, KeyAt(plan, j)) == ExtraAfter(plan, plan.extras[j])
    ensures !Live(v, KeyAt(plan, j))
  {
  }

  /** Of a planned object, nothing but the manifest is claimed. */
  lemma ClaimsAreManifest(plan: Plan, v: World, j: int)
    requires 0 <= j < |plan.extras| && plan.extras[j].desired.Some?
    requires At(v, KeyAt(plan, j)) == ExtraAfter(plan, plan.extras[j]) && KeyAt(plan, j) in v.objs
    ensures OwnedBy(v.objs[KeyAt(plan, j)], Operator(plan.k.kind)) == plan.extras[j].desired.value.fields
  {
    var key := KeyAt(plan, j);
    OwnsExactlyApplied(OrAbsent(plan.start, key), plan.extras[j].desired.value, Operator(plan.k.kind));
  }

  /** Entry j after a successful pass on each of two stores. */
  predicate AlikeAt(plan: Plan, w': World, v': World, j: int)
    requires 0 <= j < |plan.extras|
  {
    var e, key := plan.extras[j], KeyAt(plan, j);
    if e.desired.None? then !Live(w', key) && !Live(v', key)
    else
      && At(w', key) == At(v', key)
      && (e.patchOnly || key in w'.objs)
      && (key in w'.objs ==> OwnedBy(w'.objs[key], Operator(plan.k.kind)) == e.desired.value.fields)
  }

  lemma EntriesAlike(plan: Plan, v: World, w': World, v': World, j: int)
    requires 0 <= j < |plan.extras| && SameVendorState(plan, v)
    requires At(w', KeyAt(plan, j)) == ExtraAfter(plan, plan.extras[j])
    requires At(v', KeyAt(plan, j)) == ExtraAfter(plan.(start := v), plan.extras[j])
    ensures AlikeAt(plan, w', v', j)
  {
    var e, key := plan.extras[j], KeyAt(plan, j);
    if e.desired.None? {
      PrunedNotLive(plan, w', j);
      PrunedNotLive(plan.(start := v), v', j);
    } else {
      SameApplied(plan.start, v, key, e.desired.value, Operator(plan.k.kind));
      if key in w'.objs {
        ClaimsAreManifest(plan, w', j);
      }
    }
  }

  /** Take any two stores that hold the same spec of k and look the same to everybody else on
      what is to be applied. After one successful pass on each, the target and every requested
      auxiliary object are equal, this operator owns on them exactly what it asked for, and
      what is not requested is live in neither. */
  lemma HistoryIndependence(ad: Adapter, w: World, v: World, k: CrKey, calls: nat, calls': nat)
    requires Lawful(ad) && Active(w, k) && Active(v, k) && UniqueNames(w.pods) && UniqueNames(v.pods)
    requires SameWishes(ad, w, v, k) && SameVendorState(PlanOf(ad, w, k), v)
    requires Exec(ad, w, k, AtStart, calls).1 && Exec(ad, v, k, AtStart, calls').1
    ensures var w', v' := Exec(ad, w, k, AtStart, calls).0, Exec(ad, v, k, AtStart, calls').0;
            var plan, target := PlanOf(ad, w, k), At(w', TargetKey(k));
            && target.Some? && target == At(v', TargetKey(k))
            && OwnedBy(target.value, Operator(k.kind)) == plan.manifest.fields
            && forall j :: 0 <= j < |plan.extras| ==> AlikeAt(plan, w', v', j)
  {
    var w', v' := Exec(ad, w, k, AtStart, calls).0, Exec(ad, v, k, AtStart, calls').0;
    var plan := PlanOf(ad, w, k);
    PassOutcome(ad, w, k, calls);
    PassOutcome(ad, v, k, calls');
    SamePlan(ad, w, v, k);
    SameApplied(w, v, TargetKey(k), plan.manifest, Operator(k.kind));
    OwnsExactlyApplied(OrAbsent(w, TargetKey(k)), plan.manifest, Operator(k.kind));
    forall j | 0 <= j < |plan.extras| ensures AlikeAt(plan, w', v', j) {
      EntriesAlike(plan, v, w', v', j);
    }
  }

  // ---------------------------------------------------------------- the store without traces

  /** An object as it would be had this manager not applied it: its claims are gone, and so are
      the finalizers its manifest asks for. */
  function Remainder(o: Obj, pins: set<string>, mgr: Manager): Obj {
    o.(fields := Others(o, mgr), pins := o.pins - pins, touched := false)
  }

  function RemainderAt(plan: Plan, key: Key): Obj
    requires key in plan.start.objs
  {
    Remainder(plan.start.objs[key], if key == TargetKey(plan.k) then plan.manifest.pins else {}, Operator(plan.k.kind))
  }

  /** The store without this manager's traces on k's objects; objects on which there is nothing
      else are not there. */
  ghost function Forgotten(ad: Adapter, plan: Plan): World {
    var w := plan.start;
    w.(objs := map key | key in w.objs && !(Vanishes(ad, plan, key)) ::
         if Manages(ad.ids, plan.k, key) then RemainderAt(plan, key) else w.objs[key])
  }

  ghost predicate Vanishes(ad: Adapter, plan: Plan, key: Key)
    requires key in plan.start.objs
  {
    Manages(ad.ids, plan.k, key) && key.gvk != StatefulSet && RemainderAt(plan, key) == ABSENT
  }

  lemma OthersOfOthers(o: Obj, pins: set<string>, mgr: Manager)
    ensures Others(Remainder(o, pins, mgr), mgr) == Others(o, mgr)
  {
    var once, twice := Others(o, mgr), Others(Remainder(o, pins, mgr), mgr);
    forall p ensures p in once <==> p in twice
             ensures p in once ==> once[p] == twice[p]
    {
      if p in once {
        assert o.fields[p].owners - {mgr} - {mgr} == o.fields[p].owners - {mgr};
      }
    }
  }

  lemma ForgottenLooksSame(ad: Adapter, plan: Plan, key: Key, m: Manifest)
    requires Manages(ad.ids, plan.k, key) && (key == TargetKey(plan.k) ==> m == plan.manifest)
    ensures SameForOthers(plan.start, Forgotten(ad, plan), key, m, Operator(plan.k.kind))
  {
    if key in plan.start.objs {
      var pins := if key == TargetKey(plan.k) then plan.manifest.pins else {};
      OthersOfOthers(plan.start.objs[key], pins, Operator(plan.k.kind));
    }
  }

  lemma ForgottenVendorState(ad: Adapter, w: World, k: CrKey)
    requires Lawful(ad) && k in w.crs
    ensures SameVendorState(PlanOf(ad, w, k), Forgotten(ad, PlanOf(ad, w, k)))
  {
    var plan := PlanOf(ad, w, k);
    PlanDistinct(ad, w, k);
    ForgottenLooksSame(ad, plan, TargetKey(k), plan.manifest);
    forall j | 0 <= j < |plan.extras| && plan.extras[j].desired.Some?
      ensures SameForOthers(w, Forgotten(ad, plan), KeyAt(plan, j), plan.extras[j].desired.value, Operator(k.kind))
      ensures plan.extras[j].patchOnly ==> (KeyAt(plan, j) in w.objs <==> KeyAt(plan, j) in Forgotten(ad, plan).objs)
    {
      ExtraIsId(ad, k, LocalSpec(ad, w.crs[k], ClassFor(ad, w, w.crs[k].spec)), j);
      ForgottenLooksSame(ad, plan, KeyAt(plan, j), plan.extras[j].desired.value);
    }
  }

  /** A successful pass, whatever came before, leaves on k's objects what a first pass over the
      same spec leaves on the store without this operator's traces. */
  lemma AsIfNeverApplied(ad: Adapter, w: World, k: CrKey, calls: nat)
    requires Lawful(ad) && Active(w, k) && UniqueNames(w.pods)
    requires Exec(ad, w, k, AtStart, calls).1
    ensures var plan, w' := PlanOf(ad, w, k), Exec(ad, w, k, AtStart, calls).0;
            var first := Exec(ad, Forgotten(ad, plan), k, AtStart, PassCalls(ad, |w.pods|));
            && first.1 && At(w', TargetKey(k)).Some? && At(w', TargetKey(k)) == At(first.0, TargetKey(k))
            && forall j :: 0 <= j < |plan.extras| ==> AlikeAt(plan, w', first.0, j)
  {
    var v := Forgotten(ad, PlanOf(ad, w, k));
    ForgottenVendorState(ad, w, k);
    CleanPassSucceeds(ad, v, k, PassCalls(ad, |w.pods|));
    HistoryIndependence(ad, w, v, k, calls, PassCalls(ad, |w.pods|));
  }

  // ---------------------------------------------------------------- passes cut short

  /** Each of k's objects is as it was or as planned, everything else on foreign objects is as
      it was, and only stuck pods have gone. */
  ghost predicate PartWay(plan: Plan, v: World)
    requires plan.k in plan.start.crs
  {
    && plan.k in v.crs
    && v.crs[plan.k] == plan.start.crs[plan.k].(status := v.crs[plan.k].status, rv := v.crs[plan.k].rv)
    && v.classes == plan.start.classes
    && (At(v, TargetKey(plan.k)) == At(plan.start, TargetKey(plan.k)) ||
        At(v, TargetKey(plan.k)) == Some(TargetAfter(plan)))
    && (forall j :: 0 <= j < |plan.extras| ==> EntryPartWay(plan, v, j))
    && (forall key :: Elsewhere(plan, key) ==> At(v, key) == At(plan.start, key))
    && (forall p :: p in v.pods ==> p in plan.start.pods)
    && (forall p :: p in plan.start.pods && p !in v.pods ==> Earlier(plan, |plan.extras|, p))
  }

  predicate EntryPartWay(plan: Plan, v: World, j: int)
    requires 0 <= j < |plan.extras|
  {
    At(v, KeyAt(plan, j)) == At(plan.start, KeyAt(plan, j)) || At(v, KeyAt(plan, j)) == ExtraAfter(plan, plan.extras[j])
  }

  predicate Elsewhere(plan: Plan, key: Key) {
    key != TargetKey(plan.k) && forall j :: 0 <= j < |plan.extras| ==> key != KeyAt(plan, j)
  }

  lemma DoneIsPartWay(plan: Plan, w: World, i: int)
    requires Distinct(plan) && 0 <= i <= |plan.extras| && DoneObjs(plan, w, i)
    ensures forall j :: 0 <= j < |plan.extras| ==> EntryPartWay(plan, w, j)
    ensures forall key :: Elsewhere(plan, key) ==> At(w, key) == At(plan.start, key)
  {
    forall j | 0 <= j < |plan.extras| ensures EntryPartWay(plan, w, j) {
      if j >= i {
        assert forall n :: 0 <= n < i ==> KeyAt(plan, j) != KeyAt(plan, n);
      }
    }
  }

  lemma PodsPartWay(plan: Plan, w: World, i: int)
    requires 0 <= i <= |plan.extras| && DonePods(plan, w, i)
    ensures forall p :: p in w.pods ==> p in plan.start.pods
    ensures forall p :: p in plan.start.pods && p !in w.pods ==> Earlier(plan, |plan.extras|, p)
  {
    forall p | Earlier(plan, i, p) ensures Earlier(plan, |plan.extras|, p) {
      var j :| 0 <= j < i && PodVictim(plan, j, p);
    }
  }

  lemma VictimsPartWay(plan: Plan, w: World, i: int, left: seq<string>)
    requires 0 <= i < |plan.extras| && DeletingVictims(plan, w, i, left)
    ensures forall p :: p in w.pods ==> p in plan.start.pods
    ensures forall p :: p in plan.start.pods && p !in w.pods ==> Earlier(plan, |plan.extras|, p)
  {
    forall p | Earlier(plan, i, p) || PodVictim(plan, i, p) ensures Earlier(plan, |plan.extras|, p) {
      if Earlier(plan, i, p) {
        var j :| 0 <= j < i && PodVictim(plan, j, p);
      }
    }
  }

  lemma EntryIsPartWay(ad: Adapter, plan: Plan, w: World, pc: Pc)
    requires Distinct(plan) && OnPlan(ad, plan, w, pc)
    requires pc.AtExtraGet? || pc.AtExtra? || pc.AtUnstickGet? || pc.AtUnstickList? || pc.AtUnstickDelete?
    ensures plan.k in plan.start.crs && PartWay(plan, w)
  {
    var i := |plan.extras| - |pc.rest| - 1;
    if pc.AtUnstickDelete? {
      VictimsPartWay(plan, w, i, [pc.victim] + pc.others);
    } else {
      PodsPartWay(plan, w, i);
    }
    DoneIsPartWay(plan, w, if pc.AtExtraGet? || pc.AtExtra? then i else i + 1);
  }

  lemma OnPlanIsPartWay(ad: Adapter, plan: Plan, w: World, pc: Pc)
    requires PlanFor(ad, plan) && OnPlan(ad, plan, w, pc)
    ensures PartWay(plan, w)
  {
    match pc
    case AtGetTarget(_) =>
    case AtListClasses(_) =>
    case AtApplyTarget(_, _) =>
    case AtStatus(_, _) =>
      DoneIsPartWay(plan, w, |plan.extras|);
      PodsPartWay(plan, w, |plan.extras|);
    case _ => EntryIsPartWay(ad, plan, w, pc);
  }

  lemma CompletedIsPartWay(ad: Adapter, plan: Plan, v: World)
    requires PlanFor(ad, plan) && Completed(ad, plan, v)
    ensures PartWay(plan, v)
  {
    DoneIsPartWay(plan, v, |plan.extras|);
    PodsPartWay(plan, v, |plan.extras|);
  }

  lemma {:induction false} RunIsPartWay(run: Machine, ad: Adapter, plan: Plan, w: World, pc: Pc, calls: nat)
    requires IsMachine(run, ad, plan.k) && PlanFor(ad, plan) && OnPlan(ad, plan, w, pc)
    ensures PartWay(plan, run(w, pc, calls).0)
    decreases calls
  {
    if pc.AtStatus? {
      StatusRun(run, ad, plan, w, pc, calls);
      if calls == 0 {
        OnPlanIsPartWay(ad, plan, w, pc);
      } else {
        CompletedIsPartWay(ad, plan, run(w, pc, calls).0);
      }
    } else {
      var v, next := KeptRun(run, ad, plan, w, pc, calls);
      if calls == 0 {
        OnPlanIsPartWay(ad, plan, w, pc);
      } else {
        RunIsPartWay(run, ad, plan, v, next, calls - 1);
      }
    }
  }

  /** A pass cut short anywhere leaves each of its objects untouched or as planned. */
  lemma CutShort(ad: Adapter, w: World, k: CrKey, calls: nat)
    requires Lawful(ad) && Active(w, k) && UniqueNames(w.pods)
    ensures PartWay(PlanOf(ad, w, k), Exec(ad, w, k, AtStart, calls).0)
  {
    var run := MachineOf(ad, k);
    PassBegins(run, ad, w, k, calls);
    if calls == 0 {
      OnPlanIsPartWay(ad, PlanOf(ad, w, k), w, AtGetTarget(w.crs[k]));
    } else {
      RunIsPartWay(run, ad, PlanOf(ad, w, k), w, AtGetTarget(w.crs[k]), calls - 1);
    }
  }
}
