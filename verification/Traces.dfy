/** Whole histories of one resource: any list of spec edits, each followed by a pass that may
    be cut short anywhere, leaves no trace after one successful pass. */
module Traces {
  import opened Kinds
  import opened Specs
  import opened Manifests
  import opened Naming
  import opened ServerSideApply
  import opened Contract
  import opened Pods
  import opened Cluster
  import opened Engine
  import opened Interleaving
  import opened Orphans
  import opened Convergence
  import opened Fixpoints
  import opened Pasts

  // ---------------------------------------------------------------- histories

  /** An edit of the spec, and a pass of which that many calls succeed. */
  datatype Attempt = Attempt(spec: Spec, calls: nat)

  function Edited(w: World, k: CrKey, spec: Spec): World {
    if k !in w.crs then w
    else
      var cr := w.crs[k].(spec := spec, generation := w.crs[k].generation + 1, rv := w.clock + 1);
      w.(crs := w.crs[k := cr], clock := w.clock + 1)
  }

  function Attempted(ad: Adapter, w: World, k: CrKey, a: Attempt): World {
    Exec(ad, Edited(w, k, a.spec), k, AtStart, a.calls).0
  }

  /** The store after a history, in which nobody else writes. */
  ghost function Lived(ad: Adapter, w: World, k: CrKey, history: seq<Attempt>): World
    decreases |history|
  {
    if history == [] then w
    else Attempted(ad, Lived(ad, w, k, history[..|history| - 1]), k, history[|history| - 1])
  }

  /** The finalizers an adapter asks for do not depend on the spec, and only targets have any. */
  ghost predicate FixedFinalizers(ad: Adapter, pins: set<string>) {
    && (forall spec, ns, name :: ad.manifest(spec, ns, name).pins == pins)
    && (forall k, spec, e :: e in Extras(ad, k, spec) && e.desired.Some? ==> e.desired.value.pins == {})
  }

  // ---------------------------------------------------------------- what a history can leave

  /** But for this manager's claims and these finalizers there is nothing on the object. */
  predicate LooksAbsent(o: Obj, pins: set<string>, mgr: Manager) {
    Others(o, mgr) == map[] && o.(fields := map[], pins := {}, touched := false) == ABSENT && o.pins <= pins
  }

  lemma AppliedLooksAbsent(o: Obj, m: Manifest, pins: set<string>, mgr: Manager)
    requires LooksAbsent(o, pins, mgr) && m.pins <= pins
    ensures LooksAbsent(Merge(o, m, mgr), pins, mgr)
  {
    forall p | p in m.fields && p in o.fields ensures o.fields[p].owners == {mgr} {
      assert p !in Others(o, mgr);
    }
    OthersKept(o, m, mgr);
  }

  /** Applied to such an object, a manifest with these finalizers leaves what it would leave on
      an absent one. */
  lemma AppliedAsToAbsent(o: Obj, m: Manifest, pins: set<string>, mgr: Manager)
    requires LooksAbsent(o, pins, mgr) && m.pins == pins
    ensures Merge(o, m, mgr) == Merge(ABSENT, m, mgr)
  {
    assert Others(ABSENT, mgr) == map[];
    ApplyForgets(o, ABSENT, m, mgr);
  }

  function PinsAt(k: CrKey, pins: set<string>, key: Key): set<string> {
    if key == TargetKey(k) then pins else {}
  }

  /** A StatefulSet is as it was at first, or patched once. */
  ghost predicate PatchedAtMost(w0: World, w: World, key: Key, mgr: Manager) {
    || At(w, key) == At(w0, key)
    || (key in w0.objs && At(w, key) == Some(Merge(w0.objs[key], FS_GROUP_PATCH, mgr)))
  }

  /** What holds after every history that began at w0. */
  ghost predicate Traced(ad: Adapter, w0: World, w: World, k: CrKey, pins: set<string>) {
    && Active(w, k) && w.classes == w0.classes
    && (forall key :: Owns(ad.ids, k, key) ==> LooksAbsent(OrAbsent(w, key), PinsAt(k, pins, key), Operator(k.kind)))
    && (forall id :: id in ad.ids && id.patchOnly ==> PatchedAtMost(w0, w, IdKey(k, id), Operator(k.kind)))
    && (forall key :: !Manages(ad.ids, k, key) ==> At(w, key) == At(w0, key))
    && (forall p :: p in w.pods ==> p in w0.pods)
    && (forall p :: p in w0.pods && p !in w.pods ==> StuckFor(ad, w0, k, p))
  }

  lemma SameStuck(ad: Adapter, w0: World, w: World, k: CrKey, pins: set<string>, p: Pod)
    requires Traced(ad, w0, w, k, pins)
    ensures StuckFor(ad, w, k, p) <==> StuckFor(ad, w0, k, p)
  {
    forall j | 0 <= j < |ad.ids| ensures StuckIn(w, k, ad.ids[j], p) <==> StuckIn(w0, k, ad.ids[j], p) {
      if ad.ids[j].patchOnly {
        assert PatchedAtMost(w0, w, IdKey(k, ad.ids[j]), Operator(k.kind));
      }
    }
  }

  lemma EditTraced(ad: Adapter, w0: World, w: World, k: CrKey, pins: set<string>, spec: Spec)
    requires Traced(ad, w0, w, k, pins)
    ensures Traced(ad, w0, Edited(w, k, spec), k, pins)
  {
  }

  lemma PrunedLooksAbsent(w: World, key: Key, mgr: Manager)
    requires LooksAbsent(OrAbsent(w, key), {}, mgr)
    ensures key !in Deleted(w.objs, key)
  {
  }

  lemma EntryAfterPass(plan: Plan, v: World, j: int)
    requires 0 <= j < |plan.extras| && plan.k in plan.start.crs && PartWay(plan, v) && !plan.extras[j].patchOnly
    requires LooksAbsent(OrAbsent(plan.start, KeyAt(plan, j)), {}, Operator(plan.k.kind))
    requires plan.extras[j].desired.Some? ==> plan.extras[j].desired.value.pins == {}
    ensures LooksAbsent(OrAbsent(v, KeyAt(plan, j)), {}, Operator(plan.k.kind))
  {
    var key, mgr := KeyAt(plan, j), Operator(plan.k.kind);
    assert EntryPartWay(plan, v, j);
    if plan.extras[j].desired.Some? {
      AppliedLooksAbsent(OrAbsent(plan.start, key), plan.extras[j].desired.value, {}, mgr);
    } else {
      PrunedLooksAbsent(plan.start, key, mgr);
    }
  }

  lemma OwnedAfterPass(ad: Adapter, w0: World, plan: Plan, v: World, pins: set<string>, key: Key)
    requires Lawful(ad) && FixedFinalizers(ad, pins) && PlanFor(ad, plan) && Traced(ad, w0, plan.start, plan.k, pins)
    requires PartWay(plan, v) && Owns(ad.ids, plan.k, key)
    ensures LooksAbsent(OrAbsent(v, key), PinsAt(plan.k, pins, key), Operator(plan.k.kind))
  {
    if key == TargetKey(plan.k) {
      AppliedLooksAbsent(OrAbsent(plan.start, key), plan.manifest, pins, Operator(plan.k.kind));
    } else {
      var id :| id in ad.ids && !id.patchOnly && key == IdKey(plan.k, id);
      var j :| 0 <= j < |ad.ids| && ad.ids[j] == id;
      ExtrasLength(ad, plan.k, PlanSpec(ad, plan.start, plan.k));
      ExtraIsId(ad, plan.k, PlanSpec(ad, plan.start, plan.k), j);
      EntryAfterPass(plan, v, j);
    }
  }

  /** The spec the plan is made of. */
  function PlanSpec(ad: Adapter, w: World, k: CrKey): Spec
    requires k in w.crs
  {
    LocalSpec(ad, w.crs[k], ClassFor(ad, w, w.crs[k].spec))
  }

  lemma PatchedAfterPass(ad: Adapter, w0: World, plan: Plan, v: World, pins: set<string>, j: int)
    requires Lawful(ad) && PlanFor(ad, plan) && Traced(ad, w0, plan.start, plan.k, pins)
    requires PartWay(plan, v) && 0 <= j < |ad.ids| && ad.ids[j].patchOnly
    ensures PatchedAtMost(w0, v, IdKey(plan.k, ad.ids[j]), Operator(plan.k.kind))
  {
    var mgr, spec := Operator(plan.k.kind), PlanSpec(ad, plan.start, plan.k);
    var key := IdKey(plan.k, ad.ids[j]);
    ExtrasLength(ad, plan.k, spec);
    ExtraIsId(ad, plan.k, spec, j);
    assert EntryPartWay(plan, v, j) && PatchedAtMost(w0, plan.start, key, mgr);
    if key in w0.objs {
      MergeIdempotent(w0.objs[key], FS_GROUP_PATCH, mgr);
    }
  }

  lemma ElsewhereIsNotManaged(ad: Adapter, plan: Plan, key: Key)
    requires Lawful(ad) && PlanFor(ad, plan) && !Manages(ad.ids, plan.k, key)
    ensures Elsewhere(plan, key)
  {
    var spec := PlanSpec(ad, plan.start, plan.k);
    forall j | 0 <= j < |plan.extras| ensures key != KeyAt(plan, j) {
      ExtraIsId(ad, plan.k, spec, j);
    }
  }

  lemma PodsAfterPass(ad: Adapter, w0: World, plan: Plan, v: World, pins: set<string>, p: Pod)
    requires Lawful(ad) && PlanFor(ad, plan) && Traced(ad, w0, plan.start, plan.k, pins)
    requires PartWay(plan, v) && p in w0.pods && p !in v.pods
    ensures StuckFor(ad, w0, plan.k, p)
  {
    if p in plan.start.pods {
      var j :| 0 <= j < |plan.extras| && PodVictim(plan, j, p);
      VictimAtEntry(ad, plan.start, plan.k, j, p);
      SameStuck(ad, w0, plan.start, plan.k, pins, p);
    }
  }

  lemma PassTraced(ad: Adapter, w0: World, plan: Plan, v: World, pins: set<string>)
    requires Lawful(ad) && FixedFinalizers(ad, pins) && PlanFor(ad, plan) && Traced(ad, w0, plan.start, plan.k, pins)
    requires PartWay(plan, v)
    ensures Traced(ad, w0, v, plan.k, pins)
  {
    var k, mgr := plan.k, Operator(plan.k.kind);
    forall key | Owns(ad.ids, k, key) ensures LooksAbsent(OrAbsent(v, key), PinsAt(k, pins, key), mgr) {
      OwnedAfterPass(ad, w0, plan, v, pins, key);
    }
    forall id | id in ad.ids && id.patchOnly ensures PatchedAtMost(w0, v, IdKey(k, id), mgr) {
      var j :| 0 <= j < |ad.ids| && ad.ids[j] == id;
      PatchedAfterPass(ad, w0, plan, v, pins, j);
    }
    forall key | !Manages(ad.ids, k, key) ensures At(v, key) == At(w0, key) {
      ElsewhereIsNotManaged(ad, plan, key);
    }
    forall p | p in w0.pods && p !in v.pods ensures StuckFor(ad, w0, k, p) {
      PodsAfterPass(ad, w0, plan, v, pins, p);
    }
  }

  /** A store in which there is none of k's own objects yet. */
  ghost predicate Clean(ad: Adapter, w: World, k: CrKey) {
    Active(w, k) && UniqueNames(w.pods) && forall key :: Owns(ad.ids, k, key) ==> key !in w.objs
  }

  lemma CleanTraced(ad: Adapter, w: World, k: CrKey, pins: set<string>)
    requires Clean(ad, w, k)
    ensures Traced(ad, w, w, k, pins)
  {
    assert Others(ABSENT, Operator(k.kind)) == map[];
  }

  lemma FewerStayUnique(w0: World, w: World)
    requires UniqueNames(w0.pods) && forall p :: p in w.pods ==> p in w0.pods
    ensures UniqueNames(w.pods)
  {
  }

  lemma {:induction false} LivedTraced(ad: Adapter, w: World, k: CrKey, history: seq<Attempt>, pins: set<string>)
    requires Lawful(ad) && FixedFinalizers(ad, pins) && Clean(ad, w, k)
    ensures Traced(ad, w, Lived(ad, w, k, history), k, pins)
    decreases |history|
  {
    if history == [] {
      CleanTraced(ad, w, k, pins);
    } else {
      var n := |history| - 1;
      LivedTraced(ad, w, k, history[..n], pins);
      var before := Lived(ad, w, k, history[..n]);
      var start := Edited(before, k, history[n].spec);
      EditTraced(ad, w, before, k, pins, history[n].spec);
      FewerStayUnique(w, start);
      PlanDistinct(ad, start, k);
      CutShort(ad, start, k, history[n].calls);
      PassTraced(ad, w, PlanOf(ad, start, k), Attempted(ad, before, k, history[n]), pins);
    }
  }

  // ---------------------------------------------------------------- the last pass

  lemma LastTarget(ad: Adapter, w0: World, w: World, k: CrKey, m: Manifest, pins: set<string>)
    requires Traced(ad, w0, w, k, pins) && Traced(ad, w0, w0, k, pins) && TargetKey(k) !in w0.objs && m.pins == pins
    ensures Applied(w, TargetKey(k), m, Operator(k.kind)) == Applied(w0, TargetKey(k), m, Operator(k.kind))
  {
    AppliedAsToAbsent(OrAbsent(w, TargetKey(k)), m, pins, Operator(k.kind));
  }

  /** The plans of two stores for one spec: they differ in the store only. */
  lemma LastEntry(ad: Adapter, w0: World, plan: Plan, pins: set<string>, j: int)
    requires Lawful(ad) && FixedFinalizers(ad, pins) && PlanFor(ad, plan) && Traced(ad, w0, plan.start, plan.k, pins)
    requires Clean(ad, w0, plan.k) && 0 <= j < |plan.extras|
    ensures ExtraAfter(plan, plan.extras[j]) == ExtraAfter(plan.(start := w0), plan.extras[j])
  {
    var mgr, spec := Operator(plan.k.kind), PlanSpec(ad, plan.start, plan.k);
    var key, e := KeyAt(plan, j), plan.extras[j];
    ExtrasLength(ad, plan.k, spec);
    ExtraIsId(ad, plan.k, spec, j);
    if e.patchOnly {
      assert PatchedAtMost(w0, plan.start, key, mgr);
      if key in w0.objs {
        MergeIdempotent(w0.objs[key], FS_GROUP_PATCH, mgr);
      }
    } else if e.desired.Some? {
      AppliedAsToAbsent(OrAbsent(plan.start, key), e.desired.value, {}, mgr);
    } else {
      PrunedLooksAbsent(plan.start, key, mgr);
    }
  }

  lemma SameObjects(plan: Plan, w0: World, w': World, v': World, key: Key)
    requires DoneObjs(plan, w', |plan.extras|) && DoneObjs(plan.(start := w0), v', |plan.extras|)
    requires TargetAfter(plan) == TargetAfter(plan.(start := w0))
    requires forall j :: 0 <= j < |plan.extras| ==>
               ExtraAfter(plan, plan.extras[j]) == ExtraAfter(plan.(start := w0), plan.extras[j])
    requires Elsewhere(plan, key) ==> At(plan.start, key) == At(w0, key)
    ensures At(w', key) == At(v', key)
  {
    var other := plan.(start := w0);
    if !Elsewhere(plan, key) && key != TargetKey(plan.k) {
      var j :| 0 <= j < |plan.extras| && key == KeyAt(plan, j);
      assert KeyAt(other, j) == key;
    } else if Elsewhere(plan, key) {
      assert forall j :: 0 <= j < |plan.extras| ==> KeyAt(other, j) == KeyAt(plan, j);
    }
  }

  lemma EqualStores(a: World, b: World)
    requires forall key :: At(a, key) == At(b, key)
    ensures a.objs == b.objs
  {
    forall key ensures key in a.objs <==> key in b.objs
               ensures key in a.objs ==> a.objs[key] == b.objs[key]
    {
      assert At(a, key) == At(b, key);
    }
  }

  lemma ManagedNotElsewhere(ad: Adapter, plan: Plan, key: Key)
    requires Lawful(ad) && PlanFor(ad, plan) && Manages(ad.ids, plan.k, key)
    ensures !Elsewhere(plan, key)
  {
    if key != TargetKey(plan.k) {
      var id :| id in ad.ids && key == IdKey(plan.k, id);
      var j :| 0 <= j < |ad.ids| && ad.ids[j] == id;
      ExtrasLength(ad, plan.k, PlanSpec(ad, plan.start, plan.k));
      ExtraIsId(ad, plan.k, PlanSpec(ad, plan.start, plan.k), j);
      assert key == KeyAt(plan, j);
    }
  }

  lemma LastObjects(ad: Adapter, w0: World, w: World, k: CrKey, pins: set<string>, w': World, v': World)
    requires Lawful(ad) && FixedFinalizers(ad, pins) && Clean(ad, w0, k) && Traced(ad, w0, w, k, pins)
    requires UniqueNames(w.pods) && w.crs[k].spec == w0.crs[k].spec
    requires Completed(ad, PlanOf(ad, w, k), w') && Completed(ad, PlanOf(ad, w0, k), v')
    ensures w'.objs == v'.objs
  {
    var plan := PlanOf(ad, w, k);
    PlanDistinct(ad, w, k);
    SamePlan(ad, w, w0, k);
    CleanTraced(ad, w0, k, pins);
    LastTarget(ad, w0, w, k, plan.manifest, pins);
    forall j | 0 <= j < |plan.extras|
      ensures ExtraAfter(plan, plan.extras[j]) == ExtraAfter(plan.(start := w0), plan.extras[j])
    {
      LastEntry(ad, w0, plan, pins, j);
    }
    forall key ensures At(w', key) == At(v', key) {
      if Manages(ad.ids, k, key) {
        ManagedNotElsewhere(ad, plan, key);
      }
      SameObjects(plan, w0, w', v', key);
    }
    EqualStores(w', v');
  }

  /** The theorem: start from a store that holds none of k's own objects. Take any list of spec
      edits, each followed by a pass that fails anywhere or not at all, and then one more edit
      and a pass that succeeds. It leaves all foreign objects, and the pods, exactly as the
      first pass over that last spec would have left them. */
  lemma HistoryErased(
    ad: Adapter, w: World, k: CrKey, history: seq<Attempt>, spec: Spec, calls: nat, first: nat, pins: set<string>)
    requires Lawful(ad) && FixedFinalizers(ad, pins) && Clean(ad, w, k)
    requires Exec(ad, Edited(Lived(ad, w, k, history), k, spec), k, AtStart, calls).1
    requires Exec(ad, Edited(w, k, spec), k, AtStart, first).1
    ensures var w' := Exec(ad, Edited(Lived(ad, w, k, history), k, spec), k, AtStart, calls).0;
            var v' := Exec(ad, Edited(w, k, spec), k, AtStart, first).0;
            w'.objs == v'.objs && forall p :: p in w'.pods <==> p in v'.pods
  {
    var lived, anew := Edited(Lived(ad, w, k, history), k, spec), Edited(w, k, spec);
    LivedTraced(ad, w, k, history, pins);
    EditTraced(ad, w, Lived(ad, w, k, history), k, pins, spec);
    TracedFromEdit(ad, w, lived, k, pins, spec);
    FewerStayUnique(w, lived);
    PassOutcome(ad, lived, k, calls);
    PassOutcome(ad, anew, k, first);
    var w', v' := Exec(ad, lived, k, AtStart, calls).0, Exec(ad, anew, k, AtStart, first).0;
    LastObjects(ad, anew, lived, k, pins, w', v');
    forall p ensures p in w'.pods <==> p in v'.pods {
      PassDeletesStuckPods(ad, lived, k, calls, p);
      PassDeletesStuckPods(ad, anew, k, first, p);
      SameStuck(ad, anew, lived, k, pins, p);
    }
  }

  /** Editing the spec of the store the history began at changes none of its traces. */
  lemma TracedFromEdit(ad: Adapter, w: World, v: World, k: CrKey, pins: set<string>, spec: Spec)
    requires Traced(ad, w, v, k, pins) && Clean(ad, w, k)
    ensures Traced(ad, Edited(w, k, spec), v, k, pins) && Clean(ad, Edited(w, k, spec), k)
  {
    var u := Edited(w, k, spec);
    forall p ensures StuckFor(ad, w, k, p) <==> StuckFor(ad, u, k, p) {
      assert forall id :: StuckIn(w, k, id, p) <==> StuckIn(u, k, id, p);
    }
  }
}
