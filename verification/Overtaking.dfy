/** The overtaken unstick loop is no artefact of an unreachable state: a run of the ten
    adapters' own workers, from a cluster this operator has never written to, gets there. */
module Overtaking {
  import opened Kinds
  import opened Specs
  import opened Manifests
  import opened Naming
  import opened ServerSideApply
  import opened Status
  import opened Contract
  import opened Pods
  import opened Cluster
  import opened Engine
  import opened Machines
  import opened Interleaving
  import opened Convergence
  import opened PodHistories
  import opened Footprint
  import opened TheFleet

  lemma CallTo(fleet: Fleet, s: Sys, events: seq<Event>, k: CrKey, v: World, next: Pc)
    requires IsRun(fleet, s, events)
    requires var t := Final(fleet, s, events); Does(fleet(k.kind), t.w, k, PcOf(t, k), v, next)
    ensures IsRun(fleet, s, events + [Call(k)])
    ensures var t := Final(fleet, s, events + [Call(k)]); t.w == v && PcOf(t, k) == next
  {
    OneEventMore(fleet, s, events, Call(k));
  }

  /** The pass meets a patched StatefulSet with an unfinished rollout first. */
  ghost predicate RolloutFirst(ad: Adapter, w: World, k: CrKey) {
    && Active(w, k) && !NeedsClass(ad, w.crs[k].spec)
    && var extras := Extras(ad, k, w.crs[k].spec);
    && extras != [] && extras[0].desired.Some? && extras[0].patchOnly && extras[0].gvk == StatefulSet
    && ExtraKey(k, extras[0]) in w.objs && Unfinished(w.objs[ExtraKey(k, extras[0])])
  }

  lemma FirstCalls(ad: Adapter, w: World, k: CrKey)
    requires Active(w, k) && !NeedsClass(ad, w.crs[k].spec)
    ensures Does(ad, w, k, AtStart, w, AtGetTarget(w.crs[k]))
    ensures Does(ad, w, k, AtGetTarget(w.crs[k]), w, AtApplyTarget(w.crs[k], ""))
  {
  }

  lemma TargetCall(ad: Adapter, w: World, k: CrKey, cr: CR) returns (v: World, target: Obj)
    ensures v == w.(objs := w.objs[TargetKey(k) := target])
    ensures Does(ad, w, k, AtApplyTarget(cr, ""), v, EnterExtras(cr, target, Extras(ad, k, cr.spec)))
  {
    target := Applied(w, TargetKey(k), TargetManifest(ad, k, cr, ""), Operator(k.kind));
    v := w.(objs := w.objs[TargetKey(k) := target]);
  }

  /** Three calls to the applied target, as the adapter's first extra is met. */
  lemma ToFirstExtra(fleet: Fleet, s: Sys, k: CrKey) returns (events: seq<Event>, v: World, target: Obj)
    requires RolloutFirst(fleet(k.kind), s.w, k) && PcOf(s, k).AtStart?
    ensures IsRun(fleet, s, events) && Final(fleet, s, events).w == v
    ensures v == s.w.(objs := s.w.objs[TargetKey(k) := target])
    ensures var extras := Extras(fleet(k.kind), k, s.w.crs[k].spec);
            PcOf(Final(fleet, s, events), k) == AtExtraGet(s.w.crs[k], target, extras[0], extras[1..])
  {
    var ad, cr := fleet(k.kind), s.w.crs[k];
    FirstCalls(ad, s.w, k);
    v, target := TargetCall(ad, s.w, k, cr);
    events := [];
    CallTo(fleet, s, events, k, s.w, AtGetTarget(cr));
    events := events + [Call(k)];
    CallTo(fleet, s, events, k, s.w, AtApplyTarget(cr, ""));
    events := events + [Call(k)];
    CallTo(fleet, s, events, k, v, EnterExtras(cr, target, Extras(ad, k, cr.spec)));
    events := events + [Call(k)];
  }

  /** The calls for one patched StatefulSet, up to the list of its pods. */
  lemma PatchCalls(ad: Adapter, w: World, k: CrKey, seen: CR, target: Obj, e: Extra, rest: seq<Extra>)
      returns (v: World)
    requires e.desired.Some? && e.patchOnly && e.gvk == StatefulSet
    requires ExtraKey(k, e) in w.objs && Unfinished(w.objs[ExtraKey(k, e)])
    ensures v == w.(objs := v.objs)
    ensures Does(ad, w, k, AtExtraGet(seen, target, e, rest), w, AtExtra(seen, target, e, rest))
    ensures Does(ad, w, k, AtExtra(seen, target, e, rest), v, AtUnstickGet(seen, target, e, rest))
    ensures var sts := w.objs[ExtraKey(k, e)];
            Does(ad, v, k, AtUnstickGet(seen, target, e, rest), v,
                 AtUnstickList(seen, target, e, rest, UpdateRevision(sts), sts.selector))
  {
    var key := ExtraKey(k, e);
    v := w.(objs := w.objs[key := Applied(w, key, e.desired.value, Operator(k.kind))]);
  }

  /** Three more calls to the list of its pods. */
  lemma ToList(fleet: Fleet, s: Sys, k: CrKey) returns (events: seq<Event>)
    requires RolloutFirst(fleet(k.kind), s.w, k) && PcOf(s, k).AtStart?
    ensures IsRun(fleet, s, events)
    ensures var t := Final(fleet, s, events);
            var sts := s.w.objs[ExtraKey(k, Extras(fleet(k.kind), k, s.w.crs[k].spec)[0])];
            && PcOf(t, k).AtUnstickList? && PcOf(t, k).revision == UpdateRevision(sts)
            && PcOf(t, k).selector == sts.selector && t.w.pods == s.w.pods && t.w.classes == s.w.classes
  {
    var ad, cr := fleet(k.kind), s.w.crs[k];
    var extras := Extras(ad, k, cr.spec);
    var e, rest := extras[0], extras[1..];
    var sts := s.w.objs[ExtraKey(k, e)];
    var w, target;
    events, w, target := ToFirstExtra(fleet, s, k);
    var v := PatchCalls(ad, w, k, cr, target, e, rest);
    CallTo(fleet, s, events, k, w, AtExtra(cr, target, e, rest));
    events := events + [Call(k)];
    CallTo(fleet, s, events, k, v, AtUnstickGet(cr, target, e, rest));
    events := events + [Call(k)];
    CallTo(fleet, s, events, k, v, AtUnstickList(cr, target, e, rest, UpdateRevision(sts), sts.selector));
    events := events + [Call(k)];
  }

  // ---------------------------------------------------------------- a concrete cluster

  const INSTANCE := CrKey(Loki, "ns", "loki")
  const INGESTER := Key(StatefulSet, "ns", "loki-ingester")
  const SELECTOR := map["app" := "ingester"]
  const CRASHING := Pod("ns", "loki-ingester-0", map["app" := "ingester", REVISION_HASH := "a"], [])

  /** A LokiInstance just created, its StatefulSet rolling out, its only pod crash-looping. */
  function NewCluster(): World {
    var revisions := VendorStatus(map["updateRevision" := "b", "currentRevision" := "a"], map[], map[], []);
    World(map[INSTANCE := CR(1, 1, {FINALIZER}, false, map[], EMPTY_STATUS)],
          map[INGESTER := Obj(map[], {}, false, false, SELECTOR, revisions)],
          [CRASHING], map[], [], 1, 0)
  }

  lemma ClusterIsInitial()
    ensures Initial(Sys(NewCluster(), map[]))
  {
  }

  lemma IngesterFirst()
    ensures var extras := Extras(FLEET(Loki), INSTANCE, map[]);
            && extras != [] && extras[0].patchOnly && extras[0].desired.Some? && extras[0].gvk == StatefulSet
            && ExtraKey(INSTANCE, extras[0]) == INGESTER
  {
    FleetLawful();
    LokiIds("loki");
    assert ExtraIds(Loki)[0].suffix == "-ingester" && "loki" + "-ingester" == "loki-ingester";
  }

  lemma ClusterRollsOut()
    ensures RolloutFirst(FLEET(Loki), NewCluster(), INSTANCE)
    ensures UpdateRevision(NewCluster().objs[INGESTER]) == "b"
  {
    IngesterFirst();
    assert Unfinished(NewCluster().objs[INGESTER]) by {
      assert "a" != "b" && "app" in SELECTOR;
      assert |"updateRevision"| != |"currentRevision"|;
    }
  }

  lemma CrashingIsStuck()
    ensures Selected(CRASHING, "ns", SELECTOR) && Stuck(CRASHING, "b")
  {
    assert "app" != REVISION_HASH by {
      assert |"app"| != |REVISION_HASH|;
    }
    assert CRASHING.labels[REVISION_HASH] == "a" && "a" != "b";
  }

  /** From a cluster this operator has never written to, six calls of the LokiInstance's worker,
      one replacement by the StatefulSet controller and one more call delete a pod that is
      Ready and on the update revision. */
  lemma OvertakenFromTheStart() returns (s: Sys, events: seq<Event>, more: seq<Event>, p: Pod)
    ensures Initial(s) && IsRun(FLEET, s, events)
    ensures var t := Final(FLEET, s, events);
            PcOf(t, INSTANCE).AtUnstickList? && Overtaken(FLEET, t, INSTANCE, more, p)
  {
    s := Sys(NewCluster(), map[]);
    ClusterIsInitial();
    ClusterRollsOut();
    IngesterFirst();
    events := ToList(FLEET, s, INSTANCE);
    var t := Final(FLEET, s, events);
    CrashingIsStuck();
    var listed := ListPods(t.w.pods, "ns", SELECTOR);
    assert CRASHING in listed;
    VictimsAreStuck(listed, "b", CRASHING.name);
    more, p := RecreatedPodDeleted(FLEET, t, INSTANCE);
  }
}
