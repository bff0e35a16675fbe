/** What a user sees: the stored spec and the vendor's report on one side, the objects, claims,
    pods and status after a pass of the ten adapters' own workers on the other. */
module Outcomes {
  import opened Kinds
  import opened Specs
  import opened Manifests
  import opened Naming
  import opened ServerSideApply
  import opened Status
  import opened Contract
  import opened IngressClasses
  import opened Pods
  import opened Cluster
  import opened Engine
  import opened Machines
  import opened Interleaving
  import opened Orphans
  import opened Histories
  import opened Convergence
  import opened Fixpoints
  import opened Pasts
  import opened Traces
  import opened Teardown
  import Adapters
  import opened Footprint
  import opened Entries
  import opened TheFleet

  /** A pass over an active resource succeeds, and leaves v. */
  ghost predicate Passes(w: World, k: CrKey, calls: nat, v: World) {
    && Active(w, k) && UniqueNames(w.pods) && (forall c :: c in w.classes ==> c.name != "")
    && Exec(FLEET(k.kind), w, k, AtStart, calls) == (v, true)
  }

  /** The operator owns this field of the object, with this value. */
  predicate OwnsAt(v: World, key: Key, kind: Kind, p: Path, value: Value) {
    && key in v.objs && p in v.objs[key].fields && Operator(kind) in v.objs[key].fields[p].owners
    && v.objs[key].fields[p].value == value
  }

  lemma OwnedIsAt(v: World, key: Key, kind: Kind, p: Path, value: Value)
    requires key in v.objs
    ensures Carries(OwnedBy(v.objs[key], Operator(kind)), p, value) <==> OwnsAt(v, key, kind, p, value)
  {
  }

  // ---------------------------------------------------------------- the ingress class

  /** What is served for a requested ingress: itself, with the cluster's only default class if it
      names none and there is one. */
  ghost predicate Served(w: World, ing: IngressSpec, out: IngressSpec) {
    if ing.className != "" then out == ing
    else
      && (forall i :: OnlyDefault(w.classes, i) ==> out == ing.(className := w.classes[i].name))
      && ((forall i :: !OnlyDefault(w.classes, i)) ==> out == ing)
  }

  /** The spec the manifests are built from: the stored one, up to that class. */
  ghost predicate Effective(w: World, kind: Kind, spec: Spec, local: Spec) {
    if kind in {RabbitMQ, Grafana, Prometheus} && IngressField in spec && spec[IngressField].IngressValue? then
      && local.Keys == spec.Keys && (forall f :: f in spec && f != IngressField ==> local[f] == spec[f])
      && local[IngressField].IngressValue? && Served(w, spec[IngressField].ingress, local[IngressField].ingress)
    else local == spec
  }

  lemma ClassResolved(classes: seq<IngressClass>)
    requires forall c :: c in classes ==> c.name != ""
    ensures forall i :: OnlyDefault(classes, i) ==> Resolved(classes) == classes[i].name && Resolved(classes) != ""
    ensures (forall i :: !OnlyDefault(classes, i)) <==> Resolved(classes) == ""
  {
    NothingResolved(classes);
    forall i | OnlyDefault(classes, i) ensures Resolved(classes) == classes[i].name {
      assert classes[i] in classes;
      ResolvedExactly(classes, classes[i].name);
    }
  }

  lemma IngressZero(kind: Kind)
    requires kind in {RabbitMQ, Grafana, Prometheus}
    ensures IngressField in Schema(kind) && Schema(kind)[IngressField].zero == Null
  {
  }

  lemma EffectiveSpec(w: World, k: CrKey)
    requires k in w.crs && forall c :: c in w.classes ==> c.name != ""
    ensures Effective(w, k.kind, w.crs[k].spec, PlanSpec(FLEET(k.kind), w, k))
  {
    ClassResolved(w.classes);
    if k.kind in {RabbitMQ, Grafana, Prometheus} {
      IngressZero(k.kind);
    }
  }

  // ---------------------------------------------------------------- after a pass

  /** The planned objects, in terms of the adapters' own functions. */
  lemma PassObjects(w: World, k: CrKey, calls: nat, v: World)
    requires Passes(w, k, calls, v)
    ensures var local := PlanSpec(FLEET(k.kind), w, k);
            var m, extras := Adapters.BuildManifest(k.kind, local, k.ns, k.name),
                             Adapters.ExtraResources(k.kind, local, k.name, k.ns, k.name);
            && TargetKey(k) in v.objs && OwnedBy(v.objs[TargetKey(k)], Operator(k.kind)) == m.fields
            && m.pins <= v.objs[TargetKey(k)].pins
            && |extras| == |ExtraIds(k.kind)|
            && forall i :: 0 <= i < |extras| ==> AsListed(w, k, v, extras[i], ExtraIds(k.kind)[i])
  {
    var ad, plan := FLEET(k.kind), PlanOf(FLEET(k.kind), w, k);
    FleetLawful();
    PassOutcome(ad, w, k, calls);
    PlanDistinct(ad, w, k);
    OwnsExactlyApplied(OrAbsent(w, TargetKey(k)), plan.manifest, Operator(k.kind));
    forall i | 0 <= i < |plan.extras| ensures AsListed(w, k, v, plan.extras[i], ExtraIds(k.kind)[i]) {
      ExtraIsId(ad, k, PlanSpec(ad, w, k), i);
      EntryAsListed(ad, plan, v, i);
    }
  }

  /** One listed object after the pass. */
  predicate AsListed(w: World, k: CrKey, v: World, e: Extra, id: ExtraId) {
    var key := IdKey(k, id);
    if e.desired.None? then !Live(v, key)
    else if id.patchOnly && key !in w.objs then key !in v.objs
    else key in v.objs && OwnedBy(v.objs[key], Operator(k.kind)) == e.desired.value.fields
  }

  lemma EntryAsListed(ad: Adapter, plan: Plan, v: World, i: int)
    requires 0 <= i < |plan.extras| && At(v, KeyAt(plan, i)) == ExtraAfter(plan, plan.extras[i])
    requires Conforms(ad, plan.k, plan.extras[i], i)
    ensures AsListed(plan.start, plan.k, v, plan.extras[i], ad.ids[i])
  {
    if plan.extras[i].desired.None? {
      PrunedNotLive(plan, v, i);
    } else if KeyAt(plan, i) in v.objs {
      ClaimsAreManifest(plan, v, i);
    }
  }

  /** Apply or prune, for every auxiliary object of every kind but Loki: after a successful pass
      it is there if the stored spec wants it, marked and with what the tables say on it, up to
      the ingress class; otherwise it is not live. */
  lemma ExtraAsWanted(w: World, k: CrKey, calls: nat, v: World, gvk: Gvk, suffix: string)
    requires Passes(w, k, calls, v) && Has(k.kind, gvk, suffix)
    ensures var spec, key := w.crs[k].spec, Key(gvk, k.ns, k.name + suffix);
            if Wants(k.kind, gvk, suffix, spec) then
              && key in v.objs
              && var fields := OwnedBy(v.objs[key], Operator(k.kind));
              && Marked(fields, k.kind, k.name)
              && exists local ::
                   Effective(w, k.kind, spec, local) && Tells(k.kind, gvk, suffix, fields, local, k.name, k.ns)
            else !Live(v, key)
  {
    var local := PlanSpec(FLEET(k.kind), w, k);
    var extras := Adapters.ExtraResources(k.kind, local, k.name, k.ns, k.name);
    PassObjects(w, k, calls, v);
    EffectiveSpec(w, k);
    HasListed(k.kind, gvk, suffix);
    ExtrasMeet(k.kind, local, k.name, k.ns, k.name);
    var i :| 0 <= i < |ExtraIds(k.kind)| && ExtraIds(k.kind)[i] == ExtraId(gvk, suffix, false);
    assert Meets(k.kind, extras[i], ExtraIds(k.kind)[i], local, k.name, k.ns, k.name);
    assert AsListed(w, k, v, extras[i], ExtraIds(k.kind)[i]);
    WantsSame(w, k.kind, gvk, suffix, w.crs[k].spec, local);
  }

  lemma WantsSame(w: World, kind: Kind, gvk: Gvk, suffix: string, spec: Spec, local: Spec)
    requires Effective(w, kind, spec, local)
    ensures Wants(kind, gvk, suffix, local) <==> Wants(kind, gvk, suffix, spec)
  {
    assert forall f :: f in spec <==> f in spec.Keys;
    assert forall f :: f in local <==> f in local.Keys;
  }

  /** The target after a successful pass: marked; every field the stored spec sets and the target
      is for is on it, owned, with the stored value; MongoDB's carries its finalizer. */
  lemma TargetAsAsked(w: World, k: CrKey, calls: nat, v: World, f: Field)
    requires Passes(w, k, calls, v)
    ensures TargetKey(k) in v.objs && Marked(OwnedBy(v.objs[TargetKey(k)], Operator(k.kind)), k.kind, k.name)
    ensures k.kind == MongoDB ==> "percona.com/delete-psmdb-pvc" in v.objs[TargetKey(k)].pins
    ensures SetIn(w.crs[k].spec, k.kind, f) && ReachesTarget(k.kind, f) && f != IngressField ==>
            OwnsAt(v, TargetKey(k), k.kind, Copied(f), w.crs[k].spec[f])
  {
    var spec, local := w.crs[k].spec, PlanSpec(FLEET(k.kind), w, k);
    PassObjects(w, k, calls, v);
    TargetMarked(k.kind, local, k.ns, k.name);
    if SetIn(spec, k.kind, f) && ReachesTarget(k.kind, f) && f != IngressField {
      EffectiveSpec(w, k);
      assert f in local.Keys && local[f] == spec[f];
      TargetCarries(k.kind, local, k.ns, k.name, f);
      OwnedIsAt(v, TargetKey(k), k.kind, Copied(f), spec[f]);
    }
  }

  /** The object that carries the ingress block. */
  function IngressHolder(k: CrKey): Key {
    match k.kind
    case RabbitMQ => Key(Ingress, k.ns, k.name + "-rabbitmq-ingress")
    case Prometheus => Key(Ingress, k.ns, k.name + "-prometheus-ingress")
    case _ => Key(Target(k.kind), k.ns, k.name)
  }

  /** The ingress class, from the stored block to the applied object: after a successful pass the
      Grafana, or the Ingress of a RabbitMQ or Prometheus, carries the block as stored, with
      the cluster's only default class if it names none and there is one. */
  lemma IngressServed(w: World, k: CrKey, calls: nat, v: World, ing: IngressSpec)
    requires Passes(w, k, calls, v) && k.kind in {RabbitMQ, Grafana, Prometheus}
    requires IngressField in w.crs[k].spec && w.crs[k].spec[IngressField] == IngressValue(ing)
    ensures exists out ::
              Served(w, ing, out) && OwnsAt(v, IngressHolder(k), k.kind, Copied(IngressField), IngressValue(out))
  {
    var local := PlanSpec(FLEET(k.kind), w, k);
    PassObjects(w, k, calls, v);
    EffectiveSpec(w, k);
    IngressZero(k.kind);
    assert IngressField in local.Keys;
    if k.kind == Grafana {
      TargetCarries(Grafana, local, k.ns, k.name, IngressField);
    } else {
      IngressCarries(w, k, v, local);
    }
    OwnedIsAt(v, IngressHolder(k), k.kind, Copied(IngressField), local[IngressField]);
  }

  lemma IngressCarries(w: World, k: CrKey, v: World, local: Spec)
    requires k.kind in {RabbitMQ, Prometheus} && IngressField in local && local[IngressField].IngressValue?
    requires var extras := Adapters.ExtraResources(k.kind, local, k.name, k.ns, k.name);
             |extras| == |ExtraIds(k.kind)| &&
             forall i :: 0 <= i < |extras| ==> AsListed(w, k, v, extras[i], ExtraIds(k.kind)[i])
    ensures IngressHolder(k) in v.objs
    ensures Carries(OwnedBy(v.objs[IngressHolder(k)], Operator(k.kind)), Copied(IngressField), local[IngressField])
  {
    var extras := Adapters.ExtraResources(k.kind, local, k.name, k.ns, k.name);
    var suffix := if k.kind == RabbitMQ then "-rabbitmq-ingress" else "-prometheus-ingress";
    HasListed(k.kind, Ingress, suffix);
    ExtrasMeet(k.kind, local, k.name, k.ns, k.name);
    var i :| 0 <= i < |ExtraIds(k.kind)| && ExtraIds(k.kind)[i] == ExtraId(Ingress, suffix, false);
    assert Meets(k.kind, extras[i], ExtraIds(k.kind)[i], local, k.name, k.ns, k.name);
    assert AsListed(w, k, v, extras[i], ExtraIds(k.kind)[i]);
  }

  // ---------------------------------------------------------------- Loki's StatefulSets

  function ComponentKey(k: CrKey, component: string): Key {
    Key(StatefulSet, k.ns, k.name + "-" + component)
  }

  lemma ComponentIds(k: CrKey, key: Key)
    requires k.kind == Loki
    ensures (exists i :: 0 <= i < 3 && key == IdKey(k, ExtraIds(Loki)[i])) <==>
            (exists c :: c in {"ingester", "compactor", "index-gateway"} && key == ComponentKey(k, c))
  {
    var ids := ExtraIds(Loki);
    assert k.name + "-" + "ingester" == k.name + "-ingester" == k.name + ids[0].suffix;
    assert k.name + "-" + "compactor" == k.name + "-compactor" == k.name + ids[1].suffix;
    assert k.name + "-" + "index-gateway" == k.name + "-index-gateway" == k.name + ids[2].suffix;
    assert IdKey(k, ids[0]) == ComponentKey(k, "ingester");
    assert IdKey(k, ids[1]) == ComponentKey(k, "compactor");
    assert IdKey(k, ids[2]) == ComponentKey(k, "index-gateway");
  }

  lemma PatchAsListed(w: World, k: CrKey, v: World, e: Extra, id: ExtraId)
    requires AsListed(w, k, v, e, id) && id.patchOnly && e.desired == Some(FS_GROUP_PATCH) && k.kind == Loki
    ensures var key := IdKey(k, id);
            if key in w.objs then OwnsAt(v, key, Loki, FsGroup, Int(10001)) else key !in v.objs
  {
    if IdKey(k, id) in v.objs {
      OwnedIsAt(v, IdKey(k, id), Loki, FsGroup, Int(10001));
    }
  }

  lemma LokiIdsPatch(i: nat)
    requires i < 3
    ensures |ExtraIds(Loki)| == 3 && ExtraIds(Loki)[i].patchOnly
  {
  }

  /** The fsGroup after a successful pass: 10001 on each of the three components' StatefulSets
      that exists, and none of them is created. */
  lemma FsGroupPatched(w: World, k: CrKey, calls: nat, v: World, component: string)
    requires Passes(w, k, calls, v) && k.kind == Loki && component in {"ingester", "compactor", "index-gateway"}
    ensures var key := ComponentKey(k, component);
            if key in w.objs then OwnsAt(v, key, Loki, FsGroup, Int(10001)) else key !in v.objs
  {
    var extras := Adapters.ExtraResources(Loki, PlanSpec(FLEET(Loki), w, k), k.name, k.ns, k.name);
    PassObjects(w, k, calls, v);
    ComponentIds(k, ComponentKey(k, component));
    var i :| 0 <= i < 3 && ComponentKey(k, component) == IdKey(k, ExtraIds(Loki)[i]);
    LokiIdsPatch(i);
    LokiPatchesFsGroup(k.name, i);
    PatchAsListed(w, k, v, extras[i], ExtraIds(Loki)[i]);
  }

  ghost predicate HoldsUpComponent(w: World, k: CrKey, p: Pod) {
    exists c :: c in {"ingester", "compactor", "index-gateway"} && HoldsUp(w, ComponentKey(k, c), p)
  }

  lemma OnlyLokiPatches(kind: Kind, j: nat)
    requires j < |ExtraIds(kind)| && ExtraIds(kind)[j].patchOnly
    ensures kind == Loki
  {
    SuffixTable(kind, ExtraIds(kind)[j]);
  }

  lemma StuckIsComponent(w: World, k: CrKey, p: Pod)
    requires StuckFor(FLEET(k.kind), w, k, p)
    ensures k.kind == Loki && HoldsUpComponent(w, k, p)
  {
    var ids := FLEET(k.kind).ids;
    var j :| 0 <= j < |ids| && StuckIn(w, k, ids[j], p);
    OnlyLokiPatches(k.kind, j);
    ComponentIds(k, IdKey(k, ids[j]));
  }

  lemma ComponentIsStuck(w: World, k: CrKey, p: Pod)
    requires k.kind == Loki && HoldsUpComponent(w, k, p)
    ensures StuckFor(FLEET(k.kind), w, k, p)
  {
    var ids := FLEET(Loki).ids;
    var c :| c in {"ingester", "compactor", "index-gateway"} && HoldsUp(w, ComponentKey(k, c), p);
    ComponentIds(k, ComponentKey(k, c));
    var i :| 0 <= i < 3 && ComponentKey(k, c) == IdKey(k, ExtraIds(Loki)[i]);
    LokiIdsPatch(i);
    assert StuckIn(w, k, ids[i], p);
  }

  lemma StuckComponents(w: World, k: CrKey, p: Pod)
    ensures StuckFor(FLEET(k.kind), w, k, p) <==> k.kind == Loki && HoldsUpComponent(w, k, p)
  {
    if StuckFor(FLEET(k.kind), w, k, p) {
      StuckIsComponent(w, k, p);
    }
    if k.kind == Loki && HoldsUpComponent(w, k, p) {
      ComponentIsStuck(w, k, p);
    }
  }

  /** The pods after a successful pass: exactly those are gone that hold up the rollout of one of
      the three components, which is to say none for any other kind, and none while a
      StatefulSet's two revisions are equal. */
  lemma PodsUnstuck(w: World, k: CrKey, calls: nat, v: World, p: Pod)
    requires Passes(w, k, calls, v)
    ensures p in v.pods <==> p in w.pods && !(k.kind == Loki && HoldsUpComponent(w, k, p))
  {
    FleetLawful();
    PassDeletesStuckPods(FLEET(k.kind), w, k, calls, p);
    StuckComponents(w, k, p);
  }

  // ---------------------------------------------------------------- the first pass

  lemma MonitoringRewritten(kind: Kind, spec: Spec)
    requires kind in {Postgres, MariaDB, Valkey, RabbitMQ, Kafka, MongoDB}
    requires EnablePodMonitor in spec && spec[EnablePodMonitor].Bool?
    ensures EnablePodMonitor in TypedWrite(kind, spec) && TypedWrite(kind, spec)[EnablePodMonitor] == Bool(true)
  {
    var schema := Schema(kind);
    assert EnablePodMonitor in schema && schema[EnablePodMonitor] == Monitoring();
    assert EnablePodMonitor in Elide(schema, spec) <==> spec[EnablePodMonitor] != Bool(false);
  }

  lemma FinalizerMachine(run: Machine, ad: Adapter, w: World, k: CrKey, calls: nat)
    requires IsMachine(run, ad, k) && k in w.crs && !w.crs[k].deleting && FINALIZER !in w.crs[k].finalizers
    ensures var seen := w.crs[k];
            run(w, AtStart, calls)
            == if calls < 2 then (w, false)
               else (Serve(w, Update(k, seen, seen.finalizers + {FINALIZER}, ad.schema)), true)
  {
    var pc := AtAddFinalizer(w.crs[k]);
    if calls == 0 {
      CallStops(run, ad, w, k, AtStart, calls);
    } else {
      CallAdvances(run, ad, w, k, AtStart, calls, Observe, pc);
      if calls == 1 {
        CallStops(run, ad, w, k, pc, calls - 1);
      } else {
        CallReturns(run, ad, w, k, pc, calls - 1, RequestOf(ad, k, pc, w.now), true);
      }
    }
  }

  /** The pass over a resource without the finalizer: it adds it, sends the spec through the typed
      round trip, and touches nothing else. Monitoring is switched on by that, whatever the
      user said. */
  lemma FinalizerAdded(w: World, k: CrKey, calls: nat)
    requires k in w.crs && !w.crs[k].deleting && "paas.cncp.nl/cleanup" !in w.crs[k].finalizers
    requires Exec(FLEET(k.kind), w, k, AtStart, calls).1
    ensures var v := Exec(FLEET(k.kind), w, k, AtStart, calls).0;
            && k in v.crs && v == w.(crs := w.crs[k := v.crs[k]], clock := v.clock)
            && v.crs[k].finalizers == w.crs[k].finalizers + {"paas.cncp.nl/cleanup"}
            && v.crs[k].spec == TypedWrite(k.kind, w.crs[k].spec)
            && v.crs[k].status == w.crs[k].status && !v.crs[k].deleting
            && (k.kind in {Postgres, MariaDB, Valkey, RabbitMQ, Kafka, MongoDB} &&
                EnablePodMonitor in w.crs[k].spec && w.crs[k].spec[EnablePodMonitor].Bool? ==>
                  EnablePodMonitor in v.crs[k].spec && v.crs[k].spec[EnablePodMonitor] == Bool(true))
  {
    var ad, seen := FLEET(k.kind), w.crs[k];
    FinalizerMachine(MachineOf(ad, k), ad, w, k, calls);
    if k.kind in {Postgres, MariaDB, Valkey, RabbitMQ, Kafka, MongoDB} && EnablePodMonitor in seen.spec
       && seen.spec[EnablePodMonitor].Bool? {
      MonitoringRewritten(k.kind, seen.spec);
    }
  }

  // ---------------------------------------------------------------- the status

  function Number(o: Obj, name: string): int {
    if name in o.status.ints then o.status.ints[name] else 0
  }

  function Text(o: Obj, name: string): string {
    if name in o.status.strs && o.status.strs[name] != "" then o.status.strs[name] else "Unknown"
  }

  function StageStatus(o: Obj): string {
    if "stageStatus" in o.status.strs then o.status.strs["stageStatus"] else ""
  }

  ghost predicate HasTrue(o: Obj, ctype: string) {
    exists i :: FirstAt(o.status.conditions, ctype, i) && o.status.conditions[i].status == "True"
  }

  ghost predicate Explains(o: Obj, ctype: string, phase: string) {
    && (forall i :: FirstAt(o.status.conditions, ctype, i) ==>
          phase == if o.status.conditions[i].reason == "" then "Unknown" else o.status.conditions[i].reason)
    && ((forall i :: !FirstAt(o.status.conditions, ctype, i)) ==> phase == "Unknown")
  }

  /** s counts `all` units, of which `up` are ready, and is ready when at least one and no fewer
      than all are. */
  predicate Counts(s: CrStatus, all: int, up: int) {
    && s.replicas == Int32(all) && s.readyReplicas == Int32(up)
    && (s.ready <==> s.replicas > 0 && s.readyReplicas >= s.replicas)
  }

  /** What a stored status says of the vendor's report, kind by kind. */
  ghost predicate Reports(kind: Kind, o: Obj, s: CrStatus) {
    match kind
    case Postgres => Counts(s, Number(o, "instances"), Number(o, "readyInstances")) && s.phase == Text(o, "phase")
    case Valkey => Counts(s, Number(o, "shards"), Number(o, "readyShards")) && s.phase == Text(o, "state")
    case MongoDB => Counts(s, Number(o, "size"), Number(o, "ready")) && s.phase == Text(o, "state")
    case Prometheus =>
      && Counts(s, Number(o, "replicas"), Number(o, "availableReplicas"))
      && s.phase == (if "paused" in o.status.flags && o.status.flags["paused"] then "Paused"
                     else if s.replicas > 0 then "Progressing" else "Unknown")
    case MariaDB =>
      && s.replicas == Int32(Number(o, "replicas")) && (s.ready <==> HasTrue(o, "Ready") && s.replicas > 0)
      && s.readyReplicas == (if HasTrue(o, "Ready") then s.replicas else 0) && Explains(o, "Ready", s.phase)
    case RabbitMQ =>
      && (Copied(Replicas) in o.fields && o.fields[Copied(Replicas)].value.Int? ==>
            s.replicas == Int32(o.fields[Copied(Replicas)].value.i))
      && (s.ready <==> HasTrue(o, "AllReplicasReady") && s.replicas > 0)
      && s.readyReplicas == (if HasTrue(o, "AllReplicasReady") then s.replicas else 0)
      && Explains(o, "AllReplicasReady", s.phase)
    case Grafana =>
      && s.replicas == Int32(Number(o, "replicas"))
      && s.phase == Text(o, "stage") + "/" + StageStatus(o)
      && (s.ready <==> Text(o, "stage") == "complete" && StageStatus(o) == "success")
    case Kafka | Loki => (s.ready <==> HasTrue(o, "Ready")) && Explains(o, "Ready", s.phase)
    case Alloy => (s.ready <==> HasTrue(o, "Deployed")) && Explains(o, "Deployed", s.phase)
  }

  lemma ConditionRead(o: Obj, ctype: string)
    ensures IsTrue(FirstCondition(o.status.conditions, ctype)) <==> HasTrue(o, ctype)
    ensures Explains(o, ctype, ReasonOf(FirstCondition(o.status.conditions, ctype)))
  {
    FirstConditionExactly(o.status.conditions, ctype);
    forall i, j | FirstAt(o.status.conditions, ctype, i) && FirstAt(o.status.conditions, ctype, j) ensures i == j {
    }
  }

  lemma CountedReports(kind: Kind, o: Obj, s: CrStatus, target: string, generation: nat, now: nat)
    requires kind in {Postgres, Valkey, MongoDB, Prometheus}
    ensures Reports(kind, o, ApplyStatus(kind, s, target, ExtractStatus(kind, o), generation, now))
  {
  }

  lemma JudgedReports(kind: Kind, o: Obj, s: CrStatus, target: string, generation: nat, now: nat)
    requires kind in {MariaDB, RabbitMQ, Kafka, Loki, Alloy}
    ensures Reports(kind, o, ApplyStatus(kind, s, target, ExtractStatus(kind, o), generation, now))
  {
    match kind
    case MariaDB | Kafka | Loki => ConditionRead(o, "Ready");
    case RabbitMQ => ConditionRead(o, "AllReplicasReady");
    case Alloy => ConditionRead(o, "Deployed");
  }

  lemma GrafanaReports(o: Obj, s: CrStatus, target: string, generation: nat, now: nat)
    ensures Reports(Grafana, o, ApplyStatus(Grafana, s, target, ExtractStatus(Grafana, o), generation, now))
  {
    assert |"success"| > 0;
  }

  /** The entry for Ready: it says what the status says, for the generation that was read. */
  ghost predicate ReadyTold(kind: Kind, s: CrStatus, generation: nat) {
    OneReady(s) && forall x: Condition :: x in s.conditions && x.ctype == "Ready" ==>
      && x.status == s.ready && Reasons(kind, s.ready, x.reason) && x.message == s.message
      && x.observedGeneration == generation
  }

  /** The status after a successful pass, from the vendor's report to the stored resource: the
      target's report is as the vendor left it, and the stored status says that, kind by kind,
      with one Ready entry for the generation read. */
  lemma StatusReports(w: World, k: CrKey, calls: nat, v: World)
    requires Passes(w, k, calls, v) && UniqueTypes(w.crs[k].status.conditions)
    ensures k in v.crs && TargetKey(k) in v.objs
    ensures TargetKey(k) in w.objs ==> v.objs[TargetKey(k)].status == w.objs[TargetKey(k)].status
    ensures Reports(k.kind, v.objs[TargetKey(k)], v.crs[k].status)
    ensures ReadyTold(k.kind, v.crs[k].status, w.crs[k].generation)
  {
    var ad, cr := FLEET(k.kind), w.crs[k];
    FleetLawful();
    PassOutcome(ad, w, k, calls);
    var o := v.objs[TargetKey(k)];
    assert v.crs[k].status == ApplyStatus(k.kind, cr.status, k.name, ExtractStatus(k.kind, o), cr.generation, w.now);
    if k.kind in {Postgres, Valkey, MongoDB, Prometheus} {
      CountedReports(k.kind, o, cr.status, k.name, cr.generation, w.now);
    } else if k.kind == Grafana {
      GrafanaReports(o, cr.status, k.name, cr.generation, w.now);
    } else {
      JudgedReports(k.kind, o, cr.status, k.name, cr.generation, w.now);
    }
    EntryTold(k.kind, cr.status, k.name, ExtractStatus(k.kind, o), cr.generation, w.now);
  }

  lemma EntryTold(kind: Kind, s: CrStatus, target: string, t: TargetStatus, generation: nat, now: nat)
    requires UniqueTypes(s.conditions)
    ensures ReadyTold(kind, ApplyStatus(kind, s, target, t, generation, now), generation)
  {
    StatusMirrored(kind, s, target, t, generation, now);
    OnlyReady(ApplyStatus(kind, s, target, t, generation, now));
  }

  /** RabbitMQ's report carries no count of its own: the one stored is the one the user asked for. */
  lemma RabbitMQCountsAsked(w: World, k: CrKey, calls: nat, v: World)
    requires Passes(w, k, calls, v) && k.kind == RabbitMQ && UniqueTypes(w.crs[k].status.conditions)
    requires Replicas in w.crs[k].spec && w.crs[k].spec[Replicas].Int? && w.crs[k].spec[Replicas].i != 0
    ensures k in v.crs && v.crs[k].status.replicas == Int32(w.crs[k].spec[Replicas].i)
  {
    assert SetIn(w.crs[k].spec, RabbitMQ, Replicas) && ReachesTarget(RabbitMQ, Replicas);
    TargetAsAsked(w, k, calls, v, Replicas);
    StatusReports(w, k, calls, v);
  }

  // ---------------------------------------------------------------- volume claims

  lemma LokiSelects(k: CrKey)
    requires k.kind == Loki
    ensures FLEET(Loki).pvcSelector(k.name) != map[]
  {
    assert Adapters.PVC_NAME in Adapters.PVCLabelSelector(Loki, k.name);
  }

  /** The claims after a successful deletion pass: of a LokiInstance, exactly those with its three
      labels in its namespace are gone, or marked if something holds them; of any other kind,
      none. */
  lemma ClaimsGone(w: World, k: CrKey, calls: nat, key: PvcKey)
    requires Doomed(w, k) && Exec(FLEET(k.kind), w, k, AtStart, calls).1 && key in w.pvcs
    ensures var pvcs := Exec(FLEET(k.kind), w, k, AtStart, calls).0.pvcs;
            if BacksLoki(key, w.pvcs[key], k) then
              if w.pvcs[key].pins == {} then key !in pvcs
              else key in pvcs && pvcs[key] == w.pvcs[key].(terminating := true)
            else key in pvcs && pvcs[key] == w.pvcs[key]
  {
    TeardownOutcome(FLEET(k.kind), w, k, calls);
    assert FLEET(k.kind).pvcSelector(k.name) == Adapters.PVCLabelSelector(k.kind, k.name);
    if k.kind == Loki {
      LokiSelects(k);
      SelectsLoki(key, w.pvcs[key], k);
    }
  }

  /** No unmarked claim of the LokiInstance is left. */
  predicate NoClaims(w: World, k: CrKey) {
    forall key :: key in w.pvcs && BacksLoki(key, w.pvcs[key], k) ==> w.pvcs[key].terminating
  }

  /** Over every run: a call that takes the finalizer off a LokiInstance is its own worker's, and
      an earlier call of this very pass left no unmarked claim with its three labels. */
  lemma ClaimsGoneBeforeRelease(s: Sys, events: seq<Event>, c: CrKey, k: CrKey)
    requires Initial(s) && IsRun(FLEET, s, events) && k.kind == Loki
    requires var t := Final(FLEET, s, events); k in t.w.crs && FINALIZER in t.w.crs[k].finalizers
    requires var crs := After(FLEET, Final(FLEET, s, events), Call(c)).w.crs;
             k in crs ==> FINALIZER !in crs[k].finalizers
    ensures exists i :: ClaimsDeletedAt(FLEET, s, events, k, i) && NoClaims(Final(FLEET, s, events[..i + 1]).w, k)
  {
    FleetLawful();
    InitialInv(FLEET, s);
    RunKeepsInv(FLEET, s, events);
    OnlyRemovalReleases(FLEET, Final(FLEET, s, events), c, k);
    LokiSelects(k);
    ClaimsGoFirst(FLEET, s, events, k);
    var i :| ClaimsDeletedAt(FLEET, s, events, k, i);
    var atClaims := Final(FLEET, s, events[..i + 1]).w;
    forall key | key in atClaims.pvcs && BacksLoki(key, atClaims.pvcs[key], k) ensures atClaims.pvcs[key].terminating {
      SelectsLoki(key, atClaims.pvcs[key], k);
      assert FLEET(k.kind).pvcSelector(k.name) == Adapters.PVCLabelSelector(k.kind, k.name);
    }
  }
}
