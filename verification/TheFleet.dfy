/** The ten adapters assembled for the engine, the proof that each keeps the engine's
    contract, and what the safety theorems say of them together. */
module TheFleet {
  import opened Kinds
  import opened Specs
  import opened Manifests
  import opened Naming
  import opened ServerSideApply
  import opened Status
  import opened Contract
  import opened Admission
  import opened Cluster
  import opened Engine
  import opened Interleaving
  import opened Safety
  import opened Orphans
  import opened Claims
  import opened Histories
  import opened IngressClasses
  import opened Pods
  import opened Convergence
  import opened Fixpoints
  import opened Pasts
  import opened Traces
  import opened Noninterference
  import Adapters
  import opened Footprint
  import opened Entries
  import opened Delegated

  function AdapterOf(kind: Kind): Adapter {
    Adapter(
      Schema(kind), ExtraIds(kind),
      (spec, ns, owner) => Adapters.BuildManifest(kind, spec, ns, owner),
      (spec, target, ns, owner) => Adapters.ExtraResources(kind, spec, target, ns, owner),
      o => ExtractStatus(kind, o),
      (status: CrStatus, target: string, t: TargetStatus, generation: nat, now: nat) =>
        ApplyStatus(kind, status, target, t, generation, now),
      target => Adapters.PVCLabelSelector(kind, target),
      spec => if Adapters.DefaultsIngressClass(kind) then Adapters.RequestedIngressClassName(kind, spec) else None,
      (spec, className) => Adapters.SetIngressClassName(spec, className))
  }

  const FLEET: Fleet := AdapterOf

  // ---------------------------------------------------------------- the contract is kept

  lemma LokiPatchesFsGroup(target: string, i: nat)
    requires i < |Adapters.LokiExtras(target)|
    ensures Adapters.LokiExtras(target)[i].desired == Some(FS_GROUP_PATCH)
  {
  }

  lemma PatchesFsGroupOnly(kind: Kind, spec: Spec, target: string, ns: string, owner: string, i: nat)
    requires i < |Adapters.ExtraResources(kind, spec, target, ns, owner)|
    ensures var e := Adapters.ExtraResources(kind, spec, target, ns, owner)[i];
            e.patchOnly ==> e.desired == Some(FS_GROUP_PATCH)
  {
    ExtrasHaveFixedIds(kind, spec, target, ns, owner);
    if ExtraIds(kind)[i].patchOnly {
      SuffixTable(kind, ExtraIds(kind)[i]);
      LokiPatchesFsGroup(target, i);
    }
  }

  lemma AdapterListsAlways(kind: Kind)
    ensures ListsAlways(AdapterOf(kind))
  {
    forall spec, target, ns, owner
      ensures LawfulExtras(Adapters.ExtraResources(kind, spec, target, ns, owner), ExtraIds(kind), target)
    {
      ExtrasHaveFixedIds(kind, spec, target, ns, owner);
      forall i | 0 <= i < |Adapters.ExtraResources(kind, spec, target, ns, owner)|
        ensures var e := Adapters.ExtraResources(kind, spec, target, ns, owner)[i];
                e.patchOnly ==> e.desired == Some(FS_GROUP_PATCH)
      {
        PatchesFsGroupOnly(kind, spec, target, ns, owner, i);
      }
    }
  }

  lemma AdapterMirrorsSoundly(kind: Kind)
    ensures MirrorsSoundly(AdapterOf(kind))
  {
    forall s: CrStatus, target, t, g, now | UniqueTypes(s.conditions)
      ensures Mirrored(s, ApplyStatus(kind, s, target, t, g, now), t)
    {
      StatusMirrored(kind, s, target, t, g, now);
    }
    forall s: CrStatus, target, t, g, now, later
      ensures ApplyStatus(kind, ApplyStatus(kind, s, target, t, g, now), target, t, g, later)
              == ApplyStatus(kind, s, target, t, g, now)
    {
      MirroringIdempotent(kind, s, target, t, g, now, later);
    }
  }

  /** Every adapter of the repository keeps the contract the engine relies on. */
  lemma FleetLawful()
    ensures LawfulFleet(FLEET)
  {
    forall kind ensures Lawful(FLEET(kind)) {
      AdapterListsAlways(kind);
      IdsWellNamed(kind);
      AdapterMirrorsSoundly(kind);
    }
  }

  // ---------------------------------------------------------------- singletons

  lemma TargetsOwner(k: CrKey, key: Key, kind: Kind)
    requires Owns(ExtraIds(k.kind), k, key) && key.gvk == Target(kind)
    ensures key == TargetKey(k) && k.kind == kind
  {
    if key != TargetKey(k) {
      var id :| id in ExtraIds(k.kind) && !id.patchOnly && key == IdKey(k, id);
      SuffixTable(k.kind, id);
    }
  }

  ghost predicate LiveManaged(w: World, key: Key) {
    Live(w, key) && w.objs[key].touched
  }

  /** A resource leaves the store only after its target is gone. */
  lemma LiveTargetHasOwner(s: Sys, events: seq<Event>, kind: Kind, ns: string, name: string)
    requires Initial(s) && IsRun(FLEET, s, events) &&
             LiveManaged(Final(FLEET, s, events).w, Key(Target(kind), ns, name))
    ensures CrKey(kind, ns, name) in Final(FLEET, s, events).w.crs.Keys
  {
    FleetLawful();
    var w, key := Final(FLEET, s, events).w, Key(Target(kind), ns, name);
    NoOrphansEver(FLEET, s, events, key);
    var k :| k in w.crs && FINALIZER in w.crs[k].finalizers && Owns(FLEET(k.kind).ids, k, key);
    TargetsOwner(k, key, kind);
    assert k == CrKey(kind, ns, name);
  }

  /** Over every run with serialized admission: a namespace never holds two live managed
      targets of a singleton kind, so a successor never meets its predecessor's Grafana. */
  lemma AtMostOneLiveTarget(s: Sys, events: seq<Event>, kind: Kind, ns: string, a: string, b: string)
    requires Initial(s) && IsRun(FLEET, s, events) && kind in {Grafana, Prometheus, Loki}
    requires LiveManaged(Final(FLEET, s, events).w, Key(Target(kind), ns, a))
    requires LiveManaged(Final(FLEET, s, events).w, Key(Target(kind), ns, b))
    ensures a == b
  {
    LiveTargetHasOwner(s, events, kind, ns, a);
    LiveTargetHasOwner(s, events, kind, ns, b);
    FleetLawful();
    InitialInv(FLEET, s);
    RunKeepsInv(FLEET, s, events);
  }

  // ---------------------------------------------------------------- selectors

  /** The scope label of a Grafana and the instance selector of a dashboard or datasource
      name the object's own namespace. */
  predicate ScopedClaim(key: Key, p: Path, v: Value) {
    && (key.gvk == Target(Grafana) && p == Label(Adapters.SCOPE) ==> v == Str(key.ns))
    && (key.gvk in {GrafanaDashboard, GrafanaDatasource} && p == InstanceSelector ==> v == Adapters.Selecting(key.ns))
  }

  lemma TargetScoped(k: CrKey, spec: Spec)
    ensures ManifestClaims(TargetKey(k), FLEET(k.kind).manifest(spec, k.ns, k.name), ScopedClaim)
  {
    if k.kind == Grafana {
      Adapters.GrafanaScope(spec, k.ns, k.name);
    }
  }

  lemma ExtraIsNoTarget(ad: Adapter, k: CrKey, spec: Spec, e: Extra)
    requires Lawful(ad) && e in Extras(ad, k, spec)
    ensures !e.gvk.Target?
  {
    var i :| 0 <= i < |Extras(ad, k, spec)| && Extras(ad, k, spec)[i] == e;
    ExtraIsId(ad, k, spec, i);
  }

  lemma ExtraScoped(ad: Adapter, k: CrKey, spec: Spec, e: Extra)
    requires Lawful(ad) && ad == FLEET(k.kind) && e in Extras(ad, k, spec) && e.desired.Some?
    ensures ManifestClaims(ExtraKey(k, e), e.desired.value, ScopedClaim)
  {
    ExtraIsNoTarget(ad, k, spec, e);
    Adapters.BuiltSelector(k.kind, spec, k.name, k.ns, k.name, e);
  }

  lemma FleetScoped(kind: Kind)
    ensures AdapterClaims(FLEET(kind), kind, ScopedClaim)
  {
    FleetLawful();
    forall k: CrKey, spec | k.kind == kind
      ensures ManifestClaims(TargetKey(k), FLEET(kind).manifest(spec, k.ns, k.name), ScopedClaim)
    {
      TargetScoped(k, spec);
    }
    forall k: CrKey, spec, e | k.kind == kind && e in Extras(FLEET(kind), k, spec) && e.desired.Some?
      ensures ManifestClaims(ExtraKey(k, e), e.desired.value, ScopedClaim)
    {
      ExtraScoped(FLEET(kind), k, spec, e);
    }
  }

  ghost predicate OwnedAt(w: World, key: Key, p: Path) {
    key in w.objs && p in w.objs[key].fields && exists kind :: Operator(kind) in w.objs[key].fields[p].owners
  }

  /** In every reachable state: a dashboard or datasource whose selector this operator owns
      selects a Grafana whose scope label it owns exactly when both are in one namespace. */
  lemma SelectorsStayInNamespace(s: Sys, events: seq<Event>, board: Key, grafana: Key)
    requires Initial(s) && IsRun(FLEET, s, events)
    requires board.gvk in {GrafanaDashboard, GrafanaDatasource} && grafana.gvk == Target(Grafana)
    requires var w := Final(FLEET, s, events).w;
             OwnedAt(w, board, InstanceSelector) && OwnedAt(w, grafana, Label(Adapters.SCOPE))
    ensures var w := Final(FLEET, s, events).w;
            var selector := w.objs[board].fields[InstanceSelector].value;
            var scope := w.objs[grafana].fields[Label(Adapters.SCOPE)].value;
            Adapters.Selects(selector, map[Label(Adapters.SCOPE) := scope]) <==> board.ns == grafana.ns
  {
    FleetLawful();
    forall kind ensures AdapterClaims(FLEET(kind), kind, ScopedClaim) {
      FleetScoped(kind);
    }
    ClaimsEver(FLEET, s, events, ScopedClaim);
    var w := Final(FLEET, s, events).w;
    var kind :| Operator(kind) in w.objs[board].fields[InstanceSelector].owners;
    var kind' :| Operator(kind') in w.objs[grafana].fields[Label(Adapters.SCOPE)].owners;
    assert ScopedClaim(board, InstanceSelector, w.objs[board].fields[InstanceSelector].value);
    assert ScopedClaim(grafana, Label(Adapters.SCOPE), w.objs[grafana].fields[Label(Adapters.SCOPE)].value);
    var scope := w.objs[grafana].fields[Label(Adapters.SCOPE)].value;
    Adapters.SelectsByScope(board.ns, map[Label(Adapters.SCOPE) := scope], grafana.ns);
  }

  // ---------------------------------------------------------------- what a release leaves

  /** Over every run: once k is released, nothing this operator has written under a key of k
      is live, but for a dashboard or PodMonitor that a stored resource of the same name and
      another kind lists as well and will delete. */
  lemma ReleasedLeavesOnlyShared(s: Sys, events: seq<Event>, k: CrKey, key: Key)
    requires Initial(s) && IsRun(FLEET, s, events)
    requires var w := Final(FLEET, s, events).w;
             && (k in w.crs ==> FINALIZER !in w.crs[k].finalizers)
             && Owns(ExtraIds(k.kind), k, key) && Live(w, key) && w.objs[key].touched
    ensures key.gvk in {GrafanaDashboard, PodMonitor}
    ensures var w := Final(FLEET, s, events).w;
            exists c :: c in w.crs && c.ns == k.ns && c.name == k.name && c.kind != k.kind &&
                        FINALIZER in w.crs[c].finalizers && Owns(ExtraIds(c.kind), c, key)
  {
    FleetLawful();
    var w := Final(FLEET, s, events).w;
    IdsWellNamed(k.kind);
    OwnedNeverStatefulSet(ExtraIds(k.kind), k, key);
    NoOrphansEver(FLEET, s, events, key);
    var c :| c in w.crs && FINALIZER in w.crs[c].finalizers && Owns(FLEET(c.kind).ids, c, key);
    CommonKey(k, c, key);
  }

  // ---------------------------------------------------------------- isolation

  /** The keys two resources may share: dashboards and PodMonitors of resources of one name. */
  predicate MayShare(k: CrKey, other: CrKey, key: Key) {
    k.ns == other.ns && k.name == other.name && key.gvk in {GrafanaDashboard, PodMonitor}
  }

  /** In every reachable state: a call of one resource's worker changes no object that another
      resource manages, but for a dashboard or PodMonitor of a resource of the same name, and
      no other custom resource. */
  lemma OthersUntouched(s: Sys, events: seq<Event>, k: CrKey, other: CrKey, key: Key)
    requires Initial(s) && IsRun(FLEET, s, events) && k != other
    requires Manages(ExtraIds(other.kind), other, key) && !MayShare(k, other, key)
    ensures var t := Final(FLEET, s, events);
            SameObj(t.w, After(FLEET, t, Call(k)).w, key) && SameOtherCrs(t.w, After(FLEET, t, Call(k)).w, k)
  {
    FleetLawful();
    InitialInv(FLEET, s);
    RunKeepsInv(FLEET, s, events);
    var t := Final(FLEET, s, events);
    assert WorkerInv(FLEET, t, k);
    WorkerTouchesManaged(AdapterOf(k.kind), t.w, k, PcOf(t, k));
    if Manages(ExtraIds(k.kind), k, key) {
      CommonKey(other, k, key);
    }
  }

  lemma WorkerTouchesManaged(ad: Adapter, w: World, k: CrKey, pc: Pc)
    requires Lawful(ad) && WalksList(ad, k, pc)
    ensures forall key :: !Manages(ad.ids, k, key) ==> SameObj(w, Step(ad, w, k, pc).w, key)
    ensures SameOtherCrs(w, Step(ad, w, k, pc).w, k)
  {
    var r := RequestOf(ad, k, pc, w.now);
    if Accepted(w, r) {
      RequestOwnCr(ad, k, pc, w.now);
      ServeFramesCrs(w, r, k);
      RequestManaged(ad, k, pc, w.now);
      forall key | !Manages(ad.ids, k, key) ensures SameObj(w, Serve(w, r), key) {
        ServeFramesObjects(w, r, key);
      }
    }
  }

  // ---------------------------------------------------------------- volume claims

  predicate Labelled(labels: map<string, string>, key: string, value: string) {
    key in labels && labels[key] == value
  }

  /** A volume claim of the LokiInstance k: all three labels, in k's namespace. */
  predicate BacksLoki(key: PvcKey, pvc: Pvc, k: CrKey) {
    && k.kind == Loki && key.ns == k.ns
    && Labelled(pvc.labels, "app.kubernetes.io/name", "lokistack")
    && Labelled(pvc.labels, "app.kubernetes.io/instance", k.name)
    && Labelled(pvc.labels, "app.kubernetes.io/managed-by", "lokistack-controller")
  }

  lemma SelectsLoki(key: PvcKey, pvc: Pvc, k: CrKey)
    requires k.kind == Loki
    ensures Backs(key, pvc, k.ns, Adapters.PVCLabelSelector(k.kind, k.name)) <==> BacksLoki(key, pvc, k)
  {
    var sel := Adapters.PVCLabelSelector(k.kind, k.name);
    assert Adapters.PVC_NAME in sel && Adapters.PVC_INSTANCE in sel && Adapters.MANAGED_BY in sel;
    assert sel[Adapters.PVC_INSTANCE] == k.name;
  }

  /** In every reachable state: only the worker of a LokiInstance marked for deletion deletes
      volume claims, and it deletes exactly that instance's, those with a finalizer being
      marked; those of instances with another name keep both. */
  lemma PvcsExactly(s: Sys, events: seq<Event>, k: CrKey, key: PvcKey)
    requires Initial(s) && IsRun(FLEET, s, events) && key in Final(FLEET, s, events).w.pvcs
    ensures var t := Final(FLEET, s, events);
            var before, after := t.w.pvcs, After(FLEET, t, Call(k)).w.pvcs;
            if PcOf(t, k).AtDeletePvcs? && BacksLoki(key, before[key], k) then
              k in t.w.crs && t.w.crs[k].deleting &&
              (if before[key].pins == {} then key !in after
               else key in after && after[key] == before[key].(terminating := true))
            else
              key in after && after[key] == before[key]
  {
    FleetLawful();
    InitialInv(FLEET, s);
    RunKeepsInv(FLEET, s, events);
    var t := Final(FLEET, s, events);
    assert WorkerInv(FLEET, t, k);
    if PcOf(t, k).AtDeletePvcs? {
      ClaimCall(t.w, k, PcOf(t, k), key);
    } else {
      PvcsKept(FLEET(k.kind), t.w, k, PcOf(t, k));
    }
  }

  /** The call that deletes claims. */
  lemma ClaimCall(w: World, k: CrKey, pc: Pc, key: PvcKey)
    requires pc.AtDeletePvcs? && WalksList(FLEET(k.kind), k, pc) && key in w.pvcs
    ensures k.kind == Loki
    ensures var after := Step(FLEET(k.kind), w, k, pc).w.pvcs;
            if BacksLoki(key, w.pvcs[key], k) then
              if w.pvcs[key].pins == {} then key !in after
              else key in after && after[key] == w.pvcs[key].(terminating := true)
            else key in after && after[key] == w.pvcs[key]
  {
    assert FLEET(k.kind).pvcSelector(k.name) == Adapters.PVCLabelSelector(k.kind, k.name);
    SelectsLoki(key, w.pvcs[key], k);
  }

  lemma PvcsKept(ad: Adapter, w: World, k: CrKey, pc: Pc)
    requires !pc.AtDeletePvcs?
    ensures Step(ad, w, k, pc).w.pvcs == w.pvcs
  {
  }

  // ---------------------------------------------------------------- the resolved class

  /** Defaulting fills in a missing class and nothing else, and what it filled in is an
      explicit class from then on. */
  lemma DefaultingOnce(kind: Kind, spec: Spec, className: string)
    requires NeedsClass(AdapterOf(kind), spec) && className != ""
    ensures var filled := AdapterOf(kind).setClass(spec, className);
            && AdapterOf(kind).requestedClass(filled) == Some(className) && !NeedsClass(AdapterOf(kind), filled)
            && forall f :: f != IngressField ==> Read(kind, filled, f) == Read(kind, spec, f)
  {
    assert IngressField in spec && spec[IngressField].IngressValue? by {
      assert Read(kind, spec, IngressField).IngressValue?;
      assert Schema(kind)[IngressField].zero == Null;
    }
  }

  /** Over every run in which no user edits its spec, a resource of a kind whose class is
      defaulted keeps, stored, exactly the ingress block the user wrote. */
  lemma ClassNeverStored(s: Sys, events: seq<Event>, c: CrKey)
    requires Inv(FLEET, s) && IsRun(FLEET, s, events) && UsersLeaveSpec(FLEET, s, events, c)
    requires c in Final(FLEET, s, events).w.crs && Adapters.DefaultsIngressClass(c.kind)
    ensures c in s.w.crs
    ensures Read(c.kind, Final(FLEET, s, events).w.crs[c].spec, IngressField)
            == Read(c.kind, s.w.crs[c].spec, IngressField)
  {
    FleetLawful();
    SpecOverRun(FLEET, s, events, c);
    IngressSurvives(c.kind, s.w.crs[c].spec);
  }

  lemma IngressSurvives(kind: Kind, spec: Spec)
    requires Adapters.DefaultsIngressClass(kind)
    ensures Read(kind, TypedWrite(kind, spec), IngressField) == Read(kind, spec, IngressField)
  {
    assert IngressField in Schema(kind) && Schema(kind)[IngressField] == Struct();
    FlipsExactly(Schema(kind), spec, IngressField);
  }

  // ---------------------------------------------------------------- histories

  lemma ExtraHasNoPins(kind: Kind, spec: Spec, target: string, ns: string, owner: string, i: nat)
    requires i < |Adapters.ExtraResources(kind, spec, target, ns, owner)|
    ensures var e := Adapters.ExtraResources(kind, spec, target, ns, owner)[i];
            e.desired.Some? ==> e.desired.value.pins == {}
  {
    if kind == Loki {
      LokiPatchesFsGroup(target, i);
    } else {
      ExtrasMeet(kind, spec, target, ns, owner);
      var extras := Adapters.ExtraResources(kind, spec, target, ns, owner);
      assert Meets(kind, extras[i], ExtraIds(kind)[i], spec, target, ns, owner);
    }
  }

  lemma FleetFixedFinalizers(kind: Kind)
    ensures FixedFinalizers(FLEET(kind), Adapters.TargetPins(kind))
  {
    forall k: CrKey, spec, e | e in Extras(FLEET(kind), k, spec) && e.desired.Some? ensures e.desired.value.pins == {} {
      var extras := Adapters.ExtraResources(kind, spec, k.name, k.ns, k.name);
      var i :| 0 <= i < |extras| && extras[i] == e;
      ExtraHasNoPins(kind, spec, k.name, k.ns, k.name, i);
    }
  }

  /** History independence for the ten kinds, the finalizer of MongoDB's target included. */
  lemma FleetHistoryErased(w: World, k: CrKey, history: seq<Attempt>, spec: Spec, calls: nat, first: nat)
    requires Clean(FLEET(k.kind), w, k)
    requires Exec(FLEET(k.kind), Edited(Lived(FLEET(k.kind), w, k, history), k, spec), k, AtStart, calls).1
    requires Exec(FLEET(k.kind), Edited(w, k, spec), k, AtStart, first).1
    ensures var ad := FLEET(k.kind);
            var w' := Exec(ad, Edited(Lived(ad, w, k, history), k, spec), k, AtStart, calls).0;
            var v' := Exec(ad, Edited(w, k, spec), k, AtStart, first).0;
            w'.objs == v'.objs && forall p :: p in w'.pods <==> p in v'.pods
  {
    FleetLawful();
    FleetFixedFinalizers(k.kind);
    HistoryErased(FLEET(k.kind), w, k, history, spec, calls, first, Adapters.TargetPins(k.kind));
  }

  // ---------------------------------------------------------------- who interferes with whom

  /** Two resources' workers keep off each other's keys, exactly, unless the resources are of
      one name and both emit a dashboard or both a PodMonitor. */
  lemma WhoIsApart(k: CrKey, c: CrKey)
    requires k != c
    ensures KeysApart(FLEET, k, c) <==>
            !(k.ns == c.ns && k.name == c.name && k.kind != c.kind &&
              ((Emits(k.kind, GrafanaDashboard) && Emits(c.kind, GrafanaDashboard)) ||
               (Emits(k.kind, PodMonitor) && Emits(c.kind, PodMonitor))))
  {
    assert FLEET(k.kind).ids == ExtraIds(k.kind) && FLEET(c.kind).ids == ExtraIds(c.kind);
    CollisionExactly(k, c);
    if key :| Manages(ExtraIds(k.kind), k, key) && Manages(ExtraIds(c.kind), c, key) {
      assert Manages(FLEET(k.kind).ids, k, key) && Manages(FLEET(c.kind).ids, c, key);
    }
  }

  /** What the collision on the external Service does: a successful pass over a ValkeyCluster
      that is not exposed leaves no live Service under the name the PostgresCluster of the same
      name has its vendor use; over one that is exposed, it takes that Service over. */
  lemma ValkeyTakesExternalService(w: World, k: CrKey, calls: nat)
    requires k.kind == Valkey && Active(w, k) && UniqueNames(w.pods)
    requires Exec(FLEET(Valkey), w, k, AtStart, calls).1
    ensures Delegates(CrKey(Postgres, k.ns, k.name), ExternalKey(k.ns, k.name))
    ensures var v, key := Exec(FLEET(Valkey), w, k, AtStart, calls).0, ExternalKey(k.ns, k.name);
            if Adapters.IsSet(Valkey, w.crs[k].spec, Expose)
            then key in v.objs && OwnedBy(v.objs[key], Operator(Valkey))
                                  == Adapters.ExternalService(w.crs[k].spec, k.name, k.name).fields
            else !Live(v, key)
  {
    var ad, plan := FLEET(Valkey), PlanOf(FLEET(Valkey), w, k);
    FleetLawful();
    assert DelegatedIds(Postgres)[0] in DelegatedIds(Postgres);
    PassOutcome(ad, w, k, calls);
    PlanDistinct(ad, w, k);
    ValkeyFirstExtra(w, k);
    var v := Exec(ad, w, k, AtStart, calls).0;
    assert At(v, KeyAt(plan, 0)) == ExtraAfter(plan, plan.extras[0]);
    if plan.extras[0].desired.Some? {
      ClaimsAreManifest(plan, v, 0);
    } else {
      PrunedNotLive(plan, v, 0);
    }
  }

  lemma ValkeyFirstExtra(w: World, k: CrKey)
    requires k.kind == Valkey && k in w.crs
    ensures var plan, spec := PlanOf(FLEET(Valkey), w, k), w.crs[k].spec;
            && |plan.extras| > 0 && KeyAt(plan, 0) == ExternalKey(k.ns, k.name) && !plan.extras[0].patchOnly
            && plan.extras[0].desired == Adapters.Toggled(Adapters.IsSet(Valkey, spec, Expose),
                                                          Adapters.ExternalService(spec, k.name, k.name))
  {
    assert !Adapters.DefaultsIngressClass(Valkey);
  }
}
