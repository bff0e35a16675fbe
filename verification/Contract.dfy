/** The adapter interface the engine is generic over, and what its comments ask of every
    implementation. */
module Contract {
  import opened Kinds
  import opened Specs
  import opened Manifests
  import opened Naming
  import opened ServerSideApply
  import opened Status

  /** ids lists, for every spec alike, what extras may list. An adapter without an optional
      extension lists nothing, selects nothing, and requests no class. */
  datatype Adapter = Adapter(
    schema: map<Field, Rule>,
    ids: seq<ExtraId>,
    manifest: (Spec, string, string) -> Manifest,
    extras: (Spec, string, string, string) -> seq<Extra>,
    extract: Obj -> TargetStatus,
    mirror: (CrStatus, string, TargetStatus, nat, nat) -> CrStatus,
    pvcSelector: string -> map<string, string>,
    requestedClass: Spec -> Option<string>,
    setClass: (Spec, string) -> Spec)

  /** One adapter per kind. */
  type Fleet = Kind -> Adapter

  /** Every possible extra is listed on every call, and patches of foreign objects claim the
      fsGroup only. */
  ghost predicate ListsAlways(ad: Adapter) {
    forall spec, target, ns, owner :: LawfulExtras(ad.extras(spec, target, ns, owner), ad.ids, target)
  }

  predicate LawfulExtras(extras: seq<Extra>, ids: seq<ExtraId>, target: string) {
    Listed(extras, ids, target) &&
    forall i :: 0 <= i < |extras| && extras[i].patchOnly ==> extras[i].desired == Some(FS_GROUP_PATCH)
  }

  ghost predicate Mirrored(before: CrStatus, after: CrStatus, t: TargetStatus) {
    Mirrors(after) && HasReady(after) && after.ready == t.ready &&
    forall c: Condition :: c.ctype != READY ==> (c in after.conditions <==> c in before.conditions)
  }

  ghost predicate MirrorsSoundly(ad: Adapter) {
    && (forall s: CrStatus, target, t, g, now :: UniqueTypes(s.conditions) ==>
        Mirrored(s, ad.mirror(s, target, t, g, now), t))
    && (forall s, target, t, g, now, later ::
          ad.mirror(ad.mirror(s, target, t, g, now), target, t, g, later) == ad.mirror(s, target, t, g, now))
  }

  ghost predicate Lawful(ad: Adapter) {
    ListsAlways(ad) && WellNamed(ad.ids) && MirrorsSoundly(ad)
  }

  ghost predicate LawfulFleet(fleet: Fleet) {
    forall kind :: Lawful(fleet(kind))
  }
}
