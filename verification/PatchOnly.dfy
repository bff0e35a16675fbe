/** Foreign StatefulSets: the operator never creates or deletes one, changes nothing on it
    but the fsGroup, and an fsGroup once set stays. */
module PatchOnly {
  import opened Kinds
  import opened Specs
  import opened Manifests
  import opened Naming
  import opened ServerSideApply
  import opened Contract
  import opened Cluster
  import opened Engine
  import opened Interleaving
  import opened Safety
  import opened Orphans
  import opened Claims

  predicate FsGroupClaim(key: Key, p: Path, v: Value) {
    key.gvk == StatefulSet ==> p == FsGroup && v == Int(LOKI_FS_GROUP)
  }

  lemma LawfulClaims(ad: Adapter, kind: Kind)
    requires Lawful(ad)
    ensures AdapterClaims(ad, kind, FsGroupClaim)
  {
    forall k: CrKey, spec, e | k.kind == kind && e in Extras(ad, k, spec) && e.desired.Some?
      ensures ManifestClaims(ExtraKey(k, e), e.desired.value, FsGroupClaim)
    {
      var i :| 0 <= i < |Extras(ad, k, spec)| && Extras(ad, k, spec)[i] == e;
      ExtraIsId(ad, k, spec, i);
    }
  }

  predicate FsGroupSet(o: Obj) {
    FsGroup in o.fields && o.fields[FsGroup].value == Int(LOKI_FS_GROUP)
  }

  /** b is a, apart from the fsGroup and the record that this operator has patched it. */
  predicate SameButFsGroup(a: Obj, b: Obj) {
    && b.(fields := map[], touched := a.touched) == a.(fields := map[])
    && b.fields - {FsGroup} == a.fields - {FsGroup}
  }

  /** One patch. */
  lemma PatchTouchesFsGroupOnly(o: Obj, mgr: Manager)
    requires forall p :: p in o.fields && mgr in o.fields[p].owners ==> p == FsGroup
    ensures SameButFsGroup(o, Merge(o, FS_GROUP_PATCH, mgr)) && FsGroupSet(Merge(o, FS_GROUP_PATCH, mgr))
  {
    var m := MergeFields(o.fields, FS_GROUP_PATCH.fields, mgr);
    forall p | p != FsGroup ensures (p in m <==> p in o.fields) && (p in m ==> m[p] == o.fields[p]) {
      if p in o.fields {
        assert o.fields[p].owners - {mgr} == o.fields[p].owners;
      }
    }
    assert m - {FsGroup} == o.fields - {FsGroup};
  }

  /** In every state the invariant admits, no call of any worker creates, deletes or marks a
      StatefulSet, or changes anything on it but its fsGroup, which it can only set. */
  lemma StatefulSetFrame(fleet: Fleet, s: Sys, k: CrKey, key: Key)
    requires LawfulFleet(fleet) && Inv(fleet, s) && Claimed(s.w, FsGroupClaim) && key.gvk == StatefulSet
    ensures var v := After(fleet, s, Call(k)).w;
            && (key in v.objs <==> key in s.w.objs)
            && (key in v.objs ==>
                  SameButFsGroup(s.w.objs[key], v.objs[key]) &&
                    (v.objs[key] == s.w.objs[key] || FsGroupSet(v.objs[key])))
  {
    var ad, pc := fleet(k.kind), PcOf(s, k);
    var r := RequestOf(ad, k, pc, s.w.now);
    assert WorkerInv(fleet, s, k);
    if Accepted(s.w, r) {
      WritesStatefulSet(ad, k, pc, s.w.now, key);
      if Written(r) == Some(key) {
        PatchTouchesFsGroupOnly(s.w.objs[key], r.mgr);
      } else {
        ServeFramesObjects(s.w, r, key);
      }
    }
  }

  /** The only request of any worker that names a StatefulSet is the patch. */
  lemma WritesStatefulSet(ad: Adapter, k: CrKey, pc: Pc, now: nat, key: Key)
    requires Lawful(ad) && WalksList(ad, k, pc) && key.gvk == StatefulSet
    ensures var r := RequestOf(ad, k, pc, now);
            Written(r) == Some(key) ==> r == Apply(key, FS_GROUP_PATCH, Operator(k.kind))
  {
    match pc
    case AtExtra(_, _, e, rest) => WalkingConforms(ad, k, e, rest);
    case AtDeleteExtra(seen, e, rest) => HeadConforms(ad, k, seen.spec, [e] + rest);
    case _ =>
  }

  /** Foreign writes that leave the security context of an object alone. */
  predicate LeavesSecurityContext(w: World, v: World, key: Key) {
    key in w.objs && FsGroupSet(w.objs[key]) ==> key in v.objs && FsGroupSet(v.objs[key])
  }

  ghost predicate VendorsLeaveFsGroup(fleet: Fleet, s: Sys, events: seq<Event>, key: Key) {
    forall i | 0 <= i < |events| && events[i].Foreign? ::
      LeavesSecurityContext(Final(fleet, s, events[..i]).w, events[i].w, key)
  }

  /** Over every run in which vendors leave the security context alone, through failures,
      edits and deletions of custom resources: an fsGroup once set stays set. */
  lemma {:induction false} FsGroupStays(fleet: Fleet, s: Sys, events: seq<Event>, key: Key)
    requires LawfulFleet(fleet) && Inv(fleet, s) && Claimed(s.w, FsGroupClaim) && IsRun(fleet, s, events)
    requires VendorsLeaveFsGroup(fleet, s, events, key)
    requires key.gvk == StatefulSet && key in s.w.objs && FsGroupSet(s.w.objs[key])
    ensures var w := Final(fleet, s, events).w; key in w.objs && FsGroupSet(w.objs[key])
    ensures Claimed(Final(fleet, s, events).w, FsGroupClaim)
    decreases |events|
  {
    if events != [] {
      var before, last := events[..|events| - 1], events[|events| - 1];
      forall i | 0 <= i < |before| && before[i].Foreign?
        ensures LeavesSecurityContext(Final(fleet, s, before[..i]).w, before[i].w, key)
      {
        assert before[..i] == events[..i];
      }
      FsGroupStays(fleet, s, before, key);
      RunKeepsInv(fleet, s, before);
      forall kind ensures AdapterClaims(fleet(kind), kind, FsGroupClaim) {
        LawfulClaims(fleet(kind), kind);
      }
      ClaimsPreserved(fleet, Final(fleet, s, before), last, FsGroupClaim);
      if last.Call? {
        StatefulSetFrame(fleet, Final(fleet, s, before), last.k, key);
      }
    }
  }
}
