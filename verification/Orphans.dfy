/** No orphans: in every reachable state, every live object this operator has written, other
    than the StatefulSets it only patches, is covered by a stored custom resource that still
    carries the finalizer, lists the object's key, and has not yet passed it in deletion. */
module Orphans {
  import opened Kinds
  import opened Specs
  import opened Manifests
  import opened Naming
  import opened ServerSideApply
  import opened Status
  import opened Contract
  import opened Pods
  import opened Admission
  import opened Cluster
  import opened Engine
  import opened Interleaving
  import opened Safety

  /** A cover survives an event that leaves its resource stored with the finalizer, and its
      worker not past the key. */
  lemma CoverKept(fleet: Fleet, s: Sys, t: Sys, c: CrKey, key: Key)
    requires Covers(fleet, s, c, key)
    requires c in t.w.crs && FINALIZER in t.w.crs[c].finalizers
    requires !Past(fleet(c.kind).ids, c, PcOf(t, c), key)
    ensures Covers(fleet, t, c, key)
  {
  }

  lemma OursBefore(w: World, r: Request, key: Key)
    requires Accepted(w, r) && Ours(Serve(w, r), key)
    ensures Ours(w, key) || (r.Apply? && r.key == key)
    ensures !(r.Delete? && r.key == key)
  {
  }

  /** What a deleting worker is past grows by the key it has just deleted, StatefulSets
      aside. */
  lemma PastGrows(ad: Adapter, w: World, k: CrKey, pc: Pc, now: nat, key: Key)
    requires Lawful(ad) && WalksList(ad, k, pc) && Continue(ad, w, k, pc).Goto?
    requires key.gvk != StatefulSet && Past(ad.ids, k, Continue(ad, w, k, pc).pc, key)
    requires !pc.AtStart?
    ensures Past(ad.ids, k, pc, key) || RequestOf(ad, k, pc, now) == Delete(key)
  {
    if Deleting(pc) {
      match pc
      case AtDeleteTarget(seen) =>
        ExtrasLength(ad, k, seen.spec);
        EnterDeletePast(ad, k, seen, Extras(ad, k, seen.spec), key);
        assert Among(ad.ids, k, 0, key);
      case AtDeleteExtra(seen, e, rest) =>
        var todo := [e] + rest;
        assert todo[1..] == rest;
        HeadConforms(ad, k, seen.spec, todo);
        EnterDeletePast(ad, k, seen, rest, key);
        var i := |ad.ids| - |rest|;
        assert Among(ad.ids, k, i, key);
        if key != TargetKey(k) {
          var j :| 0 <= j < i && j < |ad.ids| && key == IdKey(k, ad.ids[j]);
          if j < i - 1 {
            assert Among(ad.ids, k, i - 1, key);
          }
        }
      case _ =>
    } else if Applying(pc) && !pc.AtStatus? {
      ApplyingStays(ad, w, k, pc);
    }
  }

  lemma ExtrasLength(ad: Adapter, k: CrKey, spec: Spec)
    requires Lawful(ad)
    ensures |Extras(ad, k, spec)| == |ad.ids|
  {
    assert LawfulExtras(ad.extras(spec, TargetName(k.name), k.ns, k.name), ad.ids, TargetName(k.name));
  }

  /** The worker's own resource stays a cover of everything it is not yet past. */
  lemma OwnCoverKept(fleet: Fleet, s: Sys, k: CrKey, key: Key)
    requires LawfulFleet(fleet) && WorkerInv(fleet, s, k)
    requires Covers(fleet, s, k, key) && Ours(After(fleet, s, Call(k)).w, key)
    ensures Covers(fleet, After(fleet, s, Call(k)), k, key)
  {
    var ad, pc := fleet(k.kind), PcOf(s, k);
    var r := RequestOf(ad, k, pc, s.w.now);
    var t := After(fleet, s, Call(k));
    if Accepted(s.w, r) {
      OursBefore(s.w, r, key);
      RequestOwnCr(ad, k, pc, s.w.now);
      ServeFramesCrs(s.w, r, k);
      if Continue(ad, s.w, k, pc).Goto? && !pc.AtStart? && Past(ad.ids, k, PcOf(t, k), key) {
        PastGrows(ad, s.w, k, pc, s.w.now, key);
      }
    }
  }

  lemma OtherCoverKept(fleet: Fleet, s: Sys, k: CrKey, c: CrKey, key: Key)
    requires c != k && Covers(fleet, s, c, key)
    ensures Covers(fleet, After(fleet, s, Call(k)), c, key)
  {
    var ad, pc := fleet(k.kind), PcOf(s, k);
    var r := RequestOf(ad, k, pc, s.w.now);
    if Accepted(s.w, r) {
      RequestOwnCr(ad, k, pc, s.w.now);
      ServeFramesCrs(s.w, r, k);
    }
  }

  lemma AppliedIsOwned(ad: Adapter, k: CrKey, pc: Pc, now: nat)
    requires Lawful(ad) && WalksList(ad, k, pc) && RequestOf(ad, k, pc, now).Apply?
    ensures pc.AtApplyTarget? || pc.AtExtra?
    ensures var key := RequestOf(ad, k, pc, now).key; key.gvk != StatefulSet ==> Owns(ad.ids, k, key)
  {
    if pc.AtExtra? {
      WalkingConforms(ad, k, pc.e, pc.rest);
    }
  }

  /** An object that is applied is covered by the resource it is applied for. */
  lemma AppliedIsCovered(fleet: Fleet, s: Sys, k: CrKey, key: Key)
    requires LawfulFleet(fleet) && WorkerInv(fleet, s, k)
    requires var r := RequestOf(fleet(k.kind), k, PcOf(s, k), s.w.now); r.Apply? && r.key == key && Accepted(s.w, r)
    requires key.gvk != StatefulSet
    ensures Covers(fleet, After(fleet, s, Call(k)), k, key)
  {
    var ad, pc := fleet(k.kind), PcOf(s, k);
    AppliedIsOwned(ad, k, pc, s.w.now);
    ApplyingStays(ad, s.w, k, pc);
    ServeFramesCrs(s.w, RequestOf(ad, k, pc, s.w.now), k);
  }

  lemma CallKeepsCovered(fleet: Fleet, s: Sys, k: CrKey, key: Key)
    requires LawfulFleet(fleet) && WorkerInv(fleet, s, k) && NoOrphans(fleet, s)
    requires Ours(After(fleet, s, Call(k)).w, key)
    ensures exists c :: Covers(fleet, After(fleet, s, Call(k)), c, key)
  {
    var r := RequestOf(fleet(k.kind), k, PcOf(s, k), s.w.now);
    if Accepted(s.w, r) {
      OursBefore(s.w, r, key);
    }
    if Accepted(s.w, r) && r.Apply? && r.key == key {
      AppliedIsCovered(fleet, s, k, key);
    } else {
      var c :| Covers(fleet, s, c, key);
      if c == k {
        OwnCoverKept(fleet, s, k, key);
      } else {
        OtherCoverKept(fleet, s, k, c, key);
      }
    }
  }

  lemma FaultKeepsCovered(fleet: Fleet, s: Sys, k: CrKey, key: Key)
    requires NoOrphans(fleet, s) && Ours(s.w, key)
    ensures exists c :: Covers(fleet, After(fleet, s, Fault(k)), c, key)
  {
    var c :| Covers(fleet, s, c, key);
    CoverKept(fleet, s, After(fleet, s, Fault(k)), c, key);
  }

  lemma ForeignKeepsCovered(fleet: Fleet, s: Sys, v: World, key: Key)
    requires NoOrphans(fleet, s) && ForeignStep(s.w, v) && Ours(v, key)
    ensures exists c :: Covers(fleet, After(fleet, s, Foreign(v)), c, key)
  {
    assert Ours(s.w, key);
    var c :| Covers(fleet, s, c, key);
    CoverKept(fleet, s, After(fleet, s, Foreign(v)), c, key);
  }

  lemma NoOrphansPreserved(fleet: Fleet, s: Sys, e: Event)
    requires LawfulFleet(fleet) && Inv(fleet, s) && Enabled(s, e)
    ensures NoOrphans(fleet, After(fleet, s, e))
  {
    forall key | Ours(After(fleet, s, e).w, key) ensures exists c :: Covers(fleet, After(fleet, s, e), c, key) {
      match e
      case Call(k) => CallKeepsCovered(fleet, s, k, key);
      case Fault(k) => FaultKeepsCovered(fleet, s, k, key);
      case Foreign(v) => ForeignKeepsCovered(fleet, s, v, key);
    }
  }

  // ---------------------------------------------------------------- the other conjuncts

  lemma SingletonsPreserved(fleet: Fleet, s: Sys, e: Event)
    requires Inv(fleet, s) && Enabled(s, e)
    ensures AtMostOnePerNamespace(After(fleet, s, e).w.crs.Keys)
  {
    var t := After(fleet, s, e);
    match e
    case Call(k) =>
      var r := RequestOf(fleet(k.kind), k, PcOf(s, k), s.w.now);
      if Accepted(s.w, r) {
        RequestOwnCr(fleet(k.kind), k, PcOf(s, k), s.w.now);
        KeysShrink(s.w, r);
      }
    case Fault(_) =>
    case Foreign(v) =>
      forall a, b | a in v.crs && b in v.crs && Singleton(a.kind) && a.kind == b.kind && a.ns == b.ns ensures a == b {
        if a !in s.w.crs && b in s.w.crs {
          AdmittedAlone(s.w, v, a, b);
        } else if b !in s.w.crs && a in s.w.crs {
          AdmittedAlone(s.w, v, b, a);
        }
      }
  }

  lemma KeysShrink(w: World, r: Request)
    requires Accepted(w, r)
    ensures Serve(w, r).crs.Keys <= w.crs.Keys
  {
  }

  lemma AdmittedAlone(w: World, v: World, a: CrKey, b: CrKey)
    requires ForeignCrs(w, v) && a in v.crs && b in v.crs && b in w.crs && a !in w.crs
    requires Singleton(a.kind) && a.kind == b.kind && a.ns == b.ns
    ensures a == b
  {
    assert b.name in Siblings(w.crs.Keys, a.kind, a.ns);
  }

  lemma UniquePodsPreserved(fleet: Fleet, s: Sys, e: Event)
    requires UniqueNames(s.w.pods) && Enabled(s, e)
    ensures UniqueNames(After(fleet, s, e).w.pods)
  {
  }

  // ---------------------------------------------------------------- over runs

  lemma InitialInv(fleet: Fleet, s: Sys)
    requires Initial(s)
    ensures Inv(fleet, s)
  {
  }

  lemma InvPreserved(fleet: Fleet, s: Sys, e: Event)
    requires LawfulFleet(fleet) && Inv(fleet, s) && Enabled(s, e)
    ensures Inv(fleet, After(fleet, s, e))
  {
    forall k ensures WorkerInv(fleet, After(fleet, s, e), k) {
      WorkerInvPreserved(fleet, s, e, k);
    }
    NoOrphansPreserved(fleet, s, e);
    SingletonsPreserved(fleet, s, e);
    UniquePodsPreserved(fleet, s, e);
  }

  lemma {:induction false} RunKeepsInv(fleet: Fleet, s: Sys, events: seq<Event>)
    requires LawfulFleet(fleet) && Inv(fleet, s) && IsRun(fleet, s, events)
    ensures Inv(fleet, Final(fleet, s, events))
    decreases |events|
  {
    if events != [] {
      RunKeepsInv(fleet, s, events[..|events| - 1]);
      InvPreserved(fleet, Final(fleet, s, events[..|events| - 1]), events[|events| - 1]);
    }
  }

  /** The theorem, over every run of any number of resources of all kinds: nothing this
      operator created or took over is ever left without a resource that will delete it. */
  lemma NoOrphansEver(fleet: Fleet, s: Sys, events: seq<Event>, key: Key)
    requires LawfulFleet(fleet) && Initial(s) && IsRun(fleet, s, events)
    requires var w := Final(fleet, s, events).w; Live(w, key) && w.objs[key].touched && key.gvk != StatefulSet
    ensures var w := Final(fleet, s, events).w;
            exists k :: k in w.crs && FINALIZER in w.crs[k].finalizers && Owns(fleet(k.kind).ids, k, key)
  {
    InitialInv(fleet, s);
    RunKeepsInv(fleet, s, events);
    var t := Final(fleet, s, events);
    assert Ours(t.w, key);
    var k :| Covers(fleet, t, k, key);
  }
}
