/** What every reachable state satisfies, for every lawful fleet of adapters. */
module Safety {
  import opened Kinds
  import opened Specs
  import opened Manifests
  import opened Naming
  import opened ServerSideApply
  import opened Status
  import opened Contract
  import opened Pods
  import opened Admission
  import opened Cluster
  import opened Engine
  import opened Interleaving

  // ---------------------------------------------------------------- frames of one request

  /** The object a request may write. */
  function Written(r: Request): Option<Key> {
    match r
    case Apply(key, _, _) => Some(key)
    case Delete(key) => Some(key)
    case _ => None
  }

  predicate SameObj(w: World, v: World, key: Key) {
    (key in v.objs <==> key in w.objs) && (key in w.objs ==> v.objs[key] == w.objs[key])
  }

  lemma ServeFramesObjects(w: World, r: Request, key: Key)
    requires Accepted(w, r) && Written(r) != Some(key)
    ensures SameObj(w, Serve(w, r), key)
  {
  }

  ghost predicate SameOtherCrs(w: World, v: World, k: CrKey) {
    && w.clock <= v.clock
    && (forall c :: c != k ==> (c in v.crs <==> c in w.crs))
    && (forall c :: c != k && c in w.crs ==> v.crs[c] == w.crs[c])
  }

  predicate WritesCr(r: Request) {
    r.Update? || r.UpdateStatus?
  }

  lemma ServeFramesCrs(w: World, r: Request, k: CrKey)
    requires Accepted(w, r) && (WritesCr(r) ==> r.k == k)
    ensures SameOtherCrs(w, Serve(w, r), k)
    ensures !WritesCr(r) ==> Serve(w, r).crs == w.crs && Serve(w, r).clock == w.clock
  {
  }

  /** A worker writes its own resource only. */
  lemma RequestOwnCr(ad: Adapter, k: CrKey, pc: Pc, now: nat)
    ensures WritesCr(RequestOf(ad, k, pc, now)) ==> RequestOf(ad, k, pc, now).k == k
    ensures WritesCr(RequestOf(ad, k, pc, now)) <==> pc.AtAddFinalizer? || pc.AtStatus? || pc.AtRemoveFinalizer?
  {
  }

  /** A worker writes only objects its resource manages. */
  lemma RequestManaged(ad: Adapter, k: CrKey, pc: Pc, now: nat)
    requires Lawful(ad) && WalksList(ad, k, pc)
    ensures var key := Written(RequestOf(ad, k, pc, now)); key.Some? ==> Manages(ad.ids, k, key.value)
  {
    match pc
    case AtExtra(_, _, e, rest) => WalkingConforms(ad, k, e, rest);
    case AtDeleteExtra(seen, e, rest) => HeadConforms(ad, k, seen.spec, [e] + rest);
    case _ =>
  }

  // ---------------------------------------------------------------- the worker invariant

  /** How the call a step leads to fits the call it was. */
  ghost predicate Follows(ad: Adapter, w: World, k: CrKey, pc: Pc, next: Pc) {
    && WalksList(ad, k, next) && !next.AtStart?
    && (pc.AtStart? ==> k in w.crs && Dispatch(k, w.crs[k]) == Goto(next))
    && (!pc.AtStart? ==> next.seen == pc.seen && (Applying(pc) || Deleting(pc)))
    && (Applying(pc) ==> Applying(next))
    && (Deleting(pc) ==> Deleting(next))
  }

  /** The worker goes on applying. */
  ghost predicate Stays(ad: Adapter, k: CrKey, pc: Pc, next: Next)
    requires Applying(pc)
  {
    next.Goto? && Applying(next.pc) && next.pc.seen == pc.seen && WalksList(ad, k, next.pc)
  }

  predicate AtListedExtra(pc: Pc) {
    pc.AtExtraGet? || pc.AtExtra? || pc.AtUnstickGet? || pc.AtUnstickList? || pc.AtUnstickDelete?
  }

  lemma LookingStays(ad: Adapter, w: World, k: CrKey, pc: Pc)
    requires WalksList(ad, k, pc) && (pc.AtExtraGet? || pc.AtExtra? || pc.AtUnstickGet?)
    ensures Stays(ad, k, pc, Continue(ad, w, k, pc))
  {
    EnterRestShape(ad, k, pc.seen, pc.target, pc.e, pc.rest);
  }

  lemma UnstickingStays(ad: Adapter, w: World, k: CrKey, pc: Pc)
    requires WalksList(ad, k, pc) && (pc.AtUnstickList? || pc.AtUnstickDelete?)
    ensures Stays(ad, k, pc, Continue(ad, w, k, pc))
  {
    var victims := if pc.AtUnstickList? then Victims(ListPods(w.pods, k.ns, pc.selector), pc.revision) else pc.others;
    EnterVictimsShape(ad, k, pc.seen, pc.target, pc.e, pc.rest, pc.revision, victims);
  }

  lemma EnterWholeList(ad: Adapter, k: CrKey, seen: CR, target: Obj, spec: Spec)
    ensures var pc := EnterExtras(seen, target, Extras(ad, k, spec));
            Applying(pc) && pc.seen == seen && WalksList(ad, k, pc)
  {
    var extras := Extras(ad, k, spec);
    assert extras[|extras| - |extras|..] == extras;
    EnterExtrasShape(ad, k, seen, target, spec, extras);
  }

  lemma ApplyTargetStays(ad: Adapter, w: World, k: CrKey, pc: Pc)
    requires pc.AtApplyTarget?
    ensures Stays(ad, k, pc, Continue(ad, w, k, pc))
  {
    var target := Applied(w, TargetKey(k), TargetManifest(ad, k, pc.seen, pc.className), Operator(k.kind));
    EnterWholeList(ad, k, pc.seen, target, LocalSpec(ad, pc.seen, pc.className));
  }

  lemma ApplyingStays(ad: Adapter, w: World, k: CrKey, pc: Pc)
    requires WalksList(ad, k, pc) && Applying(pc) && !pc.AtStatus?
    ensures Stays(ad, k, pc, Continue(ad, w, k, pc))
  {
    if pc.AtApplyTarget? {
      ApplyTargetStays(ad, w, k, pc);
    } else if pc.AtUnstickList? || pc.AtUnstickDelete? {
      UnstickingStays(ad, w, k, pc);
    } else if AtListedExtra(pc) {
      LookingStays(ad, w, k, pc);
    }
  }

  lemma DeletingStays(ad: Adapter, w: World, k: CrKey, pc: Pc)
    requires Lawful(ad) && WalksList(ad, k, pc) && Deleting(pc) && !pc.AtRemoveFinalizer?
    ensures var next := Continue(ad, w, k, pc);
            next.Goto? && Deleting(next.pc) && next.pc.seen == pc.seen && WalksList(ad, k, next.pc)
  {
    match pc
    case AtDeleteTarget(seen) => EnterDeleteShape(ad, k, seen, Extras(ad, k, seen.spec));
    case AtDeleteExtra(seen, e, rest) =>
      assert ([e] + rest)[1..] == rest;
      HeadConforms(ad, k, seen.spec, [e] + rest);
      EnterDeleteShape(ad, k, seen, rest);
    case _ =>
  }

  lemma ContinueFollows(ad: Adapter, w: World, k: CrKey, pc: Pc)
    requires Lawful(ad) && WalksList(ad, k, pc) && Continue(ad, w, k, pc).Goto?
    ensures Follows(ad, w, k, pc, Continue(ad, w, k, pc).pc)
  {
    if Applying(pc) {
      if !pc.AtStatus? {
        ApplyingStays(ad, w, k, pc);
      }
    } else if Deleting(pc) {
      if !pc.AtRemoveFinalizer? {
        DeletingStays(ad, w, k, pc);
      }
    }
  }

  /** The state after an accepted call that writes no custom resource and leads to next. */
  lemma OwnReadGoto(fleet: Fleet, s: Sys, v: World, k: CrKey, next: Pc)
    requires WorkerInv(fleet, s, k) && v.crs == s.w.crs && v.clock == s.w.clock
    requires Follows(fleet(k.kind), s.w, k, PcOf(s, k), next)
    ensures WorkerInv(fleet, Sys(v, s.pcs[k := next]), k)
  {
  }

  lemma OwnReturn(fleet: Fleet, s: Sys, v: World, k: CrKey)
    requires WorkerInv(fleet, s, k) && v.crs == s.w.crs && v.clock == s.w.clock
    ensures WorkerInv(fleet, Sys(v, s.pcs[k := AtStart]), k)
  {
  }

  lemma OwnReadStep(fleet: Fleet, s: Sys, k: CrKey)
    requires LawfulFleet(fleet) && WorkerInv(fleet, s, k)
    requires !WritesCr(RequestOf(fleet(k.kind), k, PcOf(s, k), s.w.now))
    ensures WorkerInv(fleet, After(fleet, s, Call(k)), k)
  {
    var ad, pc := fleet(k.kind), PcOf(s, k);
    var r := RequestOf(ad, k, pc, s.w.now);
    if Accepted(s.w, r) {
      ServeFramesCrs(s.w, r, k);
      if Continue(ad, s.w, k, pc).Goto? {
        ContinueFollows(ad, s.w, k, pc);
        OwnReadGoto(fleet, s, Serve(s.w, r), k, Continue(ad, s.w, k, pc).pc);
      } else {
        OwnReturn(fleet, s, Serve(s.w, r), k);
      }
    } else {
      OwnReturn(fleet, s, s.w, k);
    }
  }

  lemma OwnWriteStep(fleet: Fleet, s: Sys, k: CrKey)
    requires LawfulFleet(fleet) && WorkerInv(fleet, s, k)
    requires WritesCr(RequestOf(fleet(k.kind), k, PcOf(s, k), s.w.now))
    ensures WorkerInv(fleet, After(fleet, s, Call(k)), k)
  {
    var ad, pc := fleet(k.kind), PcOf(s, k);
    RequestOwnCr(ad, k, pc, s.w.now);
    if pc.AtStatus? && Current(s.w, k, pc.seen) {
      assert Mirrored(pc.seen.status, MirroredStatus(ad, k, pc.seen, pc.target, s.w.now), ad.extract(pc.target));
    }
  }

  lemma OwnWorkerStep(fleet: Fleet, s: Sys, k: CrKey)
    requires LawfulFleet(fleet) && WorkerInv(fleet, s, k)
    ensures WorkerInv(fleet, After(fleet, s, Call(k)), k)
  {
    if WritesCr(RequestOf(fleet(k.kind), k, PcOf(s, k), s.w.now)) {
      OwnWriteStep(fleet, s, k);
    } else {
      OwnReadStep(fleet, s, k);
    }
  }

  lemma OtherWorkerStep(fleet: Fleet, s: Sys, k: CrKey, other: CrKey)
    requires WorkerInv(fleet, s, other) && other != k
    ensures WorkerInv(fleet, After(fleet, s, Call(k)), other)
  {
    var ad, pc := fleet(k.kind), PcOf(s, k);
    var r := RequestOf(ad, k, pc, s.w.now);
    if Accepted(s.w, r) {
      RequestOwnCr(ad, k, pc, s.w.now);
      ServeFramesCrs(s.w, r, k);
    }
  }

  lemma ForeignStatusMirrors(a: CrStatus, b: CrStatus)
    requires Mirrors(a) && ForeignStatus(a, b)
    ensures Mirrors(b)
  {
    forall i | 0 <= i < |b.conditions| && b.conditions[i].ctype == READY ensures b.conditions[i].status == b.ready {
      assert b.conditions[i] in b.conditions;
      assert b.conditions[i] in a.conditions;
      assert b.ready == b.(conditions := []).ready == a.(conditions := []).ready == a.ready;
    }
  }

  lemma ForeignWorkerStep(fleet: Fleet, s: Sys, v: World, k: CrKey)
    requires WorkerInv(fleet, s, k) && ForeignStep(s.w, v)
    ensures WorkerInv(fleet, After(fleet, s, Foreign(v)), k)
  {
    if k in v.crs && k in s.w.crs && s.w.crs[k] != v.crs[k] {
      ForeignStatusMirrors(s.w.crs[k].status, v.crs[k].status);
    }
  }

  lemma WorkerInvPreserved(fleet: Fleet, s: Sys, e: Event, k: CrKey)
    requires LawfulFleet(fleet) && WorkerInv(fleet, s, k) && Enabled(s, e)
    ensures WorkerInv(fleet, After(fleet, s, e), k)
  {
    match e
    case Call(c) => if c == k { OwnWorkerStep(fleet, s, k); } else { OtherWorkerStep(fleet, s, c, k); }
    case Fault(_) =>
    case Foreign(v) => ForeignWorkerStep(fleet, s, v, k);
  }
}
