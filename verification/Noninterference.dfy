/** A pass of one resource interleaved with everybody who keeps off its keys leaves on the
    resource and its objects what the pass would have left alone. */
module Noninterference {
  import opened Kinds
  import opened Specs
  import opened Manifests
  import opened Naming
  import opened ServerSideApply
  import opened Status
  import opened Contract
  import opened IngressClasses
  import opened Pods
  import opened Cluster
  import opened Engine
  import opened Machines
  import opened Interleaving
  import opened Safety
  import opened Orphans
  import opened Convergence
  import opened Fixpoints

  // ---------------------------------------------------------------- k's part of the store

  /** The resource, its objects, the classes and the clock on the wall are untouched. */
  ghost predicate Undisturbed(plan: Plan, w: World, v: World) {
    && plan.k in w.crs && plan.k in v.crs && v.crs[plan.k] == w.crs[plan.k]
    && v.classes == w.classes && v.now == w.now
    && At(v, TargetKey(plan.k)) == At(w, TargetKey(plan.k))
    && forall j :: 0 <= j < |plan.extras| ==> At(v, KeyAt(plan, j)) == At(w, KeyAt(plan, j))
  }

  ghost predicate OwnRest(plan: Plan, w: World) {
    && plan.k in plan.start.crs && plan.k in w.crs && w.crs[plan.k] == plan.start.crs[plan.k]
    && w.classes == plan.start.classes && w.now == plan.start.now
  }

  /** Of k's objects, the first i extras are as planned, and the others as they were. */
  ghost predicate OwnExtras(plan: Plan, w: World, i: int) {
    && (forall j :: 0 <= j < i && j < |plan.extras| ==> At(w, KeyAt(plan, j)) == ExtraAfter(plan, plan.extras[j]))
    && (forall j :: 0 <= i <= j < |plan.extras| ==> At(w, KeyAt(plan, j)) == At(plan.start, KeyAt(plan, j)))
  }

  ghost predicate Before(plan: Plan, w: World) {
    OwnRest(plan, w) && At(w, TargetKey(plan.k)) == At(plan.start, TargetKey(plan.k)) && OwnExtras(plan, w, 0)
  }

  ghost predicate UpTo(plan: Plan, w: World, seen: CR, target: Obj, i: int) {
    && OwnRest(plan, w) && seen == plan.start.crs[plan.k] && target == TargetAfter(plan)
    && At(w, TargetKey(plan.k)) == Some(target) && 0 <= i <= |plan.extras| && OwnExtras(plan, w, i)
  }

  ghost predicate AtOwn(plan: Plan, w: World, seen: CR, target: Obj, e: Extra, rest: seq<Extra>, done: nat) {
    var i := |plan.extras| - |rest| - 1;
    0 <= i && plan.extras[i] == e && plan.extras[i + 1..] == rest && UpTo(plan, w, seen, target, i + done)
  }

  ghost predicate AtPatched(plan: Plan, w: World, seen: CR, target: Obj, e: Extra, rest: seq<Extra>) {
    AtOwn(plan, w, seen, target, e, rest, 1) && e.patchOnly
  }

  /** What holds of k's part at each call of its pass, whatever becomes of the rest. */
  ghost predicate OnOwnPlan(ad: Adapter, plan: Plan, w: World, pc: Pc) {
    match pc
    case AtStart => Before(plan, w)
    case AtGetTarget(seen) => Before(plan, w) && seen == plan.start.crs[plan.k]
    case AtListClasses(seen) => Before(plan, w) && seen == plan.start.crs[plan.k] && NeedsClass(ad, seen.spec)
    case AtApplyTarget(seen, cls) =>
      Before(plan, w) && seen == plan.start.crs[plan.k] && cls == ClassFor(ad, plan.start, seen.spec)
    case AtExtraGet(seen, target, e, rest) =>
      AtOwn(plan, w, seen, target, e, rest, 0) && e.desired.Some? && e.patchOnly
    case AtExtra(seen, target, e, rest) =>
      AtOwn(plan, w, seen, target, e, rest, 0) && (e.patchOnly ==> ExtraKey(plan.k, e) in w.objs)
    case AtUnstickGet(seen, target, e, rest) => AtPatched(plan, w, seen, target, e, rest)
    case AtUnstickList(seen, target, e, rest, _, _) => AtPatched(plan, w, seen, target, e, rest)
    case AtUnstickDelete(seen, target, e, rest, _, _, _) => AtPatched(plan, w, seen, target, e, rest)
    case AtStatus(seen, target) => UpTo(plan, w, seen, target, |plan.extras|)
    case _ => false
  }

  lemma UndisturbedKeeps(ad: Adapter, plan: Plan, w: World, v: World, pc: Pc)
    requires OnOwnPlan(ad, plan, w, pc) && Undisturbed(plan, w, v)
    ensures OnOwnPlan(ad, plan, v, pc)
  {
    if pc.AtExtra? {
      assert KeyAt(plan, |plan.extras| - |pc.rest| - 1) == ExtraKey(plan.k, pc.e);
      assert At(v, ExtraKey(plan.k, pc.e)) == At(w, ExtraKey(plan.k, pc.e));
    }
  }

  // ---------------------------------------------------------------- k's own calls

  /** A call of k's worker is accepted and leads on along the plan. */
  ghost predicate OwnKeeps(ad: Adapter, plan: Plan, w: World, pc: Pc) {
    var r := RequestOf(ad, plan.k, pc, w.now);
    Accepted(w, r) &&
    var next := Continue(ad, w, plan.k, pc);
    next.Goto? && OnOwnPlan(ad, plan, Serve(w, r), next.pc)
  }

  lemma EnterOwn(ad: Adapter, plan: Plan, w: World, seen: CR, target: Obj, i: int)
    requires Distinct(plan) && UpTo(plan, w, seen, target, i)
    ensures OnOwnPlan(ad, plan, w, EnterExtras(seen, target, plan.extras[i..]))
  {
    if i < |plan.extras| {
      assert plan.extras[i..][0] == plan.extras[i] && plan.extras[i..][1..] == plan.extras[i + 1..];
    }
  }

  lemma OwnTarget(ad: Adapter, plan: Plan, w: World, pc: Pc)
    requires PlanFor(ad, plan) && pc.AtApplyTarget? && OnOwnPlan(ad, plan, w, pc)
    ensures OwnKeeps(ad, plan, w, pc)
  {
    var v := Serve(w, RequestOf(ad, plan.k, pc, w.now));
    assert plan.extras[0..] == plan.extras;
    EnterOwn(ad, plan, v, pc.seen, TargetAfter(plan), 0);
  }

  /** There is nothing to patch: the entry is done. */
  lemma OwnSkipped(plan: Plan, w: World, seen: CR, target: Obj, e: Extra, rest: seq<Extra>)
    requires Distinct(plan) && AtOwn(plan, w, seen, target, e, rest, 0) && e.desired.Some? && e.patchOnly
    requires ExtraKey(plan.k, e) !in w.objs
    ensures UpTo(plan, w, seen, target, |plan.extras| - |rest|)
  {
    var i := |plan.extras| - |rest| - 1;
    assert KeyAt(plan, i) == ExtraKey(plan.k, e);
    assert At(w, KeyAt(plan, i)) == At(plan.start, KeyAt(plan, i)) == None;
  }

  lemma OwnLook(ad: Adapter, plan: Plan, w: World, pc: Pc)
    requires Distinct(plan) && pc.AtExtraGet? && OnOwnPlan(ad, plan, w, pc)
    ensures OwnKeeps(ad, plan, w, pc)
  {
    if ExtraKey(plan.k, pc.e) !in w.objs {
      OwnSkipped(plan, w, pc.seen, pc.target, pc.e, pc.rest);
      EnterOwn(ad, plan, w, pc.seen, pc.target, |plan.extras| - |pc.rest|);
    }
  }

  lemma OwnServed(ad: Adapter, plan: Plan, w: World, pc: Pc)
    requires Distinct(plan) && pc.AtExtra? && OnOwnPlan(ad, plan, w, pc)
    ensures Accepted(w, RequestOf(ad, plan.k, pc, w.now))
    ensures var v := Serve(w, RequestOf(ad, plan.k, pc, w.now));
            UpTo(plan, v, pc.seen, pc.target, |plan.extras| - |pc.rest|)
  {
    var i := |plan.extras| - |pc.rest| - 1;
    var v := Serve(w, RequestOf(ad, plan.k, pc, w.now));
    assert KeyAt(plan, i) == ExtraKey(plan.k, pc.e);
    forall key | key != KeyAt(plan, i) ensures At(v, key) == At(w, key) {
    }
    assert At(v, KeyAt(plan, i)) == ExtraAfter(plan, pc.e);
  }

  lemma OwnEntry(ad: Adapter, plan: Plan, w: World, pc: Pc)
    requires Distinct(plan) && pc.AtExtra? && OnOwnPlan(ad, plan, w, pc)
    ensures OwnKeeps(ad, plan, w, pc)
  {
    OwnServed(ad, plan, w, pc);
    var v := Serve(w, RequestOf(ad, plan.k, pc, w.now));
    EnterOwn(ad, plan, v, pc.seen, pc.target, |plan.extras| - |pc.rest|);
  }

  lemma EnterOwnVictims(
    ad: Adapter, plan: Plan, w: World, seen: CR, target: Obj, e: Extra, rest: seq<Extra>,
    revision: string, victims: seq<string>)
    requires Distinct(plan) && AtPatched(plan, w, seen, target, e, rest)
    ensures OnOwnPlan(ad, plan, w, EnterVictims(seen, target, e, rest, revision, victims))
  {
    EnterOwn(ad, plan, w, seen, target, |plan.extras| - |rest|);
  }

  lemma PodsAside(plan: Plan, w: World, v: World, seen: CR, target: Obj, e: Extra, rest: seq<Extra>)
    requires AtPatched(plan, w, seen, target, e, rest) && v == w.(pods := v.pods)
    ensures AtPatched(plan, v, seen, target, e, rest)
  {
  }

  lemma OwnRolloutLook(ad: Adapter, plan: Plan, w: World, pc: Pc)
    requires Distinct(plan) && OnOwnPlan(ad, plan, w, pc) && pc.AtUnstickGet?
    ensures OwnKeeps(ad, plan, w, pc)
  {
    EnterOwn(ad, plan, w, pc.seen, pc.target, |plan.extras| - |pc.rest|);
  }

  lemma OwnKeepsBy(ad: Adapter, plan: Plan, w: World, pc: Pc, v: World, next: Pc)
    requires Does(ad, w, plan.k, pc, v, next) && OnOwnPlan(ad, plan, v, next)
    ensures OwnKeeps(ad, plan, w, pc)
  {
  }

  lemma OwnUnstick(ad: Adapter, plan: Plan, w: World, pc: Pc)
    requires Distinct(plan) && OnOwnPlan(ad, plan, w, pc) && (pc.AtUnstickList? || pc.AtUnstickDelete?)
    ensures OwnKeeps(ad, plan, w, pc)
  {
    var v := if pc.AtUnstickDelete? then w.(pods := PodDeleted(w.pods, plan.k.ns, pc.victim)) else w;
    var victims := if pc.AtUnstickDelete? then pc.others
                   else Victims(ListPods(w.pods, plan.k.ns, pc.selector), pc.revision);
    PodsAside(plan, w, v, pc.seen, pc.target, pc.e, pc.rest);
    EnterOwnVictims(ad, plan, v, pc.seen, pc.target, pc.e, pc.rest, pc.revision, victims);
    UnstickCalls(ad, w, plan.k, pc);
    OwnKeepsBy(ad, plan, w, pc, v, EnterVictims(pc.seen, pc.target, pc.e, pc.rest, pc.revision, victims));
  }

  lemma OwnCallKeeps(ad: Adapter, plan: Plan, w: World, pc: Pc)
    requires PlanFor(ad, plan) && Active(plan.start, plan.k) && OnOwnPlan(ad, plan, w, pc) && !pc.AtStatus?
    ensures OwnKeeps(ad, plan, w, pc)
  {
    match pc
    case AtApplyTarget(_, _) => OwnTarget(ad, plan, w, pc);
    case AtExtraGet(_, _, _, _) => OwnLook(ad, plan, w, pc);
    case AtExtra(_, _, _, _) => OwnEntry(ad, plan, w, pc);
    case AtUnstickGet(_, _, _, _) => OwnRolloutLook(ad, plan, w, pc);
    case AtUnstickList(_, _, _, _, _, _) => OwnUnstick(ad, plan, w, pc);
    case AtUnstickDelete(_, _, _, _, _, _, _) => OwnUnstick(ad, plan, w, pc);
    case _ =>
  }

  /** What k's part is after the pass. */
  ghost predicate OwnDone(ad: Adapter, plan: Plan, v: World)
    requires plan.k in plan.start.crs
  {
    && plan.k in v.crs
    && v.crs[plan.k] == plan.start.crs[plan.k].(status := StatusAfter(ad, plan), rv := v.crs[plan.k].rv)
    && At(v, TargetKey(plan.k)) == Some(TargetAfter(plan))
    && forall j :: 0 <= j < |plan.extras| ==> At(v, KeyAt(plan, j)) == ExtraAfter(plan, plan.extras[j])
  }

  lemma OwnStatus(ad: Adapter, plan: Plan, w: World, pc: Pc)
    requires pc.AtStatus? && OnOwnPlan(ad, plan, w, pc)
    ensures var s := Step(ad, w, plan.k, pc); s.next == Return(true) && OwnDone(ad, plan, s.w)
  {
  }

  // ---------------------------------------------------------------- everybody else

  /** The event is a call of k's worker, or keeps off k's part: any other worker that manages
      none of k's keys, calling or failing, and any foreign step that leaves k's part alone. */
  ghost predicate Gentle(fleet: Fleet, plan: Plan, t: Sys, e: Event) {
    match e
    case Call(c) => c == plan.k || KeysApart(fleet, plan.k, c)
    case Fault(c) => c != plan.k
    case Foreign(v) => Undisturbed(plan, t.w, v)
  }

  ghost predicate KeysApart(fleet: Fleet, k: CrKey, c: CrKey) {
    c != k && forall key :: !(Manages(fleet(k.kind).ids, k, key) && Manages(fleet(c.kind).ids, c, key))
  }

  lemma PlanKeysManaged(ad: Adapter, plan: Plan, j: int)
    requires Lawful(ad) && PlanFor(ad, plan) && 0 <= j < |plan.extras|
    ensures Manages(ad.ids, plan.k, KeyAt(plan, j))
  {
    var w, k := plan.start, plan.k;
    ExtraIsId(ad, k, LocalSpec(ad, w.crs[k], ClassFor(ad, w, w.crs[k].spec)), j);
  }

  lemma OtherCallUndisturbed(fleet: Fleet, plan: Plan, t: Sys, c: CrKey)
    requires LawfulFleet(fleet) && PlanFor(fleet(plan.k.kind), plan) && WorkerInv(fleet, t, c)
    requires KeysApart(fleet, plan.k, c) && plan.k in t.w.crs
    ensures Undisturbed(plan, t.w, After(fleet, t, Call(c)).w)
  {
    var ad, pc := fleet(c.kind), PcOf(t, c);
    var r := RequestOf(ad, c, pc, t.w.now);
    if Accepted(t.w, r) {
      RequestOwnCr(ad, c, pc, t.w.now);
      ServeFramesCrs(t.w, r, c);
      RequestManaged(ad, c, pc, t.w.now);
      var v := Serve(t.w, r);
      forall key | Manages(fleet(plan.k.kind).ids, plan.k, key) ensures At(v, key) == At(t.w, key) {
        ServeFramesObjects(t.w, r, key);
      }
      forall j | 0 <= j < |plan.extras| ensures At(v, KeyAt(plan, j)) == At(t.w, KeyAt(plan, j)) {
        PlanKeysManaged(fleet(plan.k.kind), plan, j);
      }
    }
  }

  lemma GentleStep(fleet: Fleet, plan: Plan, t: Sys, e: Event)
    requires LawfulFleet(fleet) && PlanFor(fleet(plan.k.kind), plan) && Active(plan.start, plan.k)
    requires Inv(fleet, t) && OnOwnPlan(fleet(plan.k.kind), plan, t.w, PcOf(t, plan.k)) && Gentle(fleet, plan, t, e)
    requires !(e == Call(plan.k) && PcOf(t, plan.k).AtStatus?)
    ensures OnOwnPlan(fleet(plan.k.kind), plan, After(fleet, t, e).w, PcOf(After(fleet, t, e), plan.k))
  {
    var ad, k, pc := fleet(plan.k.kind), plan.k, PcOf(t, plan.k);
    if e == Call(k) {
      OwnCallKeeps(ad, plan, t.w, pc);
    } else {
      if e.Call? {
        assert WorkerInv(fleet, t, e.k);
        OtherCallUndisturbed(fleet, plan, t, e.k);
      }
      UndisturbedKeeps(ad, plan, t.w, After(fleet, t, e).w, pc);
    }
  }

  // ---------------------------------------------------------------- over runs

  /** A run that is one pass of k up to its status write, among gentle events. */
  ghost predicate OnePass(fleet: Fleet, s: Sys, events: seq<Event>, plan: Plan) {
    forall i :: 0 <= i < |events| ==> GentleAt(fleet, s, events, plan, i)
  }

  ghost predicate GentleAt(fleet: Fleet, s: Sys, events: seq<Event>, plan: Plan, i: int)
    requires 0 <= i < |events|
  {
    var t := Final(fleet, s, events[..i]);
    Gentle(fleet, plan, t, events[i]) && !(events[i] == Call(plan.k) && PcOf(t, plan.k).AtStatus?)
  }

  lemma {:induction false} PassKeepsPlan(fleet: Fleet, s: Sys, events: seq<Event>, plan: Plan)
    requires LawfulFleet(fleet) && Inv(fleet, s) && IsRun(fleet, s, events) && OnePass(fleet, s, events, plan)
    requires PlanFor(fleet(plan.k.kind), plan) && plan.start == s.w && Active(s.w, plan.k) && PcOf(s, plan.k).AtStart?
    ensures OnOwnPlan(fleet(plan.k.kind), plan, Final(fleet, s, events).w, PcOf(Final(fleet, s, events), plan.k))
    decreases |events|
  {
    if events != [] {
      var n := |events| - 1;
      var before := events[..n];
      forall i | 0 <= i < n ensures GentleAt(fleet, s, before, plan, i) {
        assert before[..i] == events[..i];
        assert GentleAt(fleet, s, events, plan, i);
      }
      PassKeepsPlan(fleet, s, before, plan);
      RunKeepsInv(fleet, s, before);
      assert GentleAt(fleet, s, events, plan, n);
      GentleStep(fleet, plan, Final(fleet, s, before), events[n]);
    }
  }

  lemma SameAsPlanned(ad: Adapter, plan: Plan, v: World, alone: World, key: Key)
    requires Lawful(ad) && PlanFor(ad, plan) && OwnDone(ad, plan, v) && Completed(ad, plan, alone)
    requires Manages(ad.ids, plan.k, key)
    ensures At(v, key) == At(alone, key)
  {
    if key != TargetKey(plan.k) {
      var w, k := plan.start, plan.k;
      var spec := LocalSpec(ad, w.crs[k], ClassFor(ad, w, w.crs[k].spec));
      var id :| id in ad.ids && key == IdKey(k, id);
      var j :| 0 <= j < |ad.ids| && ad.ids[j] == id;
      ExtrasLength(ad, k, spec);
      ExtraIsId(ad, k, spec, j);
      assert key == KeyAt(plan, j);
    }
  }

  /** The theorem: let the worker of k make one pass, call by call, among any events that keep
      off k's part of the store. Its status write is accepted, the pass returns without an
      error, and the resource, up to its version, and all its objects are what the same pass,
      undisturbed on the store it began at, leaves. */
  lemma InterleavedAsAlone(fleet: Fleet, s: Sys, events: seq<Event>, k: CrKey)
    requires LawfulFleet(fleet) && Inv(fleet, s) && IsRun(fleet, s, events)
    requires Active(s.w, k) && PcOf(s, k).AtStart? && OnePass(fleet, s, events, PlanOf(fleet(k.kind), s.w, k))
    requires PcOf(Final(fleet, s, events), k).AtStatus?
    ensures var ad, t := fleet(k.kind), Final(fleet, s, events);
            var alone, last := Exec(ad, s.w, k, AtStart, PassCalls(ad, |s.w.pods|)), Step(ad, t.w, k, PcOf(t, k));
            && alone.1 && last.next == Return(true) && k in last.w.crs && k in alone.0.crs
            && last.w.crs[k] == alone.0.crs[k].(rv := last.w.crs[k].rv)
            && forall key :: Manages(ad.ids, k, key) ==> At(last.w, key) == At(alone.0, key)
  {
    var ad, t := fleet(k.kind), Final(fleet, s, events);
    var plan := PlanOf(ad, s.w, k);
    PlanDistinct(ad, s.w, k);
    PassKeepsPlan(fleet, s, events, plan);
    OwnStatus(ad, plan, t.w, PcOf(t, k));
    CleanPassSucceeds(ad, s.w, k, PassCalls(ad, |s.w.pods|));
    PassOutcome(ad, s.w, k, PassCalls(ad, |s.w.pods|));
    var v, alone := Step(ad, t.w, k, PcOf(t, k)).w, Exec(ad, s.w, k, AtStart, PassCalls(ad, |s.w.pods|)).0;
    forall key | Manages(ad.ids, k, key) ensures At(v, key) == At(alone, key) {
      SameAsPlanned(ad, plan, v, alone, key);
    }
  }
}
