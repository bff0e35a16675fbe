/** Deletion completes: once a resource is marked for deletion, its worker releases it after
    a bounded number of its own calls, whatever everybody else does in between; every
    failure and every refused write costs at most one more pass. */
module Deletion {
  import opened Kinds
  import opened Specs
  import opened Manifests
  import opened Naming
  import opened ServerSideApply
  import opened Status
  import opened Contract
  import opened Pods
  import opened Cluster
  import opened Engine
  import opened Interleaving
  import opened Safety
  import opened Orphans

  function Times(n: nat, c: nat): nat {
    if n == 0 then 0 else c + Times(n - 1, c)
  }

  /** The calls of one clean deletion pass, from its first read. */
  function Pass(ad: Adapter): nat {
    |ad.ids| + 4
  }

  /** The calls one auxiliary object may take while applying, when at most `most` pods are
      listed: look, patch, look at the rollout, list, and delete pods. */
  function PerExtra(most: nat): nat {
    4 + most
  }

  function ExtrasCost(ad: Adapter, rest: nat, most: nat): nat {
    Times(rest, PerExtra(most)) + 1 + Pass(ad)
  }

  /** An upper bound on the calls a worker makes until it has released a resource that is
      marked for deletion, if no call fails. A worker still applying finishes that first. */
  function Cost(ad: Adapter, pc: Pc, most: nat): nat {
    match pc
    case AtStart => Pass(ad)
    case AtAddFinalizer(_) => 1 + Pass(ad)
    case AtGetTarget(_) => 3 + ExtrasCost(ad, |ad.ids|, most)
    case AtListClasses(_) => 2 + ExtrasCost(ad, |ad.ids|, most)
    case AtApplyTarget(_, _) => 1 + ExtrasCost(ad, |ad.ids|, most)
    case AtExtraGet(_, _, _, rest) => 4 + most + ExtrasCost(ad, |rest|, most)
    case AtExtra(_, _, _, rest) => 3 + most + ExtrasCost(ad, |rest|, most)
    case AtUnstickGet(_, _, _, rest) => 2 + most + ExtrasCost(ad, |rest|, most)
    case AtUnstickList(_, _, _, rest, _, _) => 1 + most + ExtrasCost(ad, |rest|, most)
    case AtUnstickDelete(_, _, _, rest, _, _, others) => 1 + |others| + ExtrasCost(ad, |rest|, most)
    case AtStatus(_, _) => 1 + Pass(ad)
    case AtDeleteTarget(_) => 3 + |ad.ids|
    case AtDeleteExtra(_, _, rest) => 3 + |rest|
    case AtDeletePvcs(_) => 2
    case AtRemoveFinalizer(_) => 1
  }

  /** Marked for deletion and not yet released. */
  predicate Pending(s: Sys, k: CrKey) {
    k in s.w.crs && s.w.crs[k].deleting && FINALIZER in s.w.crs[k].finalizers
  }

  /** The finalizer is off, and with it, unless others hold one too, the resource gone. */
  predicate Released(s: Sys, k: CrKey) {
    k !in s.w.crs || FINALIZER !in s.w.crs[k].finalizers
  }

  // ---------------------------------------------------------------- one call

  lemma {:induction false} EnterDeleteCost(ad: Adapter, k: CrKey, seen: CR, todo: seq<Extra>, most: nat)
    ensures Cost(ad, EnterDelete(ad, k, seen, todo), most) <= |todo| + 2
  {
    if todo != [] && todo[0].patchOnly {
      EnterDeleteCost(ad, k, seen, todo[1..], most);
    }
  }

  lemma EnterExtrasCost(ad: Adapter, seen: CR, target: Obj, todo: seq<Extra>, most: nat)
    ensures Cost(ad, EnterExtras(seen, target, todo), most) <= ExtrasCost(ad, |todo|, most)
  {
  }

  lemma {:induction false} FewVictims(pods: seq<Pod>, ns: string, selector: map<string, string>, revision: string)
    ensures |Victims(ListPods(pods, ns, selector), revision)| <= |pods|
  {
    if pods != [] {
      FewVictims(pods[1..], ns, selector, revision);
      var rest := ListPods(pods[1..], ns, selector);
      if Selected(pods[0], ns, selector) {
        assert ([pods[0]] + rest)[1..] == rest;
      } else {
        assert ListPods(pods, ns, selector) == rest;
      }
    }
  }

  lemma ExtraCallCost(ad: Adapter, w: World, k: CrKey, pc: Pc, most: nat)
    requires AtListedExtra(pc) && |w.pods| <= most
    ensures var next := Continue(ad, w, k, pc); next.Goto? && Cost(ad, next.pc, most) < Cost(ad, pc, most)
  {
    EnterExtrasCost(ad, pc.seen, pc.target, pc.rest, most);
    if pc.AtUnstickList? {
      FewVictims(w.pods, k.ns, pc.selector, pc.revision);
    }
  }

  /** A call that does not end the pass brings its end nearer. */
  lemma ContinueCost(ad: Adapter, w: World, k: CrKey, pc: Pc, most: nat)
    requires Lawful(ad) && |w.pods| <= most && !pc.AtStart?
    ensures var next := Continue(ad, w, k, pc);
            if next.Goto? then Cost(ad, next.pc, most) < Cost(ad, pc, most)
            else pc.AtRemoveFinalizer? || Pass(ad) < Cost(ad, pc, most)
  {
    if AtListedExtra(pc) {
      ExtraCallCost(ad, w, k, pc, most);
    } else {
      match pc
      case AtApplyTarget(seen, cls) =>
        var target := Applied(w, TargetKey(k), TargetManifest(ad, k, seen, cls), Operator(k.kind));
        ExtrasLength(ad, k, LocalSpec(ad, seen, cls));
        EnterExtrasCost(ad, seen, target, Extras(ad, k, LocalSpec(ad, seen, cls)), most);
      case AtDeleteTarget(seen) =>
        ExtrasLength(ad, k, seen.spec);
        EnterDeleteCost(ad, k, seen, Extras(ad, k, seen.spec), most);
      case AtDeleteExtra(seen, _, rest) => EnterDeleteCost(ad, k, seen, rest, most);
      case _ =>
    }
  }

  /** The event is a failure of k's worker: a fault of its own, or a refused write. */
  predicate Fails(fleet: Fleet, s: Sys, e: Event, k: CrKey) {
    e == Fault(k) || (e == Call(k) && !Accepted(s.w, RequestOf(fleet(k.kind), k, PcOf(s, k), s.w.now)))
  }

  lemma OwnCallCost(fleet: Fleet, s: Sys, k: CrKey, most: nat)
    requires LawfulFleet(fleet) && Inv(fleet, s) && Pending(s, k) && |s.w.pods| <= most
    requires !Fails(fleet, s, Call(k), k)
    ensures var t := After(fleet, s, Call(k));
            Released(t, k) || (Pending(t, k) &&
                               Cost(fleet(k.kind), PcOf(t, k), most) < Cost(fleet(k.kind), PcOf(s, k), most))
  {
    var ad, pc := fleet(k.kind), PcOf(s, k);
    var r := RequestOf(ad, k, pc, s.w.now);
    assert WorkerInv(fleet, s, k);
    RequestOwnCr(ad, k, pc, s.w.now);
    ServeFramesCrs(s.w, r, k);
    if !pc.AtStart? {
      ContinueCost(ad, s.w, k, pc, most);
    }
  }

  lemma OtherEventKeepsPending(fleet: Fleet, s: Sys, e: Event, k: CrKey)
    requires Inv(fleet, s) && Enabled(s, e) && Pending(s, k) && e != Call(k)
    ensures Pending(After(fleet, s, e), k)
    ensures e != Fault(k) ==> PcOf(After(fleet, s, e), k) == PcOf(s, k)
  {
    match e
    case Call(c) =>
      var r := RequestOf(fleet(c.kind), c, PcOf(s, c), s.w.now);
      if Accepted(s.w, r) {
        RequestOwnCr(fleet(c.kind), c, PcOf(s, c), s.w.now);
        ServeFramesCrs(s.w, r, c);
      }
    case _ =>
  }

  // ---------------------------------------------------------------- over runs

  function Calls(events: seq<Event>, k: CrKey): nat {
    if events == [] then 0
    else Calls(events[..|events| - 1], k) + if events[|events| - 1] == Call(k) then 1 else 0
  }

  function Failures(fleet: Fleet, s: Sys, events: seq<Event>, k: CrKey): nat
    decreases |events|
  {
    if events == [] then 0
    else
      var before := events[..|events| - 1];
      Failures(fleet, s, before, k) + if Fails(fleet, Final(fleet, s, before), events[|events| - 1], k) then 1 else 0
  }

  /** No state of the run holds more than `most` pods; every run has such a bound. */
  ghost predicate PodsWithin(fleet: Fleet, s: Sys, events: seq<Event>, most: nat) {
    forall i :: 0 <= i <= |events| ==> |Final(fleet, s, events[..i]).w.pods| <= most
  }

  ghost predicate NeverReleased(fleet: Fleet, s: Sys, events: seq<Event>, k: CrKey) {
    forall i :: 0 <= i <= |events| ==> !Released(Final(fleet, s, events[..i]), k)
  }

  lemma StepBudget(fleet: Fleet, s: Sys, e: Event, k: CrKey, most: nat)
    requires LawfulFleet(fleet) && Inv(fleet, s) && Enabled(s, e) && Pending(s, k) && |s.w.pods| <= most
    requires !Released(After(fleet, s, e), k)
    ensures var t := After(fleet, s, e);
            && Pending(t, k)
            && (if e == Call(k) then 1 else 0) + Cost(fleet(k.kind), PcOf(t, k), most)
               <= Cost(fleet(k.kind), PcOf(s, k), most) + if Fails(fleet, s, e, k) then Pass(fleet(k.kind)) else 0
  {
    if e == Call(k) && !Fails(fleet, s, e, k) {
      OwnCallCost(fleet, s, k, most);
    } else if e != Call(k) {
      OtherEventKeepsPending(fleet, s, e, k);
    }
  }

  /** What has been called and what is still to come stays within one pass from the start and
      one per failure. */
  ghost predicate WithinBudget(fleet: Fleet, s: Sys, events: seq<Event>, k: CrKey, most: nat) {
    var ad, t := fleet(k.kind), Final(fleet, s, events);
    Pending(t, k) &&
    Calls(events, k) + Cost(ad, PcOf(t, k), most)
    <= Cost(ad, PcOf(s, k), most) + Times(Failures(fleet, s, events, k), Pass(ad))
  }

  lemma {:induction false} TimesIsProduct(n: nat, c: nat)
    ensures Times(n, c) == n * c
  {
    if n > 0 {
      TimesIsProduct(n - 1, c);
    }
  }

  lemma CountsStep(fleet: Fleet, s: Sys, before: seq<Event>, e: Event, k: CrKey)
    ensures var events, t := before + [e], Final(fleet, s, before);
            && Final(fleet, s, events) == After(fleet, t, e)
            && Calls(events, k) == Calls(before, k) + (if e == Call(k) then 1 else 0)
            && Failures(fleet, s, events, k) == Failures(fleet, s, before, k) + if Fails(fleet, t, e, k) then 1 else 0
  {
    var events := before + [e];
    assert events[..|events| - 1] == before;
  }

  lemma BudgetStep(fleet: Fleet, s: Sys, before: seq<Event>, e: Event, k: CrKey, most: nat)
    requires LawfulFleet(fleet) && WithinBudget(fleet, s, before, k, most)
    requires var t := Final(fleet, s, before);
             Inv(fleet, t) && Enabled(t, e) && |t.w.pods| <= most && !Released(After(fleet, t, e), k)
    ensures WithinBudget(fleet, s, before + [e], k, most)
  {
    CountsStep(fleet, s, before, e, k);
    StepBudget(fleet, Final(fleet, s, before), e, k, most);
  }

  lemma RunSplits(fleet: Fleet, s: Sys, events: seq<Event>)
    requires events != [] && IsRun(fleet, s, events)
    ensures var before := events[..|events| - 1];
            IsRun(fleet, s, before) && Enabled(Final(fleet, s, before), events[|events| - 1])
  {
  }

  /** One event more, seen from the run that has it already. */
  lemma BudgetOfRun(fleet: Fleet, s: Sys, events: seq<Event>, k: CrKey, most: nat)
    requires LawfulFleet(fleet) && Inv(fleet, s) && IsRun(fleet, s, events) && events != []
    requires |Final(fleet, s, events[..|events| - 1]).w.pods| <= most && !Released(Final(fleet, s, events), k)
    requires WithinBudget(fleet, s, events[..|events| - 1], k, most)
    ensures WithinBudget(fleet, s, events, k, most)
  {
    var before, last := events[..|events| - 1], events[|events| - 1];
    RunSplits(fleet, s, events);
    RunKeepsInv(fleet, s, before);
    CountsStep(fleet, s, before, last, k);
    assert before + [last] == events;
    BudgetStep(fleet, s, before, last, k, most);
  }

  /** What is asked of a run holds of it without its last event, and of its last state. */
  lemma ShorterRun(fleet: Fleet, s: Sys, events: seq<Event>, k: CrKey, most: nat)
    requires events != [] && PodsWithin(fleet, s, events, most) && NeverReleased(fleet, s, events, k)
    ensures var before := events[..|events| - 1];
            && PodsWithin(fleet, s, before, most) && NeverReleased(fleet, s, before, k)
            && |Final(fleet, s, before).w.pods| <= most && !Released(Final(fleet, s, events), k)
  {
    var before := events[..|events| - 1];
    forall i | 0 <= i <= |before| ensures before[..i] == events[..i] {
    }
    assert events[..|events|] == events && before[..|before|] == before;
  }

  lemma {:induction false} CallsBounded(fleet: Fleet, s: Sys, events: seq<Event>, k: CrKey, most: nat)
    requires LawfulFleet(fleet) && Inv(fleet, s) && IsRun(fleet, s, events) && Pending(s, k)
    requires PodsWithin(fleet, s, events, most) && NeverReleased(fleet, s, events, k)
    ensures WithinBudget(fleet, s, events, k, most)
    decreases |events|
  {
    if events != [] {
      RunSplits(fleet, s, events);
      ShorterRun(fleet, s, events, k, most);
      CallsBounded(fleet, s, events[..|events| - 1], k, most);
      BudgetOfRun(fleet, s, events, k, most);
    }
  }

  /** The theorem: in any run, however interleaved, in which the worker of a resource marked
      for deletion makes more calls than one pass from where it stands plus one pass per
      failure, the resource is released at some point. */
  lemma DeletionCompletes(fleet: Fleet, s: Sys, events: seq<Event>, k: CrKey, most: nat)
    requires LawfulFleet(fleet) && Inv(fleet, s) && IsRun(fleet, s, events) && Pending(s, k)
    requires PodsWithin(fleet, s, events, most)
    requires var ad := fleet(k.kind);
             Calls(events, k) > Cost(ad, PcOf(s, k), most) + Failures(fleet, s, events, k) * Pass(ad)
    ensures exists i :: 0 <= i <= |events| && Released(Final(fleet, s, events[..i]), k)
  {
    if NeverReleased(fleet, s, events, k) {
      CallsBounded(fleet, s, events, k, most);
      TimesIsProduct(Failures(fleet, s, events, k), Pass(fleet(k.kind)));
    }
  }
}
