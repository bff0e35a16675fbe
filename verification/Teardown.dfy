/** The deletion path: what one successful pass leaves, and what a worker that takes the
    finalizer off has done to the volume claims before, over whole interleaved runs. */
module Teardown {
  import opened Kinds
  import opened Specs
  import opened Manifests
  import opened Naming
  import opened ServerSideApply
  import opened Contract
  import opened Cluster
  import opened Engine
  import opened Machines
  import opened Interleaving
  import opened Safety
  import opened Orphans

  // ---------------------------------------------------------------- one pass

  /** The objects after deleting the listed ones that are not patched only. */
  function TornDown(objs: map<Key, Obj>, k: CrKey, todo: seq<Extra>): map<Key, Obj>
    decreases |todo|
  {
    if todo == [] then objs
    else TornDown(if todo[0].patchOnly then objs else Deleted(objs, ExtraKey(k, todo[0])), k, todo[1..])
  }

  predicate LiveIn(objs: map<Key, Obj>, key: Key) {
    key in objs && !objs[key].terminating
  }

  lemma DeletedExactly(objs: map<Key, Obj>, key: Key, other: Key)
    ensures !LiveIn(Deleted(objs, key), key)
    ensures other != key ==> (other in objs <==> other in Deleted(objs, key))
    ensures other != key && other in objs ==> Deleted(objs, key)[other] == objs[other]
    ensures !LiveIn(objs, other) ==> !LiveIn(Deleted(objs, key), other)
  {
  }

  /** No listed object is live any more, and every object that is not listed is as it was. */
  lemma {:induction false} TornDownExactly(objs: map<Key, Obj>, k: CrKey, todo: seq<Extra>, key: Key)
    ensures var after := TornDown(objs, k, todo);
            var listed := exists e :: e in todo && !e.patchOnly && ExtraKey(k, e) == key;
            && (listed || !LiveIn(objs, key) ==> !LiveIn(after, key))
            && (!listed ==> (key in objs <==> key in after) && (key in objs ==> after[key] == objs[key]))
    decreases |todo|
  {
    if todo != [] {
      assert todo == [todo[0]] + todo[1..];
      var next := if todo[0].patchOnly then objs else Deleted(objs, ExtraKey(k, todo[0]));
      DeletedExactly(objs, ExtraKey(k, todo[0]), key);
      TornDownExactly(next, k, todo[1..], key);
    }
  }

  lemma ExtraDeleted(run: Machine, ad: Adapter, w: World, k: CrKey, seen: CR, e: Extra, rest: seq<Extra>, calls: nat)
    requires IsMachine(run, ad, k)
    ensures run(w, AtDeleteExtra(seen, e, rest), calls)
            == if calls == 0 then (w, false)
               else run(w.(objs := Deleted(w.objs, ExtraKey(k, e))), EnterDelete(ad, k, seen, rest), calls - 1)
  {
    var pc := AtDeleteExtra(seen, e, rest);
    if calls == 0 {
      CallStops(run, ad, w, k, pc, calls);
    } else {
      CallAdvances(run, ad, w, k, pc, calls, Delete(ExtraKey(k, e)), EnterDelete(ad, k, seen, rest));
    }
  }

  /** A pass that succeeds gets through the list of extras. */
  lemma {:induction false} ListTornDown(
    run: Machine, ad: Adapter, w: World, k: CrKey, seen: CR, todo: seq<Extra>, calls: nat)
    returns (left: nat)
    requires IsMachine(run, ad, k) && run(w, EnterDelete(ad, k, seen, todo), calls).1
    ensures run(w, EnterDelete(ad, k, seen, todo), calls)
            == run(w.(objs := TornDown(w.objs, k, todo)), EnterDelete(ad, k, seen, []), left)
    decreases |todo|
  {
    left := calls;
    if todo != [] {
      if todo[0].patchOnly {
        left := ListTornDown(run, ad, w, k, seen, todo[1..], calls);
      } else {
        ExtraDeleted(run, ad, w, k, seen, todo[0], todo[1..], calls);
        var v := w.(objs := Deleted(w.objs, ExtraKey(k, todo[0])));
        left := ListTornDown(run, ad, v, k, seen, todo[1..], calls - 1);
      }
    }
  }

  /** The claims after the pass: untouched if the adapter selects none. */
  function ClaimsAfter(ad: Adapter, w: World, k: CrKey): map<PvcKey, Pvc> {
    var selector := ad.pvcSelector(k.name);
    if selector == map[] then w.pvcs else PvcsDeleted(w.pvcs, k.ns, selector)
  }

  lemma ClaimsDeleted(run: Machine, ad: Adapter, w: World, k: CrKey, seen: CR, calls: nat)
    requires IsMachine(run, ad, k)
    ensures run(w, AtDeletePvcs(seen), calls)
            == if calls == 0 then (w, false)
               else run(w.(pvcs := PvcsDeleted(w.pvcs, k.ns, ad.pvcSelector(TargetName(k.name)))),
                        AtRemoveFinalizer(seen), calls - 1)
  {
    if calls == 0 {
      CallStops(run, ad, w, k, AtDeletePvcs(seen), calls);
    } else {
      CallAdvances(run, ad, w, k, AtDeletePvcs(seen), calls, DeletePvcs(k.ns, ad.pvcSelector(TargetName(k.name))),
                   AtRemoveFinalizer(seen));
    }
  }

  lemma ClaimsTornDown(run: Machine, ad: Adapter, w: World, k: CrKey, seen: CR, calls: nat) returns (left: nat)
    requires IsMachine(run, ad, k) && run(w, EnterDelete(ad, k, seen, []), calls).1
    ensures run(w, EnterDelete(ad, k, seen, []), calls)
            == run(w.(pvcs := ClaimsAfter(ad, w, k)), AtRemoveFinalizer(seen), left)
  {
    left := calls;
    if ad.pvcSelector(TargetName(k.name)) != map[] {
      ClaimsDeleted(run, ad, w, k, seen, calls);
      left := calls - 1;
    }
  }

  /** Stored, marked for deletion, not released. */
  predicate Doomed(w: World, k: CrKey) {
    k in w.crs && w.crs[k].deleting && FINALIZER in w.crs[k].finalizers
  }

  lemma FinalizerRemoved(run: Machine, ad: Adapter, w: World, k: CrKey, seen: CR, calls: nat)
    requires IsMachine(run, ad, k) && k in w.crs && seen == w.crs[k]
    ensures var cr := Rewritten(ad.schema, seen, seen.finalizers - {FINALIZER}, w.clock + 1);
            run(w, AtRemoveFinalizer(seen), calls)
            == if calls == 0 then (w, false) else (w.(crs := Stored(w.crs, k, cr), clock := w.clock + 1), true)
  {
    var pc := AtRemoveFinalizer(seen);
    if calls == 0 {
      CallStops(run, ad, w, k, pc, calls);
    } else {
      CallReturns(run, ad, w, k, pc, calls, RequestOf(ad, k, pc, w.now), true);
    }
  }

  lemma PassToList(run: Machine, ad: Adapter, w: World, k: CrKey, calls: nat)
    requires IsMachine(run, ad, k) && Doomed(w, k)
    ensures var seen := w.crs[k];
            run(w, AtStart, calls)
            == if calls < 2 then (w, false)
               else run(w.(objs := Deleted(w.objs, TargetKey(k))),
                        EnterDelete(ad, k, seen, Extras(ad, k, seen.spec)), calls - 2)
  {
    var seen := w.crs[k];
    if calls == 0 {
      CallStops(run, ad, w, k, AtStart, calls);
    } else {
      CallAdvances(run, ad, w, k, AtStart, calls, Observe, AtDeleteTarget(seen));
      TargetDeleted(run, ad, w, k, seen, calls - 1);
    }
  }

  lemma TargetDeleted(run: Machine, ad: Adapter, w: World, k: CrKey, seen: CR, calls: nat)
    requires IsMachine(run, ad, k)
    ensures run(w, AtDeleteTarget(seen), calls)
            == if calls == 0 then (w, false)
               else run(w.(objs := Deleted(w.objs, TargetKey(k))),
                        EnterDelete(ad, k, seen, Extras(ad, k, seen.spec)), calls - 1)
  {
    if calls == 0 {
      CallStops(run, ad, w, k, AtDeleteTarget(seen), calls);
    } else {
      CallAdvances(run, ad, w, k, AtDeleteTarget(seen), calls, Delete(TargetKey(k)),
                   EnterDelete(ad, k, seen, Extras(ad, k, seen.spec)));
    }
  }

  /** The store after a successful deletion pass. */
  function AfterTeardown(ad: Adapter, w: World, k: CrKey): World
    requires k in w.crs
  {
    var seen := w.crs[k];
    w.(objs := TornDown(Deleted(w.objs, TargetKey(k)), k, Extras(ad, k, seen.spec)),
       pvcs := ClaimsAfter(ad, w, k),
       crs := Stored(w.crs, k, Rewritten(ad.schema, seen, seen.finalizers - {FINALIZER}, w.clock + 1)),
       clock := w.clock + 1)
  }

  /** From the list of extras to the end. */
  lemma ListToEnd(run: Machine, ad: Adapter, w: World, k: CrKey, seen: CR, todo: seq<Extra>, calls: nat)
    requires IsMachine(run, ad, k) && k in w.crs && seen == w.crs[k]
    requires run(w, EnterDelete(ad, k, seen, todo), calls).1
    ensures run(w, EnterDelete(ad, k, seen, todo), calls).0
            == w.(objs := TornDown(w.objs, k, todo), pvcs := ClaimsAfter(ad, w, k),
                  crs := Stored(w.crs, k, Rewritten(ad.schema, seen, seen.finalizers - {FINALIZER}, w.clock + 1)),
                  clock := w.clock + 1)
  {
    var left := ListTornDown(run, ad, w, k, seen, todo, calls);
    var v := w.(objs := TornDown(w.objs, k, todo));
    left := ClaimsTornDown(run, ad, v, k, seen, left);
    FinalizerRemoved(run, ad, v.(pvcs := ClaimsAfter(ad, v, k)), k, seen, left);
  }

  /** Refinement: a deletion pass that returns without an error, with nobody interfering, has
      deleted the target, every extra that is not patched only, and the volume claims, and
      has taken the finalizer off. Nothing else has changed. */
  lemma TeardownOutcome(ad: Adapter, w: World, k: CrKey, calls: nat)
    requires Doomed(w, k) && Exec(ad, w, k, AtStart, calls).1
    ensures Exec(ad, w, k, AtStart, calls).0 == AfterTeardown(ad, w, k)
  {
    TeardownRun(MachineOf(ad, k), ad, w, k, calls);
  }

  lemma TeardownRun(run: Machine, ad: Adapter, w: World, k: CrKey, calls: nat)
    requires IsMachine(run, ad, k) && Doomed(w, k) && run(w, AtStart, calls).1
    ensures run(w, AtStart, calls).0 == AfterTeardown(ad, w, k)
  {
    var seen := w.crs[k];
    PassToList(run, ad, w, k, calls);
    ListToEnd(run, ad, w.(objs := Deleted(w.objs, TargetKey(k))), k, seen, Extras(ad, k, seen.spec), calls - 2);
  }

  lemma OwnedIsListed(ad: Adapter, k: CrKey, spec: Spec, key: Key)
    requires Lawful(ad) && Owns(ad.ids, k, key) && key != TargetKey(k)
    ensures exists e :: e in Extras(ad, k, spec) && !e.patchOnly && ExtraKey(k, e) == key
  {
    var id :| id in ad.ids && !id.patchOnly && key == IdKey(k, id);
    var j :| 0 <= j < |ad.ids| && ad.ids[j] == id;
    ExtrasLength(ad, k, spec);
    ExtraIsId(ad, k, spec, j);
    assert Extras(ad, k, spec)[j] in Extras(ad, k, spec);
  }

  lemma ListedIsOwned(ad: Adapter, k: CrKey, spec: Spec, e: Extra)
    requires Lawful(ad) && e in Extras(ad, k, spec) && !e.patchOnly
    ensures Owns(ad.ids, k, ExtraKey(k, e))
  {
    var i :| 0 <= i < |Extras(ad, k, spec)| && Extras(ad, k, spec)[i] == e;
    ExtraIsId(ad, k, spec, i);
  }

  /** Object by object: nothing the resource owns is live after the pass, and every other object
      is as it was. */
  lemma NothingOwnedLives(ad: Adapter, w: World, k: CrKey, calls: nat, key: Key)
    requires Lawful(ad) && Doomed(w, k) && Exec(ad, w, k, AtStart, calls).1
    ensures var v := Exec(ad, w, k, AtStart, calls).0;
            && (k in v.crs ==> FINALIZER !in v.crs[k].finalizers)
            && (if Owns(ad.ids, k, key) then !Live(v, key)
                else (key in v.objs <==> key in w.objs) && (key in w.objs ==> v.objs[key] == w.objs[key]))
  {
    TeardownOutcome(ad, w, k, calls);
    var spec := w.crs[k].spec;
    DeletedExactly(w.objs, TargetKey(k), key);
    TornDownExactly(Deleted(w.objs, TargetKey(k)), k, Extras(ad, k, spec), key);
    if Owns(ad.ids, k, key) {
      if key != TargetKey(k) {
        OwnedIsListed(ad, k, spec, key);
      }
    } else {
      forall e | e in Extras(ad, k, spec) && !e.patchOnly ensures ExtraKey(k, e) != key {
        ListedIsOwned(ad, k, spec, e);
      }
    }
  }

  // ---------------------------------------------------------------- the claims, over runs

  /** No claim of the namespace that carries the labels is left, but marked ones. */
  predicate NoneLeft(w: World, ns: string, selector: map<string, string>) {
    forall key :: key in w.pvcs && Backs(key, w.pvcs[key], ns, selector) ==> w.pvcs[key].terminating
  }

  lemma PvcsDeletedLeavesNone(w: World, ns: string, selector: map<string, string>)
    ensures NoneLeft(w.(pvcs := PvcsDeleted(w.pvcs, ns, selector)), ns, selector)
  {
  }

  /** Call i of the run deleted the volume claims, and the worker has been about to take the
      finalizer off ever since: a failure, or a refused write, would have ended the pass. */
  ghost predicate ClaimsDeletedAt(fleet: Fleet, s: Sys, events: seq<Event>, k: CrKey, i: int) {
    && 0 <= i < |events| && events[i] == Call(k) && PcOf(Final(fleet, s, events[..i]), k).AtDeletePvcs?
    && NoneLeft(Final(fleet, s, events[..i + 1]).w, k.ns, fleet(k.kind).pvcSelector(k.name))
    && forall j :: 0 <= i < j <= |events| ==> PcOf(Final(fleet, s, events[..j]), k).AtRemoveFinalizer?
  }

  lemma {:induction false} EnterDeleteSelects(ad: Adapter, k: CrKey, seen: CR, todo: seq<Extra>)
    requires ad.pvcSelector(k.name) != map[]
    ensures !EnterDelete(ad, k, seen, todo).AtRemoveFinalizer?
  {
    if todo != [] && todo[0].patchOnly {
      EnterDeleteSelects(ad, k, seen, todo[1..]);
    }
  }

  /** With a selector, the finalizer's turn comes after the claims' only. */
  lemma RemovalArises(fleet: Fleet, t: Sys, e: Event, k: CrKey)
    requires LawfulFleet(fleet) && Inv(fleet, t) && fleet(k.kind).pvcSelector(k.name) != map[]
    requires PcOf(After(fleet, t, e), k).AtRemoveFinalizer?
    ensures PcOf(t, k).AtRemoveFinalizer? || (e == Call(k) && PcOf(t, k).AtDeletePvcs?)
    ensures e == Call(k) && PcOf(t, k).AtDeletePvcs? ==>
            NoneLeft(After(fleet, t, e).w, k.ns, fleet(k.kind).pvcSelector(k.name))
  {
    var ad, pc := fleet(k.kind), PcOf(t, k);
    assert WorkerInv(fleet, t, k);
    if e == Call(k) {
      PvcsDeletedLeavesNone(t.w, k.ns, ad.pvcSelector(k.name));
      if pc.AtDeleteTarget? {
        EnterDeleteSelects(ad, k, pc.seen, Extras(ad, k, pc.seen.spec));
      } else if pc.AtDeleteExtra? {
        EnterDeleteSelects(ad, k, pc.seen, pc.rest);
      } else {
        ContinueFollows(ad, t.w, k, pc);
      }
    }
  }

  lemma RemovalGoesOn(fleet: Fleet, s: Sys, events: seq<Event>, k: CrKey, i: int)
    requires events != [] && ClaimsDeletedAt(fleet, s, events[..|events| - 1], k, i)
    requires PcOf(Final(fleet, s, events), k).AtRemoveFinalizer?
    ensures ClaimsDeletedAt(fleet, s, events, k, i)
  {
    var before := events[..|events| - 1];
    assert before[..i] == events[..i] && before[..i + 1] == events[..i + 1];
    forall j | i < j <= |events| ensures PcOf(Final(fleet, s, events[..j]), k).AtRemoveFinalizer? {
      if j < |events| {
        assert before[..j] == events[..j];
      } else {
        assert events[..j] == events;
      }
    }
  }

  lemma RemovalBegins(fleet: Fleet, s: Sys, events: seq<Event>, k: CrKey)
    requires events != [] && events[|events| - 1] == Call(k)
    requires PcOf(Final(fleet, s, events[..|events| - 1]), k).AtDeletePvcs?
    requires PcOf(Final(fleet, s, events), k).AtRemoveFinalizer?
    requires NoneLeft(Final(fleet, s, events).w, k.ns, fleet(k.kind).pvcSelector(k.name))
    ensures ClaimsDeletedAt(fleet, s, events, k, |events| - 1)
  {
    assert events[..|events|] == events;
  }

  /** Over every run: a worker that takes the finalizer off a resource whose adapter selects
      volume claims has, earlier in this very pass, left no unmarked claim that matches. */
  lemma {:induction false} ClaimsGoFirst(fleet: Fleet, s: Sys, events: seq<Event>, k: CrKey)
    requires LawfulFleet(fleet) && Initial(s) && IsRun(fleet, s, events)
    requires fleet(k.kind).pvcSelector(k.name) != map[] && PcOf(Final(fleet, s, events), k).AtRemoveFinalizer?
    ensures exists i :: ClaimsDeletedAt(fleet, s, events, k, i)
    decreases |events|
  {
    if events != [] {
      var before, last := events[..|events| - 1], events[|events| - 1];
      InitialInv(fleet, s);
      RunKeepsInv(fleet, s, before);
      RemovalArises(fleet, Final(fleet, s, before), last, k);
      if PcOf(Final(fleet, s, before), k).AtRemoveFinalizer? {
        ClaimsGoFirst(fleet, s, before, k);
        var i :| ClaimsDeletedAt(fleet, s, before, k, i);
        RemovalGoesOn(fleet, s, events, k, i);
      } else {
        RemovalBegins(fleet, s, events, k);
      }
    }
  }

  /** The only call that takes a finalizer off is the one at the end of a deletion pass. */
  lemma OnlyRemovalReleases(fleet: Fleet, t: Sys, k: CrKey, c: CrKey)
    requires Inv(fleet, t) && c in t.w.crs && FINALIZER in t.w.crs[c].finalizers
    requires var crs := After(fleet, t, Call(k)).w.crs; c in crs ==> FINALIZER !in crs[c].finalizers
    ensures c == k && PcOf(t, k).AtRemoveFinalizer?
  {
    var r := RequestOf(fleet(k.kind), k, PcOf(t, k), t.w.now);
    assert WorkerInv(fleet, t, k);
    if Accepted(t.w, r) {
      RequestOwnCr(fleet(k.kind), k, PcOf(t, k), t.w.now);
      ServeFramesCrs(t.w, r, k);
    }
  }
}
