/** Exactly which pods one run of the unstick step deletes, where it stops, and that a retry
    finishes the job. */
module Unsticking {
  import opened Kinds
  import opened Pods
  import opened Cluster
  import opened Engine
  import opened Convergence
  import opened Reconciler
  import Rollout

  lemma VictimNames(w: World, key: Key, name: string)
    ensures name in UnstickVictims(w, key) <==> exists p :: p in w.pods && HoldsUp(w, key, p) && p.name == name
  {
    forall p ensures HoldsUp(w, key, p) <==> (LooksAtPods(w, key) && Selected(p, key.ns, w.objs[key].selector) &&
                                              Stuck(p, UpdateRevision(w.objs[key])))
    {
      HoldsUpExactly(w, key, p);
    }
    if LooksAtPods(w, key) {
      var listed := ListPods(w.pods, key.ns, w.objs[key].selector);
      VictimsAreStuck(listed, UpdateRevision(w.objs[key]), name);
      if p :| p in w.pods && HoldsUp(w, key, p) && p.name == name {
        assert p in listed;
      }
    }
  }

  /** The early returns: while the two revisions are equal, or the update revision or the
      selector is missing, no number of calls deletes anything. */
  lemma GuardLeavesAlone(w: World, key: Key, calls: nat)
    requires NothingToUnstick(w, key)
    ensures AfterUnstick(w, key, calls) == w
  {
  }

  lemma VictimIsStuck(w: World, key: Key, p: Pod)
    requires UniqueNames(w.pods) && p in w.pods && p.ns == key.ns
    ensures p.name in UnstickVictims(w, key) <==> HoldsUp(w, key, p)
  {
    VictimNames(w, key, p.name);
  }

  /** Wherever a failure stops the step, it has deleted only pods it is for; if none does, it
      has deleted all of them. */
  lemma DeletesOnlyStuck(w: World, key: Key, calls: nat, p: Pod)
    requires UniqueNames(w.pods) && p in w.pods
    ensures p !in AfterUnstick(w, key, calls).pods ==> HoldsUp(w, key, p)
    ensures calls >= Looks(w, key) + |UnstickVictims(w, key)| ==>
            (p in AfterUnstick(w, key, calls).pods <==> !HoldsUp(w, key, p))
  {
    var n := DeletedNames(w, key, calls);
    if p.ns == key.ns {
      VictimIsStuck(w, key, p);
    }
  }

  /** The names deleted, and what that leaves. */
  lemma DeletedNames(w: World, key: Key, calls: nat) returns (names: seq<string>)
    ensures forall n :: n in names ==> n in UnstickVictims(w, key)
    ensures calls >= Looks(w, key) + |UnstickVictims(w, key)| ==> names == UnstickVictims(w, key)
    ensures forall p :: p in AfterUnstick(w, key, calls).pods <==> p in w.pods && !(p.ns == key.ns && p.name in names)
  {
    if calls < Looks(w, key) {
      names := [];
    } else {
      var victims, n := UnstickVictims(w, key), calls - Looks(w, key);
      names := if n < |victims| then victims[..n] else victims;
      PodsDeletedExactly(w.pods, key.ns, names);
    }
  }

  lemma NothingNew(w: World, key: Key, calls: nat, p: Pod)
    ensures p in AfterUnstick(w, key, calls).pods ==> p in w.pods
  {
    var n := DeletedNames(w, key, calls);
  }

  lemma StillUnique(w: World, key: Key, calls: nat)
    requires UniqueNames(w.pods)
    ensures UniqueNames(AfterUnstick(w, key, calls).pods)
  {
    forall q ensures q in AfterUnstick(w, key, calls).pods ==> q in w.pods {
      NothingNew(w, key, calls, q);
    }
  }

  /** A retry after a failure anywhere finishes the same set: together they leave what one
      undisturbed run would have left. */
  lemma RetryFinishes(w: World, key: Key, calls: nat, again: nat, undisturbed: nat, p: Pod)
    requires UniqueNames(w.pods)
    requires var v := AfterUnstick(w, key, calls); again >= Looks(v, key) + |UnstickVictims(v, key)|
    requires undisturbed >= Looks(w, key) + |UnstickVictims(w, key)|
    ensures p in AfterUnstick(AfterUnstick(w, key, calls), key, again).pods <==>
            p in AfterUnstick(w, key, undisturbed).pods
  {
    var v := AfterUnstick(w, key, calls);
    StillUnique(w, key, calls);
    NothingNew(w, key, calls, p);
    NothingNew(v, key, again, p);
    NothingNew(w, key, undisturbed, p);
    if p in w.pods {
      DeletesOnlyStuck(w, key, calls, p);
      DeletesOnlyStuck(w, key, undisturbed, p);
      if p in v.pods {
        DeletesOnlyStuck(v, key, again, p);
      }
    }
  }

  // ---------------------------------------------------------------- the rollout model

  /** The store holds the pods of the rollout, among any others that the selector does not
      match, and at key the StatefulSet, whose status carries the rollout's revisions. */
  ghost predicate Holds(w: World, key: Key, r: Rollout.Rollout) {
    && key in w.objs && key.ns == r.ns && w.objs[key].selector == r.selector
    && "updateRevision" in w.objs[key].status.strs && w.objs[key].status.strs["updateRevision"] == r.update
    && "currentRevision" in w.objs[key].status.strs && w.objs[key].status.strs["currentRevision"] == r.current
    && forall p :: p in w.pods && Selected(p, r.ns, r.selector) <==> Some(p) in r.slots
  }

  lemma SlotHoldsUp(w: World, key: Key, r: Rollout.Rollout, i: nat)
    requires Holds(w, key, r) && Rollout.Valid(r) && i < |r.slots| && r.slots[i].Some?
    ensures HoldsUp(w, key, r.slots[i].value) <==> (r.update != r.current && Rollout.StuckAt(r, i))
  {
    HoldsUpExactly(w, key, r.slots[i].value);
    assert "updateRevision"[0] != "currentRevision"[0];
  }

  /** The unstick move of the rollout model is possible on exactly the pods that the engine
      deletes in a store that holds the rollout; the engine's guard is part of that. */
  lemma UnstickIsTheEngines(w: World, key: Key, r: Rollout.Rollout, i: nat)
    requires Holds(w, key, r) && Rollout.Valid(r) && i < |r.slots|
    ensures Rollout.Enabled(r, Rollout.Unstick(i)) <==> r.names[i] in UnstickVictims(w, key)
  {
    VictimNames(w, key, r.names[i]);
    if Rollout.Enabled(r, Rollout.Unstick(i)) {
      SlotHoldsUp(w, key, r, i);
      assert r.slots[i].value in w.pods;
    }
    if p :| p in w.pods && HoldsUp(w, key, p) && p.name == r.names[i] {
      HoldsUpExactly(w, key, p);
      var j :| 0 <= j < |r.slots| && r.slots[j] == Some(p);
      assert j == i;
      SlotHoldsUp(w, key, r, i);
    }
  }
}
