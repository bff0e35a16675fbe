/** A StatefulSet rolling out a patched template under the OrderedReady policy, with the
    engine's unstick step beside its controller: the two together always finish, the
    controller alone does not, and the engine's early return skips no pod that needs it. */
module Rollout {
  import opened Kinds
  import opened Pods

  /** One slot per ordinal, empty while its pod is gone. */
  datatype Rollout = Rollout(ns: string, names: seq<string>, selector: map<string, string>,
                             slots: seq<Option<Pod>>, current: string, update: string)

  /** Pods sit in their slots under their own names, carry the selector's labels, and names
      are distinct. The API server admits no StatefulSet without a selector. */
  ghost predicate Valid(r: Rollout) {
    && |r.names| == |r.slots| && r.update != "" && r.selector != map[] && REVISION_HASH !in r.selector
    && (forall i, j :: 0 <= i < j < |r.names| ==> r.names[i] != r.names[j])
    && (forall i :: 0 <= i < |r.slots| && r.slots[i].Some? ==>
          r.slots[i].value.name == r.names[i] && Selected(r.slots[i].value, r.ns, r.selector))
  }

  predicate Stale(r: Rollout, i: int)
    requires 0 <= i < |r.slots|
  {
    r.slots[i].Some? && !OnRevision(r.slots[i].value, r.update)
  }

  predicate Up(r: Rollout, i: int)
    requires 0 <= i < |r.slots|
  {
    r.slots[i].Some? && Ready(r.slots[i].value.conditions)
  }

  predicate AllUp(r: Rollout, n: int)
    requires 0 <= n <= |r.slots|
  {
    forall j :: 0 <= j < n ==> Up(r, j)
  }

  /** Updated, not Ready yet: the patched template cures such a pod in time. */
  predicate Curable(r: Rollout, i: int)
    requires 0 <= i < |r.slots|
  {
    r.slots[i].Some? && !Stale(r, i) && !Up(r, i)
  }

  /** The pods the engine is after. */
  predicate StuckAt(r: Rollout, i: int)
    requires 0 <= i < |r.slots|
  {
    r.slots[i].Some? && Stuck(r.slots[i].value, r.update)
  }

  predicate Complete(r: Rollout) {
    r.current == r.update && forall i :: 0 <= i < |r.slots| ==> Up(r, i) && !Stale(r, i)
  }

  // ---------------------------------------------------------------- moves

  /** Create, Retire and Promote are the controller's; Heal and Crash happen to pods; Unstick
      is one deletion by the engine; Patch is a change of the template. */
  datatype Move =
    | Create(i: nat)
    | Retire(i: nat)
    | Promote
    | Heal(i: nat)
    | Crash(i: nat)
    | Unstick(i: nat)
    | Patch(revision: string)

  function Fresh(r: Rollout, i: int): Pod
    requires 0 <= i < |r.names|
  {
    Pod(r.ns, r.names[i], r.selector[REVISION_HASH := r.update], [])
  }

  /** Whether a move can happen. The controller works on the lowest slot that is not Ready
      and retires the highest stale pod once all are; only pods of the patched template get
      Ready, only others stop being so. */
  predicate Enabled(r: Rollout, m: Move) {
    match m
    case Create(i) => i < |r.slots| && i < |r.names| && r.slots[i].None? && AllUp(r, i)
    case Retire(i) =>
      i < |r.slots| && AllUp(r, |r.slots|) && Stale(r, i) && forall j :: i < j < |r.slots| ==> !Stale(r, j)
    case Promote => r.current != r.update && forall i :: 0 <= i < |r.slots| ==> Up(r, i) && !Stale(r, i)
    case Heal(i) => i < |r.slots| && Curable(r, i)
    case Crash(i) => i < |r.slots| && Stale(r, i) && Up(r, i)
    case Unstick(i) => i < |r.slots| && r.update != r.current && StuckAt(r, i)
    case Patch(revision) => revision != ""
  }

  function WithReady(slot: Option<Pod>, status: string): Option<Pod> {
    if slot.None? then None else Some(slot.value.(conditions := [PodCondition("Ready", status)]))
  }

  function After(r: Rollout, m: Move): Rollout
    requires Enabled(r, m)
  {
    match m
    case Create(i) => r.(slots := r.slots[i := Some(Fresh(r, i))])
    case Retire(i) => r.(slots := r.slots[i := None])
    case Promote => r.(current := r.update)
    case Heal(i) => r.(slots := r.slots[i := WithReady(r.slots[i], "True")])
    case Crash(i) => r.(slots := r.slots[i := WithReady(r.slots[i], "False")])
    case Unstick(i) => r.(slots := r.slots[i := None])
    case Patch(revision) => r.(update := revision)
  }

  lemma ValidPreserved(r: Rollout, m: Move)
    requires Valid(r) && Enabled(r, m)
    ensures Valid(After(r, m))
  {
  }

  /** A rollout with one pod, which is not Ready. */
  function OnePod(name: string, revision: string, current: string, update: string): Rollout {
    var labels := map["app" := "loki"];
    Rollout("ns", [name], labels, [Some(Pod("ns", name, labels[REVISION_HASH := revision], []))], current, update)
  }

  lemma OnePodValid(name: string, revision: string, current: string, update: string)
    requires update != ""
    ensures Valid(OnePod(name, revision, current, update))
    ensures var p := OnePod(name, revision, current, update).slots[0].value;
            !Ready(p.conditions) && forall other :: OnRevision(p, other) <==> other == revision
  {
    assert "app" in OnePod(name, revision, current, update).selector;
    assert "app" != REVISION_HASH by {
      assert |"app"| != |REVISION_HASH|;
    }
  }

  // ---------------------------------------------------------------- guard soundness

  /** Equal revisions mean no stale pod is left: the engine's early return skips nothing. */
  predicate Guarded(r: Rollout) {
    r.current == r.update ==> forall i :: 0 <= i < |r.slots| ==> !Stale(r, i)
  }

  predicate AllOn(r: Rollout, revision: string) {
    forall i :: 0 <= i < |r.slots| ==> !Stale(r.(update := revision), i)
  }

  /** Every move keeps the guard sound, a patch exactly when it does not go back to the
      current revision while pods of another are left. */
  lemma GuardExactly(r: Rollout, m: Move)
    requires Guarded(r) && Enabled(r, m)
    ensures Guarded(After(r, m)) <==> (m.Patch? && m.revision == r.current ==> AllOn(r, r.current))
  {
    var t := After(r, m);
    if m.Patch? && m.revision == r.current {
      assert t == r.(update := r.current);
      assert Guarded(t) <==> AllOn(r, r.current);
    } else if !m.Patch? && t.current == t.update {
      forall i | 0 <= i < |t.slots| ensures !Stale(t, i) {
        assert !Stale(r, i);
      }
    }
  }

  /** The failing family is real: a template put back to the current revision in the middle of
      a rollout leaves a stuck pod that the guard makes the engine pass over. */
  lemma RevertedTemplateHidesStuckPod() returns (r: Rollout, m: Move)
    ensures Valid(r) && Guarded(r) && Enabled(r, m)
    ensures var t := After(r, m);
            !Guarded(t) && StuckAt(t, 0) && !Enabled(t, Unstick(0)) && t.current == t.update
  {
    r := OnePod("loki-ingester-0", "b", "a", "b");
    OnePodValid("loki-ingester-0", "b", "a", "b");
    m := Patch("a");
    assert Stale(After(r, m), 0);
  }

  // ---------------------------------------------------------------- deadlock freedom

  predicate Controllers(m: Move) {
    m.Create? || m.Retire? || m.Promote? || m.Heal?
  }

  /** Only progress of the controller and of healing pods, no engine. */
  ghost predicate Deadlocked(r: Rollout) {
    !Complete(r) && forall m :: Controllers(m) ==> !Enabled(r, m)
  }

  lemma {:induction false} LowestDown(r: Rollout, n: nat) returns (i: nat)
    requires n <= |r.slots|
    ensures i <= n && AllUp(r, i) && (i < n ==> !Up(r, i))
  {
    i := 0;
    while i < n && Up(r, i)
      invariant i <= n && AllUp(r, i)
    {
      i := i + 1;
    }
  }

  lemma {:induction false} HighestStale(r: Rollout, n: nat) returns (i: int)
    requires n <= |r.slots|
    ensures -1 <= i < n && (i >= 0 ==> Stale(r, i)) && forall j :: i < j < n ==> !Stale(r, j)
  {
    i := n - 1;
    while i >= 0 && !Stale(r, i)
      invariant -1 <= i < n && forall j :: i < j < n ==> !Stale(r, j)
    {
      i := i - 1;
    }
  }

  /** Unless it is complete, the controller can move, a pod can heal, or the lowest slot that
      is not Ready holds a stuck pod. */
  lemma NextMove(r: Rollout) returns (i: nat)
    requires Valid(r)
    ensures Complete(r)
         || (exists m :: Controllers(m) && Enabled(r, m))
         || (i < |r.slots| && StuckAt(r, i) && AllUp(r, i) && forall j :: 0 <= j < |r.slots| ==> !Curable(r, j))
  {
    i := LowestDown(r, |r.slots|);
    if j :| 0 <= j < |r.slots| && Curable(r, j) {
      assert Enabled(r, Heal(j));
    } else if i < |r.slots| {
      assert !Curable(r, i);
      if r.slots[i].None? {
        assert Enabled(r, Create(i));
      }
    } else {
      var top := HighestStale(r, |r.slots|);
      if top >= 0 {
        assert Enabled(r, Retire(top));
      } else if r.current != r.update {
        assert Enabled(r, Promote);
      }
    }
  }

  lemma StuckPodBlocks(r: Rollout, i: int, m: Move)
    requires Valid(r) && 0 <= i < |r.slots| && StuckAt(r, i) && AllUp(r, i) && Controllers(m) && Enabled(r, m)
    ensures m.Heal? && m.i < |r.slots| && Curable(r, m.i)
  {
    assert !Up(r, i);
    assert m.Create? ==> !Up(r, m.i);
  }

  /** The deadlock the unstick step is there for, exactly: without it the rollout is stuck if
      and only if the lowest slot that is not Ready holds a stale pod and no updated pod is
      still to become Ready. */
  lemma DeadlockExactly(r: Rollout)
    requires Valid(r)
    ensures Deadlocked(r) <==>
            ((exists i :: 0 <= i < |r.slots| && StuckAt(r, i) && AllUp(r, i)) &&
             forall j :: 0 <= j < |r.slots| ==> !Curable(r, j))
  {
    if Deadlocked(r) {
      var i := NextMove(r);
    } else if i :| 0 <= i < |r.slots| && StuckAt(r, i) && AllUp(r, i) {
      assert !Up(r, i);
      var m :| Controllers(m) && Enabled(r, m);
      StuckPodBlocks(r, i, m);
    }
  }

  /** Such a state exists: one pod that crashed under the old template. */
  lemma DeadlockExists() returns (r: Rollout)
    ensures Valid(r) && Guarded(r) && Deadlocked(r) && Enabled(r, Unstick(0))
  {
    r := OnePod("loki-ingester-0", "a", "a", "b");
    OnePodValid("loki-ingester-0", "a", "a", "b");
    assert StuckAt(r, 0) && AllUp(r, 0) && !Curable(r, 0);
    DeadlockExactly(r);
  }

  /** The theorem: with the unstick step nothing is ever stuck short of complete. */
  lemma NeverStuck(r: Rollout)
    requires Valid(r) && Guarded(r) && !Complete(r)
    ensures exists m :: (Controllers(m) || m.Unstick?) && Enabled(r, m)
  {
    var i := NextMove(r);
    if i < |r.slots| && StuckAt(r, i) {
      assert Stale(r, i);
      assert Enabled(r, Unstick(i));
    }
  }

  /** No move of the controller, of a healing pod or of the engine, short of complete. */
  ghost predicate HardDeadlocked(r: Rollout) {
    !Complete(r) && forall m :: Controllers(m) || m.Unstick? ==> !Enabled(r, m)
  }

  /** The deadlock that is left with the engine, exactly, whatever templates were patched in:
      the revisions are equal, so the engine looks away, and the rollout is stuck without it. */
  lemma HardDeadlockExactly(r: Rollout)
    requires Valid(r)
    ensures HardDeadlocked(r) <==>
            (r.update == r.current &&
             (exists i :: 0 <= i < |r.slots| && StuckAt(r, i) && AllUp(r, i)) &&
             forall j :: 0 <= j < |r.slots| ==> !Curable(r, j))
  {
    DeadlockExactly(r);
    if Deadlocked(r) && r.update != r.current {
      var i :| 0 <= i < |r.slots| && StuckAt(r, i) && AllUp(r, i);
      assert Enabled(r, Unstick(i));
    }
  }

  // ---------------------------------------------------------------- termination

  /** Stale pods weigh most, then empty slots, then updated pods that are not Ready. A stale
      pod that may still crash weighs one more. */
  function Weight(slot: Option<Pod>, update: string): nat {
    match slot
    case None => 2
    case Some(p) =>
      if OnRevision(p, update) then (if Ready(p.conditions) then 0 else 1)
      else if Ready(p.conditions) then 4 else 3
  }

  function Weights(slots: seq<Option<Pod>>, update: string): nat {
    if slots == [] then 0 else Weight(slots[0], update) + Weights(slots[1..], update)
  }

  function Measure(r: Rollout): nat {
    Weights(r.slots, r.update) + if r.current == r.update then 0 else 1
  }

  lemma {:induction false} WeightsUpdated(slots: seq<Option<Pod>>, update: string, i: nat, slot: Option<Pod>)
    requires i < |slots|
    ensures Weights(slots[i := slot], update) + Weight(slots[i], update)
            == Weights(slots, update) + Weight(slot, update)
  {
    if i == 0 {
      assert slots[0 := slot][1..] == slots[1..];
    } else {
      assert slots[i := slot][1..] == slots[1..][i - 1 := slot];
      WeightsUpdated(slots[1..], update, i - 1, slot);
    }
  }

  /** Every move but a new patch brings the end nearer. */
  lemma MovesDescend(r: Rollout, m: Move)
    requires Enabled(r, m) && !m.Patch?
    ensures Measure(After(r, m)) < Measure(r)
  {
    if !m.Promote? {
      WeightsUpdated(r.slots, r.update, m.i, After(r, m).slots[m.i]);
      if m.Heal? || m.Crash? {
        assert [PodCondition("Ready", "True")][0].ctype == "Ready";
      }
    }
  }

  /** A patch is harmless unless it goes back to the current revision while pods of another
      are left. */
  ghost predicate Harmless(r: Rollout, m: Move) {
    m.Patch? && m.revision == r.current ==> AllOn(r, r.current)
  }

  ghost predicate IsRun(r: Rollout, moves: seq<Move>)
    decreases |moves|
  {
    moves == [] ||
    (Enabled(r, moves[0]) && Harmless(r, moves[0]) && IsRun(After(r, moves[0]), moves[1..]))
  }

  ghost function Last(r: Rollout, moves: seq<Move>): Rollout
    requires IsRun(r, moves)
    decreases |moves|
  {
    if moves == [] then r else Last(After(r, moves[0]), moves[1..])
  }

  /** Guard soundness over every run of controller, pods, engine and harmless patches. */
  lemma {:induction false} GuardHolds(r: Rollout, moves: seq<Move>)
    requires Valid(r) && Guarded(r) && IsRun(r, moves)
    ensures Valid(Last(r, moves)) && Guarded(Last(r, moves))
    decreases |moves|
  {
    if moves != [] {
      ValidPreserved(r, moves[0]);
      GuardExactly(r, moves[0]);
      GuardHolds(After(r, moves[0]), moves[1..]);
    }
  }

  lemma {:induction false} RunsAreShort(r: Rollout, moves: seq<Move>)
    requires IsRun(r, moves) && forall m :: m in moves ==> !m.Patch?
    ensures |moves| + Measure(Last(r, moves)) <= Measure(r)
    decreases |moves|
  {
    if moves != [] {
      MovesDescend(r, moves[0]);
      RunsAreShort(After(r, moves[0]), moves[1..]);
    }
  }

  lemma {:induction false} MeasureBounded(slots: seq<Option<Pod>>, update: string)
    ensures Weights(slots, update) <= 4 * |slots|
  {
    if slots != [] {
      MeasureBounded(slots[1..], update);
    }
  }

  lemma CompleteIsFinal(r: Rollout, m: Move)
    requires Complete(r) && (Controllers(m) || m.Unstick?)
    ensures !Enabled(r, m)
  {
    if !m.Promote? && m.i < |r.slots| {
      assert Up(r, m.i) && !Stale(r, m.i);
    }
  }

  /** Rollout progress: after the last patch, every run of controller, pods and engine takes at
      most four moves a slot and one, and where it cannot go on, every pod is updated and
      Ready and the new revision is the current one. */
  lemma RolloutFinishes(r: Rollout, moves: seq<Move>)
    requires Valid(r) && Guarded(r) && IsRun(r, moves) && forall m :: m in moves ==> !m.Patch?
    ensures |moves| <= 4 * |r.slots| + 1
    ensures (forall m :: Controllers(m) || m.Unstick? ==> !Enabled(Last(r, moves), m)) <==> Complete(Last(r, moves))
  {
    RunsAreShort(r, moves);
    MeasureBounded(r.slots, r.update);
    GuardHolds(r, moves);
    var t := Last(r, moves);
    if Complete(t) {
      forall m | Controllers(m) || m.Unstick? ensures !Enabled(t, m) {
        CompleteIsFinal(t, m);
      }
    } else {
      NeverStuck(t);
    }
  }
}
