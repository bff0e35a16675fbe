/** Which pods the unstick loop deletes, over whole interleaved runs. */
module PodHistories {
  import opened Kinds
  import opened Manifests
  import opened Contract
  import opened Pods
  import opened Cluster
  import opened Engine
  import opened Interleaving
  import opened Safety
  import opened Orphans

  // ---------------------------------------------------------------- the list of this pass

  /** Call i of the run was this worker's listing of pods, for this update revision, and
      `victims` is the end of what it picked. */
  ghost predicate ListedAt(
    fleet: Fleet, s: Sys, events: seq<Event>, k: CrKey, i: int, revision: string, victims: seq<string>)
  {
    0 <= i < |events| && events[i] == Call(k) &&
    var t := Final(fleet, s, events[..i]);
    var pc := PcOf(t, k);
    pc.AtUnstickList? && pc.revision == revision &&
    var all := Victims(ListPods(t.w.pods, k.ns, pc.selector), revision);
    |victims| <= |all| && victims == all[|all| - |victims|..]
  }

  /** Since call i this worker has been deleting pods at every moment. It starts to on a list
      only and stops whenever a call fails or the list is done, so this is all one list. */
  ghost predicate DeletingSince(fleet: Fleet, s: Sys, events: seq<Event>, k: CrKey, i: int) {
    forall j :: 0 <= i < j <= |events| ==> PcOf(Final(fleet, s, events[..j]), k).AtUnstickDelete?
  }

  ghost predicate ThisList(
    fleet: Fleet, s: Sys, events: seq<Event>, k: CrKey, i: int, revision: string, victims: seq<string>)
  {
    ListedAt(fleet, s, events, k, i, revision, victims) && DeletingSince(fleet, s, events, k, i)
  }

  lemma VictimsArise(ad: Adapter, w: World, k: CrKey, pc: Pc)
    requires Lawful(ad) && WalksList(ad, k, pc)
    requires var next := Continue(ad, w, k, pc); next.Goto? && next.pc.AtUnstickDelete?
    ensures var next := Continue(ad, w, k, pc);
            var victims := [next.pc.victim] + next.pc.others;
            || (pc.AtUnstickList? && next.pc.revision == pc.revision &&
                victims == Victims(ListPods(w.pods, k.ns, pc.selector), pc.revision))
            || (pc.AtUnstickDelete? && next.pc.revision == pc.revision && victims == pc.others)
  {
    ContinueFollows(ad, w, k, pc);
  }

  lemma VictimsAriseInStep(fleet: Fleet, t: Sys, e: Event, k: CrKey)
    requires LawfulFleet(fleet) && Inv(fleet, t) && PcOf(After(fleet, t, e), k).AtUnstickDelete?
    ensures var pc, next := PcOf(t, k), PcOf(After(fleet, t, e), k);
            var victims := [next.victim] + next.others;
            || (pc.AtUnstickDelete? && next.revision == pc.revision &&
                (victims == [pc.victim] + pc.others || victims == pc.others))
            || (pc.AtUnstickList? && e == Call(k) && next.revision == pc.revision &&
                victims == Victims(ListPods(t.w.pods, k.ns, pc.selector), pc.revision))
  {
    assert WorkerInv(fleet, t, k);
    if e == Call(k) {
      VictimsArise(fleet(k.kind), t.w, k, PcOf(t, k));
    }
  }

  lemma ListGoesOn(
    fleet: Fleet, s: Sys, events: seq<Event>, k: CrKey, i: int, revision: string,
    victims: seq<string>, fewer: seq<string>)
    requires events != [] && ThisList(fleet, s, events[..|events| - 1], k, i, revision, victims)
    requires fewer == victims || (victims != [] && fewer == victims[1..])
    requires PcOf(Final(fleet, s, events), k).AtUnstickDelete?
    ensures ThisList(fleet, s, events, k, i, revision, fewer)
  {
    var before := events[..|events| - 1];
    assert before[..i] == events[..i];
    forall j | i < j <= |events| ensures PcOf(Final(fleet, s, events[..j]), k).AtUnstickDelete? {
      if j < |events| {
        assert before[..j] == events[..j];
      } else {
        assert events[..j] == events;
      }
    }
  }

  lemma ListBegins(fleet: Fleet, s: Sys, events: seq<Event>, k: CrKey, revision: string, victims: seq<string>)
    requires events != [] && ListedAt(fleet, s, events, k, |events| - 1, revision, victims)
    requires PcOf(Final(fleet, s, events), k).AtUnstickDelete?
    ensures ThisList(fleet, s, events, k, |events| - 1, revision, victims)
  {
    assert events[..|events|] == events;
  }

  lemma {:induction false} VictimsFromList(fleet: Fleet, s: Sys, events: seq<Event>, k: CrKey)
    requires LawfulFleet(fleet) && Initial(s) && IsRun(fleet, s, events)
    requires PcOf(Final(fleet, s, events), k).AtUnstickDelete?
    ensures var pc := PcOf(Final(fleet, s, events), k);
            exists i :: ThisList(fleet, s, events, k, i, pc.revision, [pc.victim] + pc.others)
    decreases |events|
  {
    if events != [] {
      var n := |events| - 1;
      var before := events[..n];
      InitialInv(fleet, s);
      RunKeepsInv(fleet, s, before);
      VictimsAriseInStep(fleet, Final(fleet, s, before), events[n], k);
      var pc, next := PcOf(Final(fleet, s, before), k), PcOf(Final(fleet, s, events), k);
      var victims := [next.victim] + next.others;
      if pc.AtUnstickDelete? {
        VictimsFromList(fleet, s, before, k);
        var i :| ThisList(fleet, s, before, k, i, pc.revision, [pc.victim] + pc.others);
        ListGoesOn(fleet, s, events, k, i, pc.revision, [pc.victim] + pc.others, victims);
      } else {
        ListBegins(fleet, s, events, k, next.revision, victims);
      }
    }
  }

  // ---------------------------------------------------------------- what is deleted was stuck

  /** The pod the API server had under this name was off the revision, not Ready and of the
      selector; there was one, and only one. */
  ghost predicate NameWasStuck(
    w: World, ns: string, name: string, revision: string, selector: map<string, string>)
  {
    && (exists q :: q in w.pods && q.ns == ns && q.name == name)
    && (forall q :: q in w.pods && q.ns == ns && q.name == name ==> Stuck(q, revision) && Selected(q, ns, selector))
  }

  lemma VictimWasStuck(w: World, ns: string, selector: map<string, string>, revision: string, victims: seq<string>)
    requires UniqueNames(w.pods) && victims != []
    requires var all := Victims(ListPods(w.pods, ns, selector), revision);
             |victims| <= |all| && victims == all[|all| - |victims|..]
    ensures NameWasStuck(w, ns, victims[0], revision, selector)
  {
    var all := Victims(ListPods(w.pods, ns, selector), revision);
    assert victims[0] in all;
    VictimsAreStuck(ListPods(w.pods, ns, selector), revision, victims[0]);
    var q :| q in ListPods(w.pods, ns, selector) && Stuck(q, revision) && q.name == victims[0];
  }

  lemma PodsShrink(ad: Adapter, w: World, k: CrKey, pc: Pc, p: Pod)
    requires p in w.pods && p !in Step(ad, w, k, pc).w.pods
    ensures pc.AtUnstickDelete? && p.ns == k.ns && p.name == pc.victim
  {
  }

  /** Call i of the run was this worker's listing of pods for the deletions it is making now. */
  ghost predicate ListOfThisPass(
    fleet: Fleet, s: Sys, events: seq<Event>, k: CrKey, i: int, revision: string, selector: map<string, string>)
  {
    0 <= i < |events| && events[i] == Call(k) && DeletingSince(fleet, s, events, k, i) &&
    var pc := PcOf(Final(fleet, s, events[..i]), k);
    pc.AtUnstickList? && pc.revision == revision && pc.selector == selector
  }

  lemma UniquePodsBefore(fleet: Fleet, s: Sys, events: seq<Event>, i: nat)
    requires LawfulFleet(fleet) && Initial(s) && IsRun(fleet, s, events) && i <= |events|
    ensures UniqueNames(Final(fleet, s, events[..i]).w.pods)
  {
    InitialInv(fleet, s);
    RunIsPrefixed(fleet, s, events, i);
    RunKeepsInv(fleet, s, events[..i]);
  }

  lemma ListedNameWasStuck(
    fleet: Fleet, s: Sys, events: seq<Event>, k: CrKey, i: int, revision: string, victims: seq<string>)
    requires ThisList(fleet, s, events, k, i, revision, victims) && victims != []
    requires UniqueNames(Final(fleet, s, events[..i]).w.pods)
    ensures var selector := PcOf(Final(fleet, s, events[..i]), k).selector;
            && ListOfThisPass(fleet, s, events, k, i, revision, selector)
            && NameWasStuck(Final(fleet, s, events[..i]).w, k.ns, victims[0], revision, selector)
  {
    var atList := Final(fleet, s, events[..i]);
    VictimWasStuck(atList.w, k.ns, PcOf(atList, k).selector, revision, victims);
  }

  /** No call but those of the unstick loop removes a pod. Over every run, whatever pod one of
      those removes, the pod of that name was stuck when this very pass listed the pods: a
      name under which there was a Ready or a current pod at the list, or none, is left
      alone, whatever has happened to the pod since. */
  lemma DeletedPodsWereStuck(fleet: Fleet, s: Sys, events: seq<Event>, k: CrKey, p: Pod)
    requires LawfulFleet(fleet) && Initial(s) && IsRun(fleet, s, events)
    requires p in Final(fleet, s, events).w.pods && p !in After(fleet, Final(fleet, s, events), Call(k)).w.pods
    ensures var pc := PcOf(Final(fleet, s, events), k);
            pc.AtUnstickDelete? && p.ns == k.ns &&
            exists i, selector :: ListOfThisPass(fleet, s, events, k, i, pc.revision, selector) &&
              NameWasStuck(Final(fleet, s, events[..i]).w, p.ns, p.name, pc.revision, selector)
  {
    var pc := PcOf(Final(fleet, s, events), k);
    PodsShrink(fleet(k.kind), Final(fleet, s, events).w, k, pc, p);
    VictimsFromList(fleet, s, events, k);
    var i :| ThisList(fleet, s, events, k, i, pc.revision, [pc.victim] + pc.others);
    UniquePodsBefore(fleet, s, events, i);
    ListedNameWasStuck(fleet, s, events, k, i, pc.revision, [pc.victim] + pc.others);
  }

  lemma {:induction false} RunIsPrefixed(fleet: Fleet, s: Sys, events: seq<Event>, i: nat)
    requires IsRun(fleet, s, events) && i <= |events|
    ensures IsRun(fleet, s, events[..i])
    decreases |events|
  {
    if i < |events| {
      RunIsPrefixed(fleet, s, events[..|events| - 1], i);
      assert events[..|events| - 1][..i] == events[..i];
    } else {
      assert events[..i] == events;
    }
  }

  // ---------------------------------------------------------------- where that is not enough

  /** A Ready pod of the update revision under a given name. */
  function Recreated(ns: string, name: string, revision: string): Pod {
    Pod(ns, name, map[REVISION_HASH := revision], [PodCondition("Ready", "True")])
  }

  /** The names this worker is about to pick, in a state where it is about to list. */
  function AboutToDelete(s: Sys, k: CrKey): seq<string>
    requires PcOf(s, k).AtUnstickList?
  {
    Victims(ListPods(s.w.pods, k.ns, PcOf(s, k).selector), PcOf(s, k).revision)
  }

  /** After listing, this worker gets to delete, without failing in between, a pod that is
      Ready and on the update revision by then. */
  ghost predicate Overtaken(fleet: Fleet, s: Sys, k: CrKey, events: seq<Event>, p: Pod)
    requires PcOf(s, k).AtUnstickList?
  {
    && events != [] && events[0] == Call(k) && IsRun(fleet, s, events)
    && DeletingSince(fleet, s, events, k, 0)
    && p in Final(fleet, s, events).w.pods && p !in After(fleet, Final(fleet, s, events), Call(k)).w.pods
    && Ready(p.conditions) && OnRevision(p, PcOf(s, k).revision)
  }

  lemma NextIsVictim(fleet: Fleet, s: Sys, k: CrKey, victims: seq<string>)
    requires PcOf(s, k).AtUnstickList? && victims == AboutToDelete(s, k)
    ensures var t := After(fleet, s, Call(k));
            && t.w == s.w && (PcOf(t, k).AtUnstickDelete? <==> victims != [])
            && (victims != [] ==> PcOf(t, k).victim == victims[0])
  {
    var pc := PcOf(s, k);
    if victims == [] {
      assert EnterVictims(pc.seen, pc.target, pc.e, pc.rest, pc.revision, victims)
          == EnterExtras(pc.seen, pc.target, pc.rest);
    }
  }

  lemma NamedPodGoes(ad: Adapter, w: World, k: CrKey, pc: Pc, p: Pod)
    requires pc.AtUnstickDelete? && p.ns == k.ns && p.name == pc.victim
    ensures p !in Step(ad, w, k, pc).w.pods
  {
  }

  lemma OneEventMore(fleet: Fleet, s: Sys, events: seq<Event>, e: Event)
    requires IsRun(fleet, s, events) && Enabled(Final(fleet, s, events), e)
    ensures IsRun(fleet, s, events + [e])
    ensures Final(fleet, s, events + [e]) == After(fleet, Final(fleet, s, events), e)
  {
    assert (events + [e])[..|events + [e]| - 1] == events;
  }

  /** The foreign step: the StatefulSet controller replaces the pod of one name, and nothing
      else changes. */
  function Replaced(w: World, p: Pod): World {
    w.(pods := PodDeleted(w.pods, p.ns, p.name) + [p])
  }

  lemma ReplacingIsForeign(w: World, p: Pod)
    requires UniqueNames(w.pods) && forall c :: c in w.classes ==> c.name != ""
    ensures ForeignStep(w, Replaced(w, p)) && p in Replaced(w, p).pods
  {
    var v := Replaced(w, p);
    assert forall q :: q in v.pods <==> q == p || (q in w.pods && !(q.ns == p.ns && q.name == p.name));
  }

  /** One replacement between the list and the first deletion is enough. */
  lemma RecreatedPodDeleted(fleet: Fleet, s: Sys, k: CrKey) returns (events: seq<Event>, p: Pod)
    requires UniqueNames(s.w.pods) && forall c :: c in s.w.classes ==> c.name != ""
    requires PcOf(s, k).AtUnstickList? && AboutToDelete(s, k) != []
    ensures Overtaken(fleet, s, k, events, p) && |events| == 2 && events[1] == Foreign(Replaced(s.w, p))
  {
    var pc, victims := PcOf(s, k), AboutToDelete(s, k);
    p := Recreated(k.ns, victims[0], pc.revision);
    var v := Replaced(s.w, p);
    var listed := After(fleet, s, Call(k));
    NextIsVictim(fleet, s, k, victims);
    ReplacingIsForeign(s.w, p);
    OneEventMore(fleet, s, [], Call(k));
    assert [] + [Call(k)] == [Call(k)];
    OneEventMore(fleet, s, [Call(k)], Foreign(v));
    events := [Call(k)] + [Foreign(v)];
    assert events[..1] == [Call(k)] && events[..2] == events;
    NamedPodGoes(fleet(k.kind), v, k, PcOf(listed, k), p);
  }

  /** When the loop can be overtaken, exactly: from a state in which a worker is about to list,
      some run makes its deletions remove a Ready pod of the update revision if and only if
      the list will pick a pod at all. */
  lemma OvertakenExactly(fleet: Fleet, s: Sys, k: CrKey)
    requires UniqueNames(s.w.pods) && forall c :: c in s.w.classes ==> c.name != ""
    requires PcOf(s, k).AtUnstickList?
    ensures (exists events, p :: Overtaken(fleet, s, k, events, p)) <==> AboutToDelete(s, k) != []
  {
    if AboutToDelete(s, k) != [] {
      var events, p := RecreatedPodDeleted(fleet, s, k);
    }
    if events, p :| Overtaken(fleet, s, k, events, p) {
      NextIsVictim(fleet, s, k, AboutToDelete(s, k));
      FirstEvent(fleet, s, events);
      assert PcOf(Final(fleet, s, events[..1]), k).AtUnstickDelete?;
    }
  }

  lemma FirstEvent(fleet: Fleet, s: Sys, events: seq<Event>)
    requires events != []
    ensures Final(fleet, s, events[..1]) == After(fleet, s, events[0])
  {
    var first := events[..1];
    assert first[..|first| - 1] == [] && first[0] == events[0];
  }
}
