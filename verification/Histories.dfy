/** What a worker's locals say about the past of the run, and what its writes then mean:
    the status it writes, the spec it leaves stored, the pods it deletes. */
module Histories {
  import opened Kinds
  import opened Specs
  import opened Manifests
  import opened ServerSideApply
  import opened Status
  import opened Contract
  import opened Pods
  import opened Cluster
  import opened Engine
  import opened Interleaving
  import opened Safety
  import opened Orphans

  predicate HoldsTarget(pc: Pc) {
    AtListedExtra(pc) || pc.AtStatus?
  }

  // ---------------------------------------------------------------- the applied target

  /** Call i of the run was this worker's apply of its target, on behalf of `seen`, and the
      API server returned `target`. */
  ghost predicate AppliedAt(fleet: Fleet, s: Sys, events: seq<Event>, k: CrKey, i: int, seen: CR, target: Obj) {
    0 <= i < |events| && events[i] == Call(k) &&
    var pc := PcOf(Final(fleet, s, events[..i]), k);
    pc.AtApplyTarget? && pc.seen == seen &&
    var objs := Final(fleet, s, events[..i + 1]).w.objs;
    TargetKey(k) in objs && objs[TargetKey(k)] == target
  }

  /** A worker that holds a target after a step held it before or has just applied it. */
  lemma TargetArises(ad: Adapter, w: World, k: CrKey, pc: Pc)
    requires Lawful(ad) && WalksList(ad, k, pc)
    requires var next := Continue(ad, w, k, pc); next.Goto? && HoldsTarget(next.pc)
    ensures var next := Continue(ad, w, k, pc);
            next.pc.seen == pc.seen &&
            ((HoldsTarget(pc) && next.pc.target == pc.target) ||
             (pc.AtApplyTarget? &&
              next.pc.target
              == Applied(w, TargetKey(k), TargetManifest(ad, k, pc.seen, pc.className), Operator(k.kind))))
  {
    ContinueFollows(ad, w, k, pc);
  }

  lemma TargetArisesInStep(fleet: Fleet, t: Sys, e: Event, k: CrKey)
    requires LawfulFleet(fleet) && Inv(fleet, t) && HoldsTarget(PcOf(After(fleet, t, e), k))
    ensures var pc, next := PcOf(t, k), PcOf(After(fleet, t, e), k);
            var objs := After(fleet, t, e).w.objs;
            next.seen == pc.seen &&
            ((HoldsTarget(pc) && next.target == pc.target) ||
             (pc.AtApplyTarget? && e == Call(k) && TargetKey(k) in objs && objs[TargetKey(k)] == next.target))
  {
    assert WorkerInv(fleet, t, k);
    if e == Call(k) {
      TargetArises(fleet(k.kind), t.w, k, PcOf(t, k));
    }
  }

  /** Since call i this worker has held a target at every moment. It gets one by an apply only
      and loses it whenever a call fails or the pass ends, so this is all one pass. */
  ghost predicate HeldSince(fleet: Fleet, s: Sys, events: seq<Event>, k: CrKey, i: int) {
    forall j :: 0 <= i < j <= |events| ==> HoldsTarget(PcOf(Final(fleet, s, events[..j]), k))
  }

  /** The pass under way has applied its target, at call i. */
  ghost predicate PassApplied(
    fleet: Fleet, s: Sys, events: seq<Event>, k: CrKey, i: int, seen: CR, target: Obj)
  {
    AppliedAt(fleet, s, events, k, i, seen, target) && HeldSince(fleet, s, events, k, i)
  }

  lemma PassGoesOn(
    fleet: Fleet, s: Sys, events: seq<Event>, k: CrKey, i: int, seen: CR, target: Obj)
    requires events != [] && PassApplied(fleet, s, events[..|events| - 1], k, i, seen, target)
    requires HoldsTarget(PcOf(Final(fleet, s, events), k))
    ensures PassApplied(fleet, s, events, k, i, seen, target)
  {
    var before := events[..|events| - 1];
    assert before[..i] == events[..i] && before[..i + 1] == events[..i + 1];
    forall j | i < j <= |events| ensures HoldsTarget(PcOf(Final(fleet, s, events[..j]), k)) {
      if j < |events| {
        assert before[..j] == events[..j];
      } else {
        assert events[..j] == events;
      }
    }
  }

  lemma PassBegins(fleet: Fleet, s: Sys, events: seq<Event>, k: CrKey, seen: CR, target: Obj)
    requires events != [] && events[|events| - 1] == Call(k)
    requires var pc := PcOf(Final(fleet, s, events[..|events| - 1]), k); pc.AtApplyTarget? && pc.seen == seen
    requires var objs := Final(fleet, s, events).w.objs; TargetKey(k) in objs && objs[TargetKey(k)] == target
    requires HoldsTarget(PcOf(Final(fleet, s, events), k))
    ensures PassApplied(fleet, s, events, k, |events| - 1, seen, target)
  {
    assert events[..|events|] == events;
  }

  ghost predicate FromThisPass(fleet: Fleet, s: Sys, events: seq<Event>, k: CrKey, pc: Pc) {
    HoldsTarget(pc) ==> exists i :: PassApplied(fleet, s, events, k, i, pc.seen, pc.target)
  }

  lemma FromThisPassStep(fleet: Fleet, s: Sys, events: seq<Event>, k: CrKey)
    requires LawfulFleet(fleet) && events != []
    requires var t := Final(fleet, s, events[..|events| - 1]);
             Inv(fleet, t) && FromThisPass(fleet, s, events[..|events| - 1], k, PcOf(t, k))
    ensures FromThisPass(fleet, s, events, k, PcOf(Final(fleet, s, events), k))
  {
    var before, last := events[..|events| - 1], events[|events| - 1];
    var t := Final(fleet, s, before);
    var pc, next := PcOf(t, k), PcOf(Final(fleet, s, events), k);
    if HoldsTarget(next) {
      TargetArisesInStep(fleet, t, last, k);
      if HoldsTarget(pc) && next.target == pc.target {
        var i :| PassApplied(fleet, s, before, k, i, pc.seen, pc.target);
        PassGoesOn(fleet, s, events, k, i, pc.seen, pc.target);
      } else {
        PassBegins(fleet, s, events, k, next.seen, next.target);
      }
    }
  }

  lemma {:induction false} TargetFromApply(fleet: Fleet, s: Sys, events: seq<Event>, k: CrKey)
    requires LawfulFleet(fleet) && Initial(s) && IsRun(fleet, s, events)
    ensures FromThisPass(fleet, s, events, k, PcOf(Final(fleet, s, events), k))
    decreases |events|
  {
    if events != [] {
      TargetFromApply(fleet, s, events[..|events| - 1], k);
      InitialInv(fleet, s);
      RunKeepsInv(fleet, s, events[..|events| - 1]);
      FromThisPassStep(fleet, s, events, k);
    }
  }

  lemma StatusWritten(fleet: Fleet, t: Sys, k: CrKey)
    requires LawfulFleet(fleet) && WorkerInv(fleet, t, k)
    requires PcOf(t, k).AtStatus? && Current(t.w, k, PcOf(t, k).seen)
    ensures var before, after := t.w.crs[k], After(fleet, t, Call(k)).w.crs;
            var status := MirroredStatus(fleet(k.kind), k, before, PcOf(t, k).target, t.w.now);
            && before == PcOf(t, k).seen && k in after
            && after[k] == before.(status := status, rv := after[k].rv)
            && Mirrored(before.status, status, fleet(k.kind).extract(PcOf(t, k).target))
  {
    var ad, pc := fleet(k.kind), PcOf(t, k);
    var status := MirroredStatus(ad, k, pc.seen, pc.target, t.w.now);
    assert Mirrored(pc.seen.status, status, ad.extract(pc.target));
  }

  /** Status mirroring over runs: an accepted status write stores, whole, the status mirrored
      from the target as the apply of this very pass returned it, and leaves spec and
      finalizers alone. Types stay unique, there is a Ready entry and it says status.ready,
      entries of other types stay. */
  lemma StatusFromAppliedTarget(fleet: Fleet, s: Sys, events: seq<Event>, k: CrKey)
    requires LawfulFleet(fleet) && Initial(s) && IsRun(fleet, s, events)
    requires var t := Final(fleet, s, events); PcOf(t, k).AtStatus? && Current(t.w, k, PcOf(t, k).seen)
    ensures var t := Final(fleet, s, events);
            var ad, before, after := fleet(k.kind), t.w.crs[k], After(fleet, t, Call(k)).w.crs;
            k in after &&
            exists i, target :: PassApplied(fleet, s, events, k, i, before, target) &&
              var status := MirroredStatus(ad, k, before, target, t.w.now);
              && after[k] == before.(status := status, rv := after[k].rv)
              && Mirrored(before.status, status, ad.extract(target))
  {
    InitialInv(fleet, s);
    RunKeepsInv(fleet, s, events);
    StatusWritten(fleet, Final(fleet, s, events), k);
    TargetFromApply(fleet, s, events, k);
  }

  /** The condition list is sound in every reachable state, foreign edits included. */
  lemma StatusSoundEver(fleet: Fleet, s: Sys, events: seq<Event>, k: CrKey)
    requires LawfulFleet(fleet) && Initial(s) && IsRun(fleet, s, events)
    requires k in Final(fleet, s, events).w.crs
    ensures Mirrors(Final(fleet, s, events).w.crs[k].status)
  {
    InitialInv(fleet, s);
    RunKeepsInv(fleet, s, events);
    assert WorkerInv(fleet, Final(fleet, s, events), k);
  }

  /** Exactly one entry is of type Ready, and it says status.ready. */
  ghost predicate OneReady(s: CrStatus) {
    exists i :: 0 <= i < |s.conditions| && s.conditions[i].ctype == READY && s.conditions[i].status == s.ready
             && forall j :: 0 <= j < |s.conditions| && s.conditions[j].ctype == READY ==> j == i
  }

  lemma ReadyKept(fleet: Fleet, t: Sys, e: Event, k: CrKey)
    requires LawfulFleet(fleet) && Inv(fleet, t) && Enabled(t, e) && k in t.w.crs && HasReady(t.w.crs[k].status)
    requires k in After(fleet, t, e).w.crs
    ensures HasReady(After(fleet, t, e).w.crs[k].status)
  {
    assert WorkerInv(fleet, t, k);
    match e
    case Call(c) =>
      if c == k {
        OwnCallKeepsReady(fleet, t, k);
      } else {
        var r := RequestOf(fleet(c.kind), c, PcOf(t, c), t.w.now);
        if Accepted(t.w, r) {
          RequestOwnCr(fleet(c.kind), c, PcOf(t, c), t.w.now);
          ServeFramesCrs(t.w, r, c);
        }
      }
    case Fault(_) =>
    case Foreign(v) =>
      if t.w.crs[k] != v.crs[k] {
        ForeignKeepsReady(t.w.crs[k].status, v.crs[k].status);
      }
  }

  lemma OwnCallKeepsReady(fleet: Fleet, t: Sys, k: CrKey)
    requires LawfulFleet(fleet) && WorkerInv(fleet, t, k) && k in t.w.crs && HasReady(t.w.crs[k].status)
    requires k in After(fleet, t, Call(k)).w.crs
    ensures HasReady(After(fleet, t, Call(k)).w.crs[k].status)
  {
    var pc := PcOf(t, k);
    if pc.AtStatus? && Current(t.w, k, pc.seen) {
      StatusWritten(fleet, t, k);
    }
  }

  lemma ForeignKeepsReady(a: CrStatus, b: CrStatus)
    requires ForeignStatus(a, b) && HasReady(a)
    ensures HasReady(b)
  {
    var i :| 0 <= i < |a.conditions| && a.conditions[i].ctype == READY;
    assert a.conditions[i] in b.conditions;
  }

  /** Call i of the run was an accepted status write of k's worker. */
  ghost predicate WritesStatusAt(fleet: Fleet, s: Sys, events: seq<Event>, k: CrKey, i: int) {
    0 <= i < |events| && events[i] == Call(k) &&
    var t := Final(fleet, s, events[..i]);
    PcOf(t, k).AtStatus? && Current(t.w, k, PcOf(t, k).seen)
  }

  ghost predicate StoredSince(fleet: Fleet, s: Sys, events: seq<Event>, k: CrKey, i: int) {
    forall j :: 0 <= i < j <= |events| ==> k in Final(fleet, s, events[..j]).w.crs
  }

  ghost predicate ReadyIn(t: Sys, k: CrKey) {
    k in t.w.crs && HasReady(t.w.crs[k].status)
  }

  lemma ReadyBegins(fleet: Fleet, t: Sys, k: CrKey)
    requires LawfulFleet(fleet) && Inv(fleet, t)
    requires PcOf(t, k).AtStatus? && Current(t.w, k, PcOf(t, k).seen)
    ensures ReadyIn(After(fleet, t, Call(k)), k)
  {
    assert WorkerInv(fleet, t, k);
    StatusWritten(fleet, t, k);
  }

  lemma ReadyGoesOn(fleet: Fleet, t: Sys, e: Event, k: CrKey)
    requires LawfulFleet(fleet) && Inv(fleet, t) && Enabled(t, e) && ReadyIn(t, k) && k in After(fleet, t, e).w.crs
    ensures ReadyIn(After(fleet, t, e), k)
  {
    ReadyKept(fleet, t, e, k);
  }

  lemma {:induction false} ReadyEverAfter(fleet: Fleet, s: Sys, events: seq<Event>, k: CrKey, i: int)
    requires LawfulFleet(fleet) && Initial(s) && IsRun(fleet, s, events)
    requires WritesStatusAt(fleet, s, events, k, i) && StoredSince(fleet, s, events, k, i)
    ensures ReadyIn(Final(fleet, s, events), k)
    decreases |events|
  {
    var before, last := events[..|events| - 1], events[|events| - 1];
    StoredNow(fleet, s, events, k, i);
    InitialInv(fleet, s);
    RunKeepsInv(fleet, s, before);
    if i == |events| - 1 {
      ReadyBegins(fleet, Final(fleet, s, before), k);
    } else {
      SinceBefore(fleet, s, events, k, i);
      ReadyEverAfter(fleet, s, before, k, i);
      ReadyGoesOn(fleet, Final(fleet, s, before), last, k);
    }
  }

  lemma StoredNow(fleet: Fleet, s: Sys, events: seq<Event>, k: CrKey, i: int)
    requires 0 <= i < |events| && StoredSince(fleet, s, events, k, i)
    ensures k in Final(fleet, s, events).w.crs
  {
    assert events[..|events|] == events;
  }

  lemma SinceBefore(fleet: Fleet, s: Sys, events: seq<Event>, k: CrKey, i: int)
    requires WritesStatusAt(fleet, s, events, k, i) && StoredSince(fleet, s, events, k, i) && i < |events| - 1
    ensures var before := events[..|events| - 1];
            WritesStatusAt(fleet, s, before, k, i) && StoredSince(fleet, s, before, k, i)
  {
    var before := events[..|events| - 1];
    forall j | 0 <= j <= |before| ensures before[..j] == events[..j] {
    }
  }

  /** Over every run: from the first status write on, for as long as the resource is stored,
      its condition list holds exactly one Ready entry, and that says status.ready. */
  lemma OneReadyEverAfter(fleet: Fleet, s: Sys, events: seq<Event>, k: CrKey, i: int)
    requires LawfulFleet(fleet) && Initial(s) && IsRun(fleet, s, events)
    requires WritesStatusAt(fleet, s, events, k, i) && StoredSince(fleet, s, events, k, i)
    ensures k in Final(fleet, s, events).w.crs && OneReady(Final(fleet, s, events).w.crs[k].status)
  {
    ReadyEverAfter(fleet, s, events, k, i);
    StatusSoundEver(fleet, s, events, k);
    OnlyReady(Final(fleet, s, events).w.crs[k].status);
  }

  lemma OnlyReady(s: CrStatus)
    requires Mirrors(s) && HasReady(s)
    ensures OneReady(s)
  {
    var i :| 0 <= i < |s.conditions| && s.conditions[i].ctype == READY;
    forall j | 0 <= j < |s.conditions| && s.conditions[j].ctype == READY ensures j == i {
      assert s.conditions[j].ctype == s.conditions[i].ctype;
    }
  }

  // ---------------------------------------------------------------- the stored spec

  /** One call of any worker leaves every stored spec alone, or rewrites its own resource's
      spec through the typed round trip. */
  lemma SpecKept(fleet: Fleet, s: Sys, k: CrKey, c: CrKey)
    requires LawfulFleet(fleet) && Inv(fleet, s) && c in s.w.crs && c in After(fleet, s, Call(k)).w.crs
    ensures var spec := After(fleet, s, Call(k)).w.crs[c].spec;
            spec == s.w.crs[c].spec || (c == k && spec == Rewrite(fleet(k.kind).schema, s.w.crs[k].spec))
  {
    var r := RequestOf(fleet(k.kind), k, PcOf(s, k), s.w.now);
    assert WorkerInv(fleet, s, k);
    if Accepted(s.w, r) {
      RequestOwnCr(fleet(k.kind), k, PcOf(s, k), s.w.now);
      ServeFramesCrs(s.w, r, k);
    }
  }

  /** Users and other controllers keep a stored resource and its spec. */
  ghost predicate UsersLeaveSpec(fleet: Fleet, s: Sys, events: seq<Event>, c: CrKey) {
    forall i | 0 <= i < |events| && events[i].Foreign? ::
      var w := Final(fleet, s, events[..i]).w;
      (c in events[i].w.crs ==> c in w.crs && events[i].w.crs[c].spec == w.crs[c].spec)
  }

  /** Over every run in which no user edits the spec, it is the one it was, or that one
      through a single typed round trip: nothing else, and no resolved class, is ever written
      to it. */
  lemma {:induction false} SpecOverRun(fleet: Fleet, s: Sys, events: seq<Event>, c: CrKey)
    requires LawfulFleet(fleet) && Inv(fleet, s) && IsRun(fleet, s, events) && UsersLeaveSpec(fleet, s, events, c)
    requires c in Final(fleet, s, events).w.crs
    ensures c in s.w.crs
    ensures Final(fleet, s, events).w.crs[c].spec in {s.w.crs[c].spec, Rewrite(fleet(c.kind).schema, s.w.crs[c].spec)}
    decreases |events|
  {
    if events != [] {
      var before, last := events[..|events| - 1], events[|events| - 1];
      var t := Final(fleet, s, before);
      forall i | 0 <= i < |before| ensures before[..i] == events[..i] {
      }
      RunKeepsInv(fleet, s, before);
      if last.Call? {
        StillStored(fleet, t, last.k, c);
        SpecOverRun(fleet, s, before, c);
        SpecKept(fleet, t, last.k, c);
        RewriteIdempotent(fleet(c.kind).schema, s.w.crs[c].spec);
      } else {
        SpecOverRun(fleet, s, before, c);
      }
    }
  }

  lemma StillStored(fleet: Fleet, s: Sys, k: CrKey, c: CrKey)
    requires c in After(fleet, s, Call(k)).w.crs
    ensures c in s.w.crs
  {
    var r := RequestOf(fleet(k.kind), k, PcOf(s, k), s.w.now);
    if Accepted(s.w, r) {
      KeysShrink(s.w, r);
    }
  }
}
