/** Uninterrupted passes of one resource as a function that proofs can step through one call
    at a time, without looking into Exec. */
module Machines {
  import opened Kinds
  import opened Contract
  import opened Cluster
  import opened Engine

  /** What an uninterrupted pass leaves, from any store, any call and any number of calls before
      a failure. */
  type Machine = (World, Pc, nat) -> (World, bool)

  ghost predicate IsMachine(run: Machine, ad: Adapter, k: CrKey) {
    forall w, pc, calls {:trigger Exec(ad, w, k, pc, calls)} :: run(w, pc, calls) == Exec(ad, w, k, pc, calls)
  }

  /** There is one. */
  function MachineOf(ad: Adapter, k: CrKey): Machine {
    (w: World, pc: Pc, calls: nat) => Exec(ad, w, k, pc, calls)
  }

  /** One call, spelled out: it is accepted, and leads to v and next. */
  ghost predicate Does(ad: Adapter, w: World, k: CrKey, pc: Pc, v: World, next: Pc) {
    var r := RequestOf(ad, k, pc, w.now);
    Accepted(w, r) && Serve(w, r) == v && Continue(ad, w, k, pc) == Goto(next)
  }

  lemma Advances(run: Machine, ad: Adapter, w: World, k: CrKey, pc: Pc, calls: nat, v: World, next: Pc)
    requires IsMachine(run, ad, k) && calls > 0 && Does(ad, w, k, pc, v, next)
    ensures run(w, pc, calls) == run(v, next, calls - 1)
  {
    assert Exec(ad, w, k, pc, calls) == Exec(ad, v, k, next, calls - 1);
  }

  lemma CallAdvances(run: Machine, ad: Adapter, w: World, k: CrKey, pc: Pc, calls: nat, r: Request, next: Pc)
    requires IsMachine(run, ad, k) && calls > 0
    requires RequestOf(ad, k, pc, w.now) == r && Accepted(w, r) && Continue(ad, w, k, pc) == Goto(next)
    ensures run(w, pc, calls) == run(Serve(w, r), next, calls - 1)
  {
    Advances(run, ad, w, k, pc, calls, Serve(w, r), next);
  }

  lemma CallStops(run: Machine, ad: Adapter, w: World, k: CrKey, pc: Pc, calls: nat)
    requires IsMachine(run, ad, k) && (calls == 0 || !Accepted(w, RequestOf(ad, k, pc, w.now)))
    ensures run(w, pc, calls) == (w, false)
  {
    assert Exec(ad, w, k, pc, calls) == (w, false);
  }

  lemma CallReturns(run: Machine, ad: Adapter, w: World, k: CrKey, pc: Pc, calls: nat, r: Request, ok: bool)
    requires IsMachine(run, ad, k) && calls > 0
    requires RequestOf(ad, k, pc, w.now) == r && Accepted(w, r) && Continue(ad, w, k, pc) == Return(ok)
    ensures run(w, pc, calls) == (Serve(w, r), ok)
  {
    assert Exec(ad, w, k, pc, calls) == (Serve(w, r), ok);
  }
}
