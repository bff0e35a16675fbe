/** What this operator claims on foreign objects: in every reachable state every field it
    owns, on any object, has a value some manifest of its adapters puts there. */
module Claims {
  import opened Kinds
  import opened Specs
  import opened Manifests
  import opened Naming
  import opened ServerSideApply
  import opened Contract
  import opened Cluster
  import opened Engine
  import opened Interleaving
  import opened Safety
  import opened Orphans

  /** A condition on the fields this operator may claim. */
  type Claim = (Key, Path, Value) -> bool

  ghost predicate ManifestClaims(key: Key, m: Manifest, claim: Claim) {
    forall p :: p in m.fields ==> claim(key, p, m.fields[p])
  }

  /** Every manifest the adapter of a kind builds keeps the condition. */
  ghost predicate AdapterClaims(ad: Adapter, kind: Kind, claim: Claim) {
    && (forall k: CrKey, spec :: k.kind == kind ==>
        ManifestClaims(TargetKey(k), ad.manifest(spec, k.ns, k.name), claim))
    && (forall k: CrKey, spec, e :: k.kind == kind && e in Extras(ad, k, spec) && e.desired.Some? ==>
          ManifestClaims(ExtraKey(k, e), e.desired.value, claim))
  }

  ghost predicate Claimed(w: World, claim: Claim) {
    forall key, p, kind ::
      (key in w.objs && p in w.objs[key].fields && Operator(kind) in w.objs[key].fields[p].owners) ==>
      claim(key, p, w.objs[key].fields[p].value)
  }

  lemma RequestClaims(ad: Adapter, k: CrKey, pc: Pc, now: nat, claim: Claim)
    requires AdapterClaims(ad, k.kind, claim) && WalksList(ad, k, pc)
    ensures var r := RequestOf(ad, k, pc, now); r.Apply? ==> ManifestClaims(r.key, r.m, claim)
  {
    if pc.AtExtra? {
      var spec :| TailOfExtras(ad, k, spec, [pc.e] + pc.rest);
      assert ([pc.e] + pc.rest)[0] in Extras(ad, k, spec);
    }
  }

  lemma ServeClaims(w: World, r: Request, claim: Claim)
    requires Accepted(w, r) && Claimed(w, claim)
    requires r.Apply? ==> ManifestClaims(r.key, r.m, claim)
    ensures Claimed(Serve(w, r), claim)
  {
  }

  lemma ClaimsPreserved(fleet: Fleet, s: Sys, e: Event, claim: Claim)
    requires LawfulFleet(fleet) && Inv(fleet, s) && Enabled(s, e)
    requires forall kind :: AdapterClaims(fleet(kind), kind, claim)
    requires Claimed(s.w, claim)
    ensures Claimed(After(fleet, s, e).w, claim)
  {
    if e.Call? {
      var ad, pc := fleet(e.k.kind), PcOf(s, e.k);
      var r := RequestOf(ad, e.k, pc, s.w.now);
      if Accepted(s.w, r) {
        assert WorkerInv(fleet, s, e.k);
        RequestClaims(ad, e.k, pc, s.w.now, claim);
        ServeClaims(s.w, r, claim);
      }
    }
  }

  /** Over every run: what all manifests promise of the fields they set holds of every field
      this operator owns on any object. */
  lemma {:induction false} ClaimsEver(fleet: Fleet, s: Sys, events: seq<Event>, claim: Claim)
    requires LawfulFleet(fleet) && Initial(s) && IsRun(fleet, s, events)
    requires forall kind :: AdapterClaims(fleet(kind), kind, claim)
    ensures Claimed(Final(fleet, s, events).w, claim)
    decreases |events|
  {
    if events != [] {
      var before := events[..|events| - 1];
      ClaimsEver(fleet, s, before, claim);
      InitialInv(fleet, s);
      RunKeepsInv(fleet, s, before);
      ClaimsPreserved(fleet, Final(fleet, s, before), events[|events| - 1], claim);
    }
  }
}
