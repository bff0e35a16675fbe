/** The singleton rule of the Grafana, Prometheus and Loki webhooks. */
module Admission {
  import opened Kinds

  predicate Singleton(kind: Kind) {
    kind in {Grafana, Prometheus, Loki}
  }

  /** The names of the stored resources of a kind in a namespace. */
  function Siblings(stored: set<CrKey>, kind: Kind, ns: string): set<string> {
    set k | k in stored && k.kind == kind && k.ns == ns :: k.name
  }

  /** A create passes the webhook when no differently named resource of its kind is stored in
      its namespace. */
  predicate Admits(stored: set<CrKey>, k: CrKey) {
    Singleton(k.kind) ==> Siblings(stored, k.kind, k.ns) <= {k.name}
  }

  /** The webhook's loop over the listed names; a failed List rejects. */
  method RejectIfSiblingExists(listed: Option<seq<string>>, newName: string) returns (rejected: bool)
    ensures rejected <==> listed.None? || exists n :: n in listed.value && n != newName
  {
    if listed.None? {
      return true;
    }
    for i := 0 to |listed.value|
      invariant forall j :: 0 <= j < i ==> listed.value[j] == newName
    {
      if listed.value[i] == newName {
        continue;
      }
      assert listed.value[i] in listed.value;
      return true;
    }
    return false;
  }

  ghost predicate AtMostOnePerNamespace(stored: set<CrKey>) {
    forall a, b :: a in stored && b in stored && Singleton(a.kind) && a.kind == b.kind && a.ns == b.ns ==> a == b
  }

  /** Serialized admission keeps the rule; removing a resource keeps it too. */
  lemma AdmissionKeepsSingletons(stored: set<CrKey>, k: CrKey, listed: seq<string>)
    requires AtMostOnePerNamespace(stored)
    requires (set n | n in listed) == Siblings(stored, k.kind, k.ns)
    requires !(exists n :: n in listed && n != k.name)
    ensures AtMostOnePerNamespace(stored + {k})
  {
    forall a | a in stored && a.kind == k.kind && a.ns == k.ns ensures a == k {
      assert a.name in Siblings(stored, k.kind, k.ns);
      assert a.name in listed;
    }
  }
}
