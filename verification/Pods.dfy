/** Pods as the engine sees them, and which of them a stuck rollout leaves behind. */
module Pods {
  datatype PodCondition = PodCondition(ctype: string, status: string)

  datatype Pod = Pod(ns: string, name: string, labels: map<string, string>, conditions: seq<PodCondition>)

  const REVISION_HASH := "controller-revision-hash"

  /** The first Ready condition decides; without one the pod is not ready. */
  function Ready(conditions: seq<PodCondition>): bool {
    if conditions == [] then false
    else if conditions[0].ctype == "Ready" then conditions[0].status == "True"
    else Ready(conditions[1..])
  }

  /** The first Ready condition is the one at index i, and it is True. */
  predicate TrueAt(conditions: seq<PodCondition>, i: int) {
    && 0 <= i < |conditions| && conditions[i] == PodCondition("Ready", "True")
    && forall j :: 0 <= j < i ==> conditions[j].ctype != "Ready"
  }

  lemma {:induction false} ReadyExactly(conditions: seq<PodCondition>)
    ensures Ready(conditions) <==> exists i :: TrueAt(conditions, i)
  {
    if conditions != [] {
      var rest := conditions[1..];
      ReadyExactly(rest);
      if conditions[0].ctype != "Ready" {
        if i :| TrueAt(rest, i) {
          assert forall j :: 0 < j < i + 1 ==> conditions[j] == rest[j - 1];
          assert TrueAt(conditions, i + 1);
        }
        if i :| TrueAt(conditions, i) {
          assert forall j :: 0 <= j < i - 1 ==> rest[j] == conditions[j + 1];
          assert TrueAt(rest, i - 1);
        }
      } else if conditions[0].status == "True" {
        assert TrueAt(conditions, 0);
      }
    }
  }

  method IsPodReady(pod: Pod) returns (ready: bool)
    ensures ready == Ready(pod.conditions)
  {
    for i := 0 to |pod.conditions|
      invariant Ready(pod.conditions) == Ready(pod.conditions[i..])
    {
      if pod.conditions[i].ctype == "Ready" {
        return pod.conditions[i].status == "True";
      }
    }
    return false;
  }

  predicate OnRevision(pod: Pod, revision: string) {
    REVISION_HASH in pod.labels && pod.labels[REVISION_HASH] == revision
  }

  /** Off the update revision and not Ready. */
  predicate Stuck(pod: Pod, updateRevision: string) {
    !OnRevision(pod, updateRevision) && !Ready(pod.conditions)
  }

  predicate Selected(pod: Pod, ns: string, selector: map<string, string>) {
    pod.ns == ns && forall l :: l in selector ==> l in pod.labels && pod.labels[l] == selector[l]
  }

  /** The pods of a namespace matching a selector, in list order. */
  function ListPods(pods: seq<Pod>, ns: string, selector: map<string, string>): (r: seq<Pod>)
    ensures forall p :: p in r <==> p in pods && Selected(p, ns, selector)
  {
    if pods == [] then []
    else
      assert pods == [pods[0]] + pods[1..];
      (if Selected(pods[0], ns, selector) then [pods[0]] else []) + ListPods(pods[1..], ns, selector)
  }

  /** The names, in order, of the listed pods the unstick loop deletes. */
  function Victims(listed: seq<Pod>, updateRevision: string): seq<string> {
    if listed == [] then []
    else (if Stuck(listed[0], updateRevision) then [listed[0].name] else []) + Victims(listed[1..], updateRevision)
  }

  lemma {:induction false} VictimsAreStuck(listed: seq<Pod>, updateRevision: string, name: string)
    ensures name in Victims(listed, updateRevision) <==>
            exists p :: p in listed && Stuck(p, updateRevision) && p.name == name
  {
    if listed != [] {
      assert listed == [listed[0]] + listed[1..];
      VictimsAreStuck(listed[1..], updateRevision, name);
    }
  }

  function PodDeleted(pods: seq<Pod>, ns: string, name: string): (r: seq<Pod>)
    ensures forall p :: p in r <==> p in pods && !(p.ns == ns && p.name == name)
    ensures |r| <= |pods|
  {
    if pods == [] then []
    else
      assert pods == [pods[0]] + pods[1..];
      (if pods[0].ns == ns && pods[0].name == name then [] else [pods[0]]) + PodDeleted(pods[1..], ns, name)
  }

  /** The API server keys pods by namespace and name. */
  ghost predicate UniqueNames(pods: seq<Pod>) {
    forall p, q :: p in pods && q in pods && p.ns == q.ns && p.name == q.name ==> p == q
  }
}
