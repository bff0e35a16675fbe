/** Names of auxiliary objects: the target name plus a suffix fixed by the adapter. */
module Naming {
  import opened Kinds
  import opened Manifests

  /** What identifies an auxiliary object across specs: its name is the target name plus a
      fixed suffix. */
  datatype ExtraId = ExtraId(gvk: Gvk, suffix: string, patchOnly: bool)

  function IdKey(k: CrKey, id: ExtraId): Key {
    Key(id.gvk, k.ns, TargetName(k.name) + id.suffix)
  }

  /** Every key the engine may write for k, given the adapter's identities. */
  ghost predicate Manages(ids: seq<ExtraId>, k: CrKey, key: Key) {
    key == TargetKey(k) || exists id :: id in ids && key == IdKey(k, id)
  }

  /** Every key the engine may create, and deletes when k is deleted. */
  ghost predicate Owns(ids: seq<ExtraId>, k: CrKey, key: Key) {
    key == TargetKey(k) || exists id :: id in ids && !id.patchOnly && key == IdKey(k, id)
  }

  predicate Identifies(e: Extra, id: ExtraId, target: string) {
    e.gvk == id.gvk && e.name == target + id.suffix && e.patchOnly == id.patchOnly
  }

  predicate Listed(extras: seq<Extra>, ids: seq<ExtraId>, target: string) {
    |extras| == |ids| && forall i :: 0 <= i < |extras| ==> Identifies(extras[i], ids[i], target)
  }

  /** Two suffixes that differ at some distance from their ends never produce one name. */
  predicate Apart(s: string, t: string) {
    exists d :: 0 < d <= |s| && d <= |t| && FromEnd(s, d) != FromEnd(t, d)
  }

  function FromEnd(s: string, d: int): char
    requires 0 < d <= |s|
  {
    s[|s| - d]
  }

  lemma ApartNamesDiffer(m: string, s: string, n: string, t: string)
    requires Apart(s, t)
    ensures m + s != n + t
  {
    var d :| 0 < d <= |s| && d <= |t| && FromEnd(s, d) != FromEnd(t, d);
    assert FromEnd(m + s, d) == FromEnd(s, d) && FromEnd(n + t, d) == FromEnd(t, d);
  }

  lemma SuffixCancels(m: string, n: string, s: string)
    requires m + s == n + s
    ensures m == n
  {
    assert |m| == |n|;
    assert m == (m + s)[..|m|] == (n + s)[..|n|] == n;
  }

  /** No two identities of one adapter can name one object, none is a target, and the
      objects of foreign controllers it patches are its StatefulSets. */
  ghost predicate WellNamed(ids: seq<ExtraId>) {
    && (forall i, j :: 0 <= i < |ids| && 0 <= j < |ids| && i != j ==>
          ids[i].gvk != ids[j].gvk || Apart(ids[i].suffix, ids[j].suffix))
    && (forall i :: 0 <= i < |ids| ==> !ids[i].gvk.Target? && (ids[i].patchOnly <==> ids[i].gvk == StatefulSet))
  }

  /** Within one custom resource the listed keys are distinct from each other and from the
      target. */
  lemma OwnKeysDistinct(ids: seq<ExtraId>, k: CrKey, i: nat, j: nat)
    requires WellNamed(ids) && i < |ids| && j < |ids|
    ensures IdKey(k, ids[i]) != TargetKey(k)
    ensures i != j ==> IdKey(k, ids[i]) != IdKey(k, ids[j])
  {
    if i != j && ids[i].gvk == ids[j].gvk {
      ApartNamesDiffer(k.name, ids[i].suffix, k.name, ids[j].suffix);
    }
  }

  /** The engine deletes only what it may create: a patched-only object is never owned. */
  lemma OwnedNeverStatefulSet(ids: seq<ExtraId>, k: CrKey, key: Key)
    requires WellNamed(ids)
    ensures Owns(ids, k, key) <==> Manages(ids, k, key) && key.gvk != StatefulSet
  {
  }
}
