/** Any number of workers, one per custom resource key, interleaved call by call with each
    other, with failures and with everybody else who writes to the cluster. */
module Interleaving {
  import opened Kinds
  import opened Specs
  import opened Manifests
  import opened Naming
  import opened Contract
  import opened ServerSideApply
  import opened Status
  import opened Pods
  import opened Admission
  import opened Cluster
  import opened Engine

  /** A worker that is not listed is at its start. */
  datatype Sys = Sys(w: World, pcs: map<CrKey, Pc>)

  /** Call: a worker's next call succeeds or is refused by the API server. Fault: it fails for
      a reason of its own, or the process restarts. Foreign: somebody else writes. */
  datatype Event = Call(k: CrKey) | Fault(k: CrKey) | Foreign(w: World)

  function PcOf(s: Sys, k: CrKey): Pc {
    if k in s.pcs then s.pcs[k] else AtStart
  }

  function After(fleet: Fleet, s: Sys, e: Event): Sys {
    match e
    case Call(k) =>
      var r := Step(fleet(k.kind), s.w, k, PcOf(s, k));
      Sys(r.w, s.pcs[k := if r.next.Goto? then r.next.pc else AtStart])
    case Fault(k) => s.(pcs := s.pcs[k := AtStart])
    case Foreign(w) => s.(w := w)
  }

  // ---------------------------------------------------------------- what others may do

  /** Conditions of other types may change, status.ready and the Ready entry may not. */
  ghost predicate ForeignStatus(a: CrStatus, b: CrStatus) {
    && b.(conditions := []) == a.(conditions := [])
    && UniqueTypes(b.conditions)
    && forall c: Condition :: c.ctype == READY ==> (c in b.conditions <==> c in a.conditions)
  }

  /** Edits of a stored resource: any spec, any other finalizers, a deletion request. Only
      this operator removes its finalizer, and a deletion request is never withdrawn. */
  ghost predicate ForeignEdit(a: CR, b: CR) {
    && (FINALIZER in a.finalizers ==> FINALIZER in b.finalizers)
    && (a.deleting ==> b.deleting)
    && ForeignStatus(a.status, b.status)
  }

  ghost predicate ForeignCrs(w: World, v: World) {
    && (forall k :: k in w.crs && k !in v.crs ==> FINALIZER !in w.crs[k].finalizers)
    && (forall k :: k in v.crs && !(k in w.crs && w.crs[k] == v.crs[k]) ==>
          w.clock < v.crs[k].rv <= v.clock)
    && (forall k :: k in w.crs && k in v.crs && w.crs[k] != v.crs[k] ==> ForeignEdit(w.crs[k], v.crs[k]))
    && (forall k :: k in v.crs && k !in w.crs ==>
          !v.crs[k].deleting && v.crs[k].status == EMPTY_STATUS && Admits(w.crs.Keys, k))
    && (forall a, b :: a in v.crs && a !in w.crs && b in v.crs && b !in w.crs ==> a == b)
  }

  /** Vendor controllers and users create, change and delete objects, but they do not apply
      under this operator's field managers, and they do not revive an object. */
  ghost predicate ForeignObjs(w: World, v: World) {
    && (forall key :: Live(v, key) && v.objs[key].touched ==> Live(w, key) && w.objs[key].touched)
    && (forall key, p, kind ::
          (key in v.objs && p in v.objs[key].fields && Operator(kind) in v.objs[key].fields[p].owners) ==>
          key in w.objs && p in w.objs[key].fields && Operator(kind) in w.objs[key].fields[p].owners &&
          w.objs[key].fields[p].value == v.objs[key].fields[p].value)
  }

  ghost predicate ForeignStep(w: World, v: World) {
    && w.clock <= v.clock
    && ForeignCrs(w, v)
    && ForeignObjs(w, v)
    && UniqueNames(v.pods)
    && (forall c :: c in v.classes ==> c.name != "")
  }

  ghost predicate Enabled(s: Sys, e: Event) {
    e.Foreign? ==> ForeignStep(s.w, e.w)
  }

  // ---------------------------------------------------------------- runs

  /** A cluster this operator has never written to. */
  ghost predicate Initial(s: Sys) {
    && s.pcs == map[]
    && (forall k :: k in s.w.crs ==> s.w.crs[k].rv <= s.w.clock && s.w.crs[k].status == EMPTY_STATUS)
    && AtMostOnePerNamespace(s.w.crs.Keys)
    && (forall key :: key in s.w.objs ==> !s.w.objs[key].touched)
    && (forall key, p, kind :: key in s.w.objs && p in s.w.objs[key].fields ==>
          Operator(kind) !in s.w.objs[key].fields[p].owners)
    && UniqueNames(s.w.pods)
  }

  ghost predicate IsRun(fleet: Fleet, s: Sys, events: seq<Event>)
    decreases |events|
  {
    events == [] || (IsRun(fleet, s, events[..|events| - 1]) &&
                     Enabled(Final(fleet, s, events[..|events| - 1]), events[|events| - 1]))
  }

  function Final(fleet: Fleet, s: Sys, events: seq<Event>): Sys
    decreases |events|
  {
    if events == [] then s else After(fleet, Final(fleet, s, events[..|events| - 1]), events[|events| - 1])
  }

  // ---------------------------------------------------------------- the invariant

  /** The keys a deleting worker has already deleted in this pass. */
  ghost predicate Past(ids: seq<ExtraId>, k: CrKey, pc: Pc, key: Key) {
    match pc
    case AtDeleteExtra(_, _, rest) => Among(ids, k, |ids| - |rest| - 1, key)
    case AtDeletePvcs(_) => Owns(ids, k, key)
    case AtRemoveFinalizer(_) => Owns(ids, k, key)
    case _ => false
  }

  /** Somebody will still delete key: a stored resource that carries the finalizer, lists the
      key, and whose worker is not past it. */
  ghost predicate Covers(fleet: Fleet, s: Sys, k: CrKey, key: Key) {
    var ids := fleet(k.kind).ids;
    k in s.w.crs && FINALIZER in s.w.crs[k].finalizers && Owns(ids, k, key) && !Past(ids, k, PcOf(s, k), key)
  }

  ghost predicate Ours(w: World, key: Key) {
    Live(w, key) && w.objs[key].touched && key.gvk != StatefulSet
  }

  ghost predicate NoOrphans(fleet: Fleet, s: Sys) {
    forall key :: Ours(s.w, key) ==> exists k :: Covers(fleet, s, k, key)
  }

  /** A worker in the middle of a pass keeps its resource stored, finalizer included. */
  ghost predicate Held(s: Sys, k: CrKey) {
    var pc := PcOf(s, k);
    && (Applying(pc) || Deleting(pc) ==>
          k in s.w.crs && FINALIZER in s.w.crs[k].finalizers && FINALIZER in pc.seen.finalizers)
    && (Deleting(pc) ==> pc.seen.deleting && s.w.crs[k].deleting)
    && (Applying(pc) ==> !pc.seen.deleting)
    && (pc.AtAddFinalizer? ==> !pc.seen.deleting)
  }

  /** Resource versions identify contents: what a worker read is what is stored if the
      versions agree. */
  ghost predicate Versioned(s: Sys, k: CrKey) {
    && (k in s.w.crs ==> s.w.crs[k].rv <= s.w.clock)
    && (!PcOf(s, k).AtStart? ==>
          PcOf(s, k).seen.rv <= s.w.clock && (Current(s.w, k, PcOf(s, k).seen) ==> s.w.crs[k] == PcOf(s, k).seen))
  }

  ghost predicate StatusSound(s: Sys, k: CrKey) {
    k in s.w.crs ==> Mirrors(s.w.crs[k].status)
  }

  /** todo is what is left of what the adapter lists for some spec. */
  ghost predicate TailOfExtras(ad: Adapter, k: CrKey, spec: Spec, todo: seq<Extra>) {
    var extras := Extras(ad, k, spec);
    |todo| <= |extras| && todo == extras[|extras| - |todo|..]
  }

  /** e and rest are the end of what the adapter lists for some spec. */
  ghost predicate Walking(ad: Adapter, k: CrKey, e: Extra, rest: seq<Extra>) {
    exists spec :: TailOfExtras(ad, k, spec, [e] + rest)
  }

  /** The worker's locals: it walks the list its adapter gave for the spec it read. */
  ghost predicate WalksList(ad: Adapter, k: CrKey, pc: Pc) {
    match pc
    case AtExtraGet(_, _, e, rest) => e.desired.Some? && Walking(ad, k, e, rest)
    case AtExtra(_, _, e, rest) => Walking(ad, k, e, rest)
    case AtUnstickGet(_, _, e, rest) => Walking(ad, k, e, rest)
    case AtUnstickList(_, _, e, rest, revision, selector) =>
      revision != "" && selector != map[] && Walking(ad, k, e, rest)
    case AtUnstickDelete(_, _, e, rest, revision, _, _) => revision != "" && Walking(ad, k, e, rest)
    case AtDeleteExtra(seen, e, rest) => !e.patchOnly && TailOfExtras(ad, k, seen.spec, [e] + rest)
    case AtDeletePvcs(_) => ad.pvcSelector(TargetName(k.name)) != map[]
    case _ => true
  }

  ghost predicate WorkerInv(fleet: Fleet, s: Sys, k: CrKey) {
    Held(s, k) && Versioned(s, k) && StatusSound(s, k) && WalksList(fleet(k.kind), k, PcOf(s, k))
  }

  ghost predicate Inv(fleet: Fleet, s: Sys) {
    && (forall k :: WorkerInv(fleet, s, k))
    && NoOrphans(fleet, s)
    && AtMostOnePerNamespace(s.w.crs.Keys)
    && UniqueNames(s.w.pods)
  }

  // ---------------------------------------------------------------- local shape of steps

  /** The entry at position i of what the adapter lists is its i-th identity. */
  lemma ExtraIsId(ad: Adapter, k: CrKey, spec: Spec, i: nat)
    requires Lawful(ad) && i < |Extras(ad, k, spec)|
    ensures |Extras(ad, k, spec)| == |ad.ids|
    ensures Conforms(ad, k, Extras(ad, k, spec)[i], i)
  {
    var extras := ad.extras(spec, TargetName(k.name), k.ns, k.name);
    assert LawfulExtras(extras, ad.ids, TargetName(k.name));
    assert Identifies(extras[i], ad.ids[i], TargetName(k.name));
    assert ad.ids[i] in ad.ids;
  }

  ghost predicate Conforms(ad: Adapter, k: CrKey, e: Extra, i: nat) {
    && i < |ad.ids|
    && ExtraKey(k, e) == IdKey(k, ad.ids[i])
    && e.patchOnly == ad.ids[i].patchOnly
    && (e.patchOnly <==> e.gvk == StatefulSet)
    && Manages(ad.ids, k, ExtraKey(k, e))
    && (!e.patchOnly ==> Owns(ad.ids, k, ExtraKey(k, e)))
    && (e.patchOnly ==> e.desired == Some(FS_GROUP_PATCH))
  }

  lemma HeadConforms(ad: Adapter, k: CrKey, spec: Spec, todo: seq<Extra>)
    requires Lawful(ad) && todo != [] && TailOfExtras(ad, k, spec, todo)
    ensures |todo| <= |ad.ids| && Conforms(ad, k, todo[0], |ad.ids| - |todo|)
    ensures TailOfExtras(ad, k, spec, todo[1..])
  {
    var extras := Extras(ad, k, spec);
    var i := |extras| - |todo|;
    ExtraIsId(ad, k, spec, i);
    assert todo[0] == extras[i];
    assert extras[i..][1..] == extras[i + 1..];
  }

  /** The first i keys of the deletion order, the target before all of them. */
  ghost predicate Among(ids: seq<ExtraId>, k: CrKey, i: int, key: Key) {
    key == TargetKey(k) || exists j :: 0 <= j < i && j < |ids| && key == IdKey(k, ids[j])
  }

  lemma OwnedIsAmong(ids: seq<ExtraId>, k: CrKey, key: Key)
    requires Owns(ids, k, key)
    ensures Among(ids, k, |ids|, key)
  {
    if key != TargetKey(k) {
      var id :| id in ids && !id.patchOnly && key == IdKey(k, id);
      var j :| 0 <= j < |ids| && ids[j] == id;
      assert j < |ids|;
    }
  }

  lemma SkippedIsNotPast(ad: Adapter, k: CrKey, e: Extra, i: nat, key: Key)
    requires Conforms(ad, k, e, i) && e.patchOnly && key.gvk != StatefulSet && Among(ad.ids, k, i + 1, key)
    ensures Among(ad.ids, k, i, key)
  {
    if key != TargetKey(k) {
      var j :| 0 <= j < i + 1 && j < |ad.ids| && key == IdKey(k, ad.ids[j]);
      assert j < i;
    }
  }

  /** Entering the deletion loop skips patch-only entries only. */
  lemma {:induction false} EnterDeleteShape(ad: Adapter, k: CrKey, seen: CR, todo: seq<Extra>)
    requires Lawful(ad) && TailOfExtras(ad, k, seen.spec, todo)
    ensures var pc := EnterDelete(ad, k, seen, todo);
            Deleting(pc) && !pc.AtDeleteTarget? && pc.seen == seen && WalksList(ad, k, pc)
  {
    if todo != [] {
      if todo[0].patchOnly {
        HeadConforms(ad, k, seen.spec, todo);
        EnterDeleteShape(ad, k, seen, todo[1..]);
      } else {
        assert [todo[0]] + todo[1..] == todo;
      }
    }
  }

  /** On entering the loop with `todo` left, the worker is past what comes before it. */
  lemma {:induction false} EnterDeletePast(ad: Adapter, k: CrKey, seen: CR, todo: seq<Extra>, key: Key)
    requires Lawful(ad) && TailOfExtras(ad, k, seen.spec, todo)
    requires key.gvk != StatefulSet && Past(ad.ids, k, EnterDelete(ad, k, seen, todo), key)
    ensures Among(ad.ids, k, |ad.ids| - |todo|, key)
  {
    if todo == [] {
      OwnedIsAmong(ad.ids, k, key);
    } else if todo[0].patchOnly {
      HeadConforms(ad, k, seen.spec, todo);
      EnterDeletePast(ad, k, seen, todo[1..], key);
      SkippedIsNotPast(ad, k, todo[0], |ad.ids| - |todo|, key);
    }
  }

  lemma EnterExtrasShape(ad: Adapter, k: CrKey, seen: CR, target: Obj, spec: Spec, todo: seq<Extra>)
    requires TailOfExtras(ad, k, spec, todo)
    ensures var pc := EnterExtras(seen, target, todo);
            Applying(pc) && pc.seen == seen && WalksList(ad, k, pc)
  {
    if todo != [] {
      assert [todo[0]] + todo[1..] == todo;
      assert Walking(ad, k, todo[0], todo[1..]);
    }
  }

  lemma TailShorter(ad: Adapter, k: CrKey, spec: Spec, e: Extra, rest: seq<Extra>)
    requires TailOfExtras(ad, k, spec, [e] + rest)
    ensures TailOfExtras(ad, k, spec, rest)
  {
    var extras := Extras(ad, k, spec);
    assert rest == ([e] + rest)[1..];
  }

  /** Going on with the rest of the list. */
  lemma EnterRestShape(ad: Adapter, k: CrKey, seen: CR, target: Obj, e: Extra, rest: seq<Extra>)
    requires Walking(ad, k, e, rest)
    ensures var pc := EnterExtras(seen, target, rest);
            Applying(pc) && pc.seen == seen && WalksList(ad, k, pc)
  {
    var spec :| TailOfExtras(ad, k, spec, [e] + rest);
    TailShorter(ad, k, spec, e, rest);
    EnterExtrasShape(ad, k, seen, target, spec, rest);
  }

  lemma EnterVictimsShape(
    ad: Adapter, k: CrKey, seen: CR, target: Obj, e: Extra, rest: seq<Extra>, revision: string, victims: seq<string>)
    requires Walking(ad, k, e, rest) && revision != ""
    ensures var pc := EnterVictims(seen, target, e, rest, revision, victims);
            Applying(pc) && pc.seen == seen && WalksList(ad, k, pc)
  {
    EnterRestShape(ad, k, seen, target, e, rest);
  }

  /** The entry being worked on is one of the adapter's identities. */
  lemma WalkingConforms(ad: Adapter, k: CrKey, e: Extra, rest: seq<Extra>)
    requires Lawful(ad) && Walking(ad, k, e, rest)
    ensures exists i: nat :: Conforms(ad, k, e, i)
  {
    var spec :| TailOfExtras(ad, k, spec, [e] + rest);
    HeadConforms(ad, k, spec, [e] + rest);
  }
}
