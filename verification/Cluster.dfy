/** The API server's store and the calls the engine makes on it. A call is a function from
    the store to the store; whether a call fails for reasons of its own is decided by the
    caller of these functions. */
module Cluster {
  import opened Kinds
  import opened Specs
  import opened Manifests
  import opened ServerSideApply
  import opened Status
  import opened IngressClasses
  import opened Pods

  /** A custom resource as stored. */
  datatype CR = CR(rv: nat, generation: nat, finalizers: set<string>, deleting: bool, spec: Spec, status: CrStatus)

  datatype PvcKey = PvcKey(ns: string, name: string)
  datatype Pvc = Pvc(labels: map<string, string>, pins: set<string>, terminating: bool)

  /** clock is the last resource version handed out, now the wall clock. */
  datatype World = World(crs: map<CrKey, CR>, objs: map<Key, Obj>, pods: seq<Pod>, pvcs: map<PvcKey, Pvc>,
                         classes: seq<IngressClass>, clock: nat, now: nat)

  predicate Live(w: World, key: Key) {
    key in w.objs && !w.objs[key].terminating
  }

  // ---------------------------------------------------------------- foreign objects

  function Applied(w: World, key: Key, m: Manifest, mgr: Manager): Obj {
    Merge(if key in w.objs then w.objs[key] else ABSENT, m, mgr)
  }

  /** An object with finalizers is marked, one without is gone; an absent one is no error. */
  function Deleted(objs: map<Key, Obj>, key: Key): map<Key, Obj> {
    if key !in objs then objs
    else if objs[key].pins == {} then objs - {key}
    else objs[key := objs[key].(terminating := true)]
  }

  // ---------------------------------------------------------------- volume claims

  predicate Backs(key: PvcKey, pvc: Pvc, ns: string, selector: map<string, string>) {
    key.ns == ns && Matches(pvc.labels, selector)
  }

  /** DeleteAllOf: every volume claim of the namespace that carries all the labels. */
  function PvcsDeleted(pvcs: map<PvcKey, Pvc>, ns: string, selector: map<string, string>): map<PvcKey, Pvc> {
    map key | key in pvcs && !(Backs(key, pvcs[key], ns, selector) && pvcs[key].pins == {}) ::
      if Backs(key, pvcs[key], ns, selector) then pvcs[key].(terminating := true) else pvcs[key]
  }

  // ---------------------------------------------------------------- custom resources

  /** An optimistic write is accepted when the stored version is the one that was read. */
  predicate Current(w: World, k: CrKey, seen: CR) {
    k in w.crs && w.crs[k].rv == seen.rv
  }

  /** What an Update with a new set of finalizers stores: the spec goes through the typed
      round trip. */
  function Rewritten(schema: map<Field, Rule>, seen: CR, finalizers: set<string>, rv: nat): CR {
    var spec := Rewrite(schema, seen.spec);
    seen.(finalizers := finalizers, spec := spec, rv := rv,
          generation := if spec == seen.spec then seen.generation else seen.generation + 1)
  }

  /** A resource marked for deletion disappears with its last finalizer. */
  function Stored(crs: map<CrKey, CR>, k: CrKey, cr: CR): map<CrKey, CR> {
    if cr.deleting && cr.finalizers == {} then crs - {k} else crs[k := cr]
  }

  // ---------------------------------------------------------------- requests

  /** The calls the engine makes. Observe stands for Get and List. */
  datatype Request =
    | Observe
    | Apply(key: Key, m: Manifest, mgr: Manager)
    | Delete(key: Key)
    | DeletePod(ns: string, name: string)
    | DeletePvcs(ns: string, selector: map<string, string>)
    | Update(k: CrKey, seen: CR, finalizers: set<string>, schema: map<Field, Rule>)
    | UpdateStatus(k: CrKey, seen: CR, status: CrStatus)

  /** A manifest that would create a StatefulSet is refused: the engine's patches lack the
      selector and the containers such an object requires. Stale writes are refused. */
  predicate Accepted(w: World, r: Request) {
    match r
    case Apply(key, _, _) => key.gvk == StatefulSet ==> key in w.objs
    case Update(k, seen, _, _) => Current(w, k, seen)
    case UpdateStatus(k, seen, _) => Current(w, k, seen)
    case _ => true
  }

  /** The store after a request; a status write that changes nothing is no write. */
  function Serve(w: World, r: Request): World
    requires Accepted(w, r)
  {
    match r
    case Observe => w
    case Apply(key, m, mgr) => w.(objs := w.objs[key := Applied(w, key, m, mgr)])
    case Delete(key) => w.(objs := Deleted(w.objs, key))
    case DeletePod(ns, name) => w.(pods := PodDeleted(w.pods, ns, name))
    case DeletePvcs(ns, selector) => w.(pvcs := PvcsDeleted(w.pvcs, ns, selector))
    case Update(k, seen, finalizers, schema) =>
      w.(crs := Stored(w.crs, k, Rewritten(schema, seen, finalizers, w.clock + 1)), clock := w.clock + 1)
    case UpdateStatus(k, seen, status) =>
      if status == w.crs[k].status then w
      else w.(crs := w.crs[k := w.crs[k].(status := status, rv := w.clock + 1)], clock := w.clock + 1)
  }
}
