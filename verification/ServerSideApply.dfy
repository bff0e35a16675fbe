/** Foreign objects and Server-Side Apply with forced ownership: an object is a map from
    field paths to a value and the managers that own it. */
module ServerSideApply {
  import opened Kinds
  import opened Specs
  import opened Manifests

  datatype OwnedValue = OwnedValue(value: Value, owners: set<Manager>)

  /** One entry of an unstructured status.conditions list; entries that are not objects are
      skipped by every scan. */
  datatype VendorCondition = Malformed | VendorCondition(ctype: string, status: string, reason: string)

  /** An unstructured .status: a path that is absent reads as not found. */
  datatype VendorStatus = VendorStatus(strs: map<string, string>, ints: map<string, int>,
                                       flags: map<string, bool>, conditions: seq<VendorCondition>)

  /** touched records that this operator has applied to this incarnation of the object. */
  datatype Obj = Obj(fields: map<Path, OwnedValue>, pins: set<string>, terminating: bool,
                     touched: bool, selector: map<string, string>, status: VendorStatus)

  const NO_STATUS := VendorStatus(map[], map[], map[], [])
  const ABSENT := Obj(map[], {}, false, false, map[], NO_STATUS)

  /** A field survives an apply if it is applied again or if somebody else has a claim. */
  predicate Survives(fields: map<Path, OwnedValue>, applied: map<Path, Value>, mgr: Manager, p: Path) {
    p in applied || (p in fields && fields[p].owners != {mgr})
  }

  function MergeFields(fields: map<Path, OwnedValue>, applied: map<Path, Value>, mgr: Manager): map<Path, OwnedValue> {
    map p | p in fields.Keys + applied.Keys && Survives(fields, applied, mgr, p) ::
      if p !in applied then OwnedValue(fields[p].value, fields[p].owners - {mgr})
      else if p in fields && fields[p].value == applied[p] then OwnedValue(applied[p], fields[p].owners + {mgr})
      else OwnedValue(applied[p], {mgr})
  }

  /** The object after `mgr` force-applies m onto o. */
  function Merge(o: Obj, m: Manifest, mgr: Manager): Obj {
    o.(fields := MergeFields(o.fields, m.fields, mgr), pins := o.pins + m.pins, touched := true)
  }

  /** The fields a manager owns, with their values. */
  function OwnedBy(o: Obj, mgr: Manager): map<Path, Value> {
    map p | p in o.fields && mgr in o.fields[p].owners :: o.fields[p].value
  }

  /** After an apply the manager owns exactly what it applied, whatever the object was. */
  lemma OwnsExactlyApplied(o: Obj, m: Manifest, mgr: Manager)
    ensures OwnedBy(Merge(o, m, mgr), mgr) == m.fields
  {
    assert forall p :: p in m.fields ==> p in Merge(o, m, mgr).fields;
  }

  /** Forced ownership: the applied value stands, whoever held another, and only those keep a
      claim on the field who had this very value there. */
  lemma TakesByForce(o: Obj, m: Manifest, mgr: Manager, p: Path, other: Manager)
    requires p in m.fields && other != mgr
    ensures p in Merge(o, m, mgr).fields && Merge(o, m, mgr).fields[p].value == m.fields[p]
    ensures other in Merge(o, m, mgr).fields[p].owners <==>
            p in o.fields && other in o.fields[p].owners && o.fields[p].value == m.fields[p]
  {
  }

  /** A path no manifest entry names keeps its value, and loses only this manager's claim,
      as long as somebody else has one. */
  lemma ForeignFieldsKept(o: Obj, m: Manifest, mgr: Manager, p: Path)
    requires p in o.fields && mgr !in o.fields[p].owners && p !in m.fields
    ensures p in Merge(o, m, mgr).fields && Merge(o, m, mgr).fields[p] == o.fields[p]
    ensures Merge(o, m, mgr).status == o.status && Merge(o, m, mgr).terminating == o.terminating
  {
    assert o.fields[p].owners - {mgr} == o.fields[p].owners;
  }

  lemma MergeIdempotent(o: Obj, m: Manifest, mgr: Manager)
    ensures Merge(Merge(o, m, mgr), m, mgr) == Merge(o, m, mgr)
  {
    var once := MergeFields(o.fields, m.fields, mgr);
    var twice := MergeFields(once, m.fields, mgr);
    forall p ensures p in once <==> p in twice
             ensures p in once ==> once[p] == twice[p]
    {
      if p in once && p !in m.fields {
        assert o.fields[p].owners - {mgr} - {mgr} == o.fields[p].owners - {mgr};
      }
      if p in m.fields {
        assert once[p].owners + {mgr} == once[p].owners;
      }
    }
    assert once == twice;
    assert o.pins + m.pins + m.pins == o.pins + m.pins;
  }

  // ---------------------------------------------------------------- histories

  /** What is left of an object's fields once a manager gives up its claims. */
  function Others(o: Obj, mgr: Manager): map<Path, OwnedValue> {
    MergeFields(o.fields, map[], mgr)
  }

  /** Everything about an object but its fields and what an apply sets anew. */
  predicate SameBeside(a: Obj, b: Obj, m: Manifest) {
    a.pins + m.pins == b.pins + m.pins && a.terminating == b.terminating && a.selector == b.selector &&
      a.status == b.status
  }

  /** An apply forgets this manager's history: its result depends on what the others hold
      and on the manifest only. */
  lemma ApplyForgets(o: Obj, other: Obj, m: Manifest, mgr: Manager)
    requires Others(o, mgr) == Others(other, mgr) && SameBeside(o, other, m)
    ensures Merge(o, m, mgr) == Merge(other, m, mgr)
  {
    ViaOthers(o, m, mgr);
    ViaOthers(other, m, mgr);
  }

  lemma ViaOthers(o: Obj, m: Manifest, mgr: Manager)
    ensures MergeFields(o.fields, m.fields, mgr) == MergeFields(Others(o, mgr), m.fields, mgr)
  {
    var direct, via := MergeFields(o.fields, m.fields, mgr), MergeFields(Others(o, mgr), m.fields, mgr);
    forall p ensures p in direct <==> p in via
             ensures p in direct ==> direct[p] == via[p]
    {
      if p in o.fields && o.fields[p].owners != {mgr} {
        assert (o.fields[p].owners - {mgr}) + {mgr} == o.fields[p].owners + {mgr};
        assert o.fields[p].owners - {mgr} - {mgr} == o.fields[p].owners - {mgr};
      }
    }
  }

  /** Nobody but mgr holds a path that m applies. */
  ghost predicate Uncontested(o: Obj, m: Manifest, mgr: Manager) {
    forall p :: p in m.fields && p in o.fields ==> o.fields[p].owners == {mgr}
  }

  /** An apply that contests nobody leaves what the others hold. */
  lemma OthersKept(o: Obj, m: Manifest, mgr: Manager)
    requires Uncontested(o, m, mgr)
    ensures Others(Merge(o, m, mgr), mgr) == Others(o, mgr)
    ensures forall x :: Uncontested(o, x, mgr) ==> Uncontested(Merge(o, m, mgr), x, mgr)
  {
    var before, after := Others(o, mgr), Others(Merge(o, m, mgr), mgr);
    forall p ensures p in before <==> p in after
             ensures p in before ==> before[p] == after[p]
    {
      if p in o.fields && p !in m.fields && o.fields[p].owners != {mgr} {
        assert o.fields[p].owners - {mgr} - {mgr} == o.fields[p].owners - {mgr};
      }
    }
  }

  function MergeAll(o: Obj, history: seq<Manifest>, mgr: Manager): Obj {
    if history == [] then o else Merge(MergeAll(o, history[..|history| - 1], mgr), history[|history| - 1], mgr)
  }

  lemma {:induction false} OthersKeptThroughout(o: Obj, history: seq<Manifest>, mgr: Manager, pins: set<string>)
    requires forall h :: h in history ==> Uncontested(o, h, mgr) && h.pins == pins
    ensures var last := MergeAll(o, history, mgr);
            && Others(last, mgr) == Others(o, mgr) && SameBeside(last, o, Manifest(map[], pins))
            && forall x :: Uncontested(o, x, mgr) ==> Uncontested(last, x, mgr)
    decreases |history|
  {
    if history != [] {
      var earlier, last := history[..|history| - 1], history[|history| - 1];
      assert last in history;
      OthersKeptThroughout(o, earlier, mgr, pins);
      OthersKept(MergeAll(o, earlier, mgr), last, mgr);
    }
  }

  /** History independence of apply: after any sequence of earlier manifests that contested
      nobody, one more apply leaves the object that applying it at once would have left. */
  lemma HistoryForgotten(o: Obj, history: seq<Manifest>, m: Manifest, mgr: Manager)
    requires forall h :: h in history ==> Uncontested(o, h, mgr) && h.pins == m.pins
    ensures Merge(MergeAll(o, history, mgr), m, mgr) == Merge(o, m, mgr)
  {
    OthersKeptThroughout(o, history, mgr, m.pins);
    ApplyForgets(MergeAll(o, history, mgr), o, m, mgr);
  }
}
