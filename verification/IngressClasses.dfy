/** Resolving the cluster's default IngressClass. */
module IngressClasses {
  datatype IngressClass = IngressClass(name: string, annotations: map<string, string>)

  const DEFAULT_CLASS := "ingressclass.kubernetes.io/is-default-class"

  predicate IsDefault(c: IngressClass) {
    DEFAULT_CLASS in c.annotations && c.annotations[DEFAULT_CLASS] == "true"
  }

  /** The listed classes annotated as default, in list order. */
  function Defaults(classes: seq<IngressClass>): seq<IngressClass> {
    if classes == [] then []
    else (if IsDefault(classes[0]) then [classes[0]] else []) + Defaults(classes[1..])
  }

  /** The name of the only default class, or "" when there is none or more than one. */
  function Resolved(classes: seq<IngressClass>): string {
    if |Defaults(classes)| == 1 then Defaults(classes)[0].name else ""
  }

  lemma {:induction false} DefaultsSplit(a: seq<IngressClass>, b: seq<IngressClass>)
    ensures Defaults(a + b) == Defaults(a) + Defaults(b)
  {
    if a == [] {
      assert a + b == b;
    } else {
      assert (a + b)[1..] == a[1..] + b;
      DefaultsSplit(a[1..], b);
    }
  }

  /** The engine's loop: remember the first default, give up at the second. The API server
      serves no class without a name. */
  method ResolveDefaultIngressClass(classes: seq<IngressClass>) returns (resolved: string)
    requires forall c :: c in classes ==> c.name != ""
    ensures resolved == Resolved(classes)
  {
    resolved := "";
    for i := 0 to |classes|
      invariant |Defaults(classes[..i])| <= 1
      invariant resolved == Resolved(classes[..i])
      invariant resolved == "" <==> Defaults(classes[..i]) == []
    {
      var ic := classes[i];
      assert classes[..i + 1] == classes[..i] + [ic];
      DefaultsSplit(classes[..i], [ic]);
      assert Defaults([ic]) == if IsDefault(ic) then [ic] else [];
      DefaultsMembers(classes[..i]);
      if !IsDefault(ic) {
        continue;
      }
      if resolved != "" {
        assert classes == classes[..i + 1] + classes[i + 1..];
        DefaultsSplit(classes[..i + 1], classes[i + 1..]);
        return "";
      }
      resolved := ic.name;
    }
    assert classes[..|classes|] == classes;
  }

  lemma {:induction false} DefaultsMembers(classes: seq<IngressClass>)
    ensures forall c :: c in Defaults(classes) <==> c in classes && IsDefault(c)
  {
    if classes != [] {
      DefaultsMembers(classes[1..]);
      assert classes == [classes[0]] + classes[1..];
    }
  }

  lemma {:induction false} DefaultsMultiset(classes: seq<IngressClass>, c: IngressClass)
    ensures multiset(Defaults(classes))[c] == if IsDefault(c) then multiset(classes)[c] else 0
  {
    if classes != [] {
      assert classes == [classes[0]] + classes[1..];
      DefaultsMultiset(classes[1..], c);
    }
  }

  predicate Annotated(c: IngressClass) {
    "ingressclass.kubernetes.io/is-default-class" in c.annotations &&
    c.annotations["ingressclass.kubernetes.io/is-default-class"] == "true"
  }

  /** The class at i is annotated as the default, and no other is. */
  ghost predicate OnlyDefault(classes: seq<IngressClass>, i: int) {
    0 <= i < |classes| && Annotated(classes[i]) && forall j :: 0 <= j < |classes| && Annotated(classes[j]) ==> j == i
  }

  /** The set specification: a name is resolved if and only if one class carries it, is
      annotated as default, and no other listed class is. */
  lemma ResolvedExactly(classes: seq<IngressClass>, name: string)
    requires forall c :: c in classes ==> c.name != ""
    ensures (name != "" && Resolved(classes) == name) <==>
            (exists i :: OnlyDefault(classes, i) && classes[i].name == name)
  {
    DefaultsMembers(classes);
    assert forall c :: Annotated(c) <==> IsDefault(c);
    if i :| OnlyDefault(classes, i) && classes[i].name == name {
      assert classes == classes[..i] + [classes[i]] + classes[i + 1..];
      DefaultsSplit(classes[..i] + [classes[i]], classes[i + 1..]);
      DefaultsSplit(classes[..i], [classes[i]]);
      NoneDefault(classes[..i]);
      NoneDefault(classes[i + 1..]);
      assert Defaults([classes[i]]) == [classes[i]];
      assert classes[i] in classes;
    }
    if name != "" && Resolved(classes) == name {
      var c := Defaults(classes)[0];
      assert c in Defaults(classes);
      var i :| 0 <= i < |classes| && classes[i] == c;
      forall j | 0 <= j < |classes| && IsDefault(classes[j]) ensures j == i {
        if j < i {
          TwoDefaults(classes, j, i);
        } else if i < j {
          TwoDefaults(classes, i, j);
        }
      }
      assert OnlyDefault(classes, i);
    }
  }

  /** Nothing is resolved if and only if there is no such class. */
  lemma NothingResolved(classes: seq<IngressClass>)
    requires forall c :: c in classes ==> c.name != ""
    ensures Resolved(classes) == "" <==> forall i :: !OnlyDefault(classes, i)
  {
    ResolvedExactly(classes, Resolved(classes));
    if i :| OnlyDefault(classes, i) {
      ResolvedExactly(classes, classes[i].name);
      assert classes[i] in classes;
    }
  }

  lemma NoneDefault(classes: seq<IngressClass>)
    requires forall c :: c in classes ==> !IsDefault(c)
    ensures Defaults(classes) == []
  {
    DefaultsMembers(classes);
    if Defaults(classes) != [] {
      assert Defaults(classes)[0] in Defaults(classes);
    }
  }

  lemma TwoDefaults(classes: seq<IngressClass>, i: nat, j: nat)
    requires i < j < |classes| && IsDefault(classes[i]) && IsDefault(classes[j])
    ensures |Defaults(classes)| >= 2
  {
    assert classes == classes[..j] + classes[j..];
    DefaultsSplit(classes[..j], classes[j..]);
    DefaultsMembers(classes[..j]);
    DefaultsMembers(classes[j..]);
    assert classes[i] in classes[..j] && classes[j] in classes[j..];
  }

  /** The order in which the API server lists the classes does not matter. */
  lemma ListOrderIrrelevant(classes: seq<IngressClass>, reordered: seq<IngressClass>)
    requires multiset(classes) == multiset(reordered)
    ensures Resolved(classes) == Resolved(reordered)
  {
    var a, b := Defaults(classes), Defaults(reordered);
    forall c ensures multiset(a)[c] == multiset(b)[c] {
      DefaultsMultiset(classes, c);
      DefaultsMultiset(reordered, c);
    }
    assert multiset(a) == multiset(b);
    assert |a| == |multiset(a)| == |multiset(b)| == |b|;
    if |a| == 1 {
      assert a[0] in multiset(a) && a[0] in multiset(b);
      assert a[0] in b;
    }
  }
}
