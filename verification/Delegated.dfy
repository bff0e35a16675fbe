/** Names this operator chooses for objects it leaves to vendor operators: a manifest names
    them, the vendor creates them. Together with the managed keys they are all the names a
    custom resource puts into its namespace. */
module Delegated {
  import opened Kinds
  import opened Specs
  import opened Manifests
  import opened Naming
  import Adapters
  import opened Footprint

  function DelegatedIds(kind: Kind): seq<ExtraId> {
    match kind
    case Postgres => [ExtraId(Service, "-external", false)]
    case MariaDB => [ExtraId(Secret, "-mariadb-app", false), ExtraId(Secret, "-mariadb-root", false)]
    case MongoDB => [ExtraId(Secret, "-psmdb-secrets", false)]
    case _ => []
  }

  ghost predicate Delegates(k: CrKey, key: Key) {
    exists id :: id in DelegatedIds(k.kind) && key == IdKey(k, id)
  }

  /** k has this operator write the object, or has a vendor create it under this name. */
  ghost predicate Names(k: CrKey, key: Key) {
    Manages(ExtraIds(k.kind), k, key) || Delegates(k, key)
  }

  function ExternalKey(ns: string, name: string): Key {
    Key(Service, ns, name + "-external")
  }

  /** The keys two different resources of one name have in common. */
  ghost predicate SharedKey(a: CrKey, b: CrKey, key: Key) {
    || (key == Key(GrafanaDashboard, a.ns, a.name + "-dashboard") &&
        Emits(a.kind, GrafanaDashboard) && Emits(b.kind, GrafanaDashboard))
    || (key == Key(PodMonitor, a.ns, a.name + "-podmonitor") && Emits(a.kind, PodMonitor) && Emits(b.kind, PodMonitor))
    || (key == ExternalKey(a.ns, a.name) && {a.kind, b.kind} == {Postgres, Valkey})
  }

  lemma DelegatedTable(kind: Kind, id: ExtraId)
    requires id in DelegatedIds(kind)
    ensures || (kind == Postgres && id.gvk == Service && id.suffix == "-external")
            || (kind == MariaDB && id.gvk == Secret && id.suffix in {"-mariadb-app", "-mariadb-root"})
            || (kind == MongoDB && id.gvk == Secret && id.suffix == "-psmdb-secrets")
  {
  }

  lemma SecretTailsApart()
    ensures Apart("-mariadb-app", "-mariadb-root") && Apart("-mariadb-root", "-mariadb-app")
    ensures Apart("-mariadb-app", "-psmdb-secrets") && Apart("-psmdb-secrets", "-mariadb-app")
    ensures Apart("-mariadb-root", "-psmdb-secrets") && Apart("-psmdb-secrets", "-mariadb-root")
  {
    var app, root, users := "-mariadb-app", "-mariadb-root", "-psmdb-secrets";
    assert FromEnd(app, 1) == 'p' && FromEnd(root, 1) == 't' && FromEnd(users, 1) == 's';
  }

  /** Delegated names never meet: each suffix belongs to one kind. */
  lemma DelegatedApart(a: CrKey, b: CrKey, key: Key)
    requires Delegates(a, key) && Delegates(b, key)
    ensures a == b
  {
    var id1 :| id1 in DelegatedIds(a.kind) && key == IdKey(a, id1);
    var id2 :| id2 in DelegatedIds(b.kind) && key == IdKey(b, id2);
    DelegatedTable(a.kind, id1);
    DelegatedTable(b.kind, id2);
    SecretTailsApart();
    if Apart(id1.suffix, id2.suffix) {
      ApartNamesDiffer(a.name, id1.suffix, b.name, id2.suffix);
    } else {
      SuffixCancels(a.name, b.name, id1.suffix);
    }
  }

  /** A managed name meets a delegated one in one case only. */
  lemma ManagedMeetsDelegated(a: CrKey, b: CrKey, key: Key)
    requires Manages(ExtraIds(a.kind), a, key) && Delegates(b, key)
    ensures a == CrKey(Valkey, b.ns, b.name) && b.kind == Postgres && key == ExternalKey(b.ns, b.name)
  {
    var id2 :| id2 in DelegatedIds(b.kind) && key == IdKey(b, id2);
    DelegatedTable(b.kind, id2);
    var id1 :| id1 in ExtraIds(a.kind) && key == IdKey(a, id1);
    SuffixTable(a.kind, id1);
    TailsApart();
    if id1.suffix == "-web" {
      ApartNamesDiffer(a.name, id1.suffix, b.name, id2.suffix);
    } else {
      SuffixCancels(a.name, b.name, id1.suffix);
    }
  }

  lemma ManagedMeetsManaged(a: CrKey, b: CrKey, key: Key)
    requires a != b && Manages(ExtraIds(a.kind), a, key) && Manages(ExtraIds(b.kind), b, key)
    ensures SharedKey(a, b, key)
  {
    CommonKey(a, b, key);
    var id :| id in ExtraIds(a.kind) && key == IdKey(a, id);
    SuffixTable(a.kind, id);
  }

  lemma EmittedIsManaged(k: CrKey, gvk: Gvk)
    requires gvk in {GrafanaDashboard, PodMonitor} && Emits(k.kind, gvk)
    ensures var suffix := if gvk == PodMonitor then "-podmonitor" else "-dashboard";
            Manages(ExtraIds(k.kind), k, Key(gvk, k.ns, k.name + suffix))
  {
    var id :| id in ExtraIds(k.kind) && id.gvk == gvk;
    SuffixTable(k.kind, id);
    assert Manages(ExtraIds(k.kind), k, IdKey(k, id));
  }

  lemma ExternalIsNamed(k: CrKey)
    requires k.kind in {Postgres, Valkey}
    ensures Names(k, ExternalKey(k.ns, k.name))
  {
    if k.kind == Postgres {
      assert DelegatedIds(Postgres)[0] in DelegatedIds(Postgres);
    } else {
      assert ExtraIds(Valkey)[0] in ExtraIds(Valkey);
    }
  }

  /** All collisions of names, over all names and all pairs of kinds, managed and delegated:
      two different resources name one object if and only if they are of one name in one
      namespace and different kinds, and it is a dashboard both emit, a PodMonitor both emit,
      or the external Service of a PostgresCluster and a ValkeyCluster. */
  lemma CommonNameExactly(a: CrKey, b: CrKey, key: Key)
    requires a != b
    ensures Names(a, key) && Names(b, key) <==>
            a.ns == b.ns && a.name == b.name && a.kind != b.kind && SharedKey(a, b, key)
  {
    if Names(a, key) && Names(b, key) {
      if Delegates(a, key) && Delegates(b, key) {
        DelegatedApart(a, b, key);
      } else if Delegates(a, key) {
        ManagedMeetsDelegated(b, a, key);
      } else if Delegates(b, key) {
        ManagedMeetsDelegated(a, b, key);
      } else {
        CommonKey(a, b, key);
        ManagedMeetsManaged(a, b, key);
      }
    }
    if a.ns == b.ns && a.name == b.name && a.kind != b.kind && SharedKey(a, b, key) {
      if key == ExternalKey(a.ns, a.name) {
        ExternalIsNamed(a);
        ExternalIsNamed(b);
      } else {
        EmittedIsManaged(a, key.gvk);
        EmittedIsManaged(b, key.gvk);
      }
    }
  }
}
