/** The vocabulary shared by the whole model: the custom resource kinds this operator
    serves, the foreign object kinds it writes, and the keys under which the API server
    stores both. */
module Kinds {

  datatype Option<+T> = None | Some(value: T)

  /** One constructor per paas custom resource kind, that is, per adapter. */
  datatype Kind =
    | Postgres | MariaDB | Valkey | RabbitMQ | Kafka | MongoDB
    | Grafana | Prometheus | Loki | Alloy

  /** A group/version/kind triple. Triples that differ in the source are different
      constructors here. */
  datatype Gvk =
    | Target(kind: Kind)
    | GrafanaDashboard
    | GrafanaDatasource
    | PodMonitor
    | ServiceMonitor
    | KafkaNodePool
    | Ingress
    | Service
    | ServiceAccount
    | Role
    | RoleBinding
    | StatefulSet
    | Secret

  /** The key of a foreign object. */
  datatype Key = Key(gvk: Gvk, ns: string, name: string)

  /** The key of a custom resource. */
  datatype CrKey = CrKey(kind: Kind, ns: string, name: string)

  /** The field manager under which a field of a foreign object was last applied. */
  datatype Manager = Operator(kind: Kind) | Vendor(name: string)

  const FINALIZER := "paas.cncp.nl/cleanup"

  /** Every adapter maps a custom resource onto a target of the same name. */
  function TargetName(crName: string): string {
    crName
  }

  function TargetKey(k: CrKey): Key {
    Key(Target(k.kind), k.ns, TargetName(k.name))
  }
}
