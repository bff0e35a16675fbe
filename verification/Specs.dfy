/** Stored specs, the typed view the operator has of them, and the effect of a typed write:
    a client that decodes a spec into Go structs and writes it back elides zero values, and
    the API server then applies the schema defaults again. */
module Specs {
  import opened Kinds

  datatype Field =
    | Instances | Shards | Replicas | Image | Version | Retention | Size
    | StorageClassName | ObjectStorage | Storage | Persistence | Database
    | Resources | EnablePodMonitor | IngressField | Expose
    | PrometheusRef | LokiRef | LokiInstanceRef

  datatype IngressSpec = IngressSpec(host: string, className: string, tlsSecret: string,
                                     annotations: map<string, string>)

  /** Null is the zero of pointer and struct fields; Opaque is a struct the model does not
      look into. */
  datatype Value =
    | Null
    | Int(i: int)
    | Bool(b: bool)
    | Str(s: string)
    | IngressValue(ingress: IngressSpec)
    | Labels(labels: map<string, string>)
    | Opaque(content: string)

  /** A spec as stored: absent fields are absent. */
  type Spec = map<Field, Value>

  /** What the Go type and the schema say of one field: its zero value, whether encoding
      elides that zero, the schema default, and whether validation admits the zero. */
  datatype Rule = Rule(zero: Value, omit: bool, default: Option<Value>, admitsZero: bool)

  function Optional(zero: Value): Rule { Rule(zero, true, None, true) }
  function Required(zero: Value): Rule { Rule(zero, false, None, false) }
  function Defaulted(zero: Value, default: Value, admitsZero: bool): Rule {
    Rule(zero, true, Some(default), admitsZero)
  }
  function Struct(): Rule { Rule(Null, true, None, false) }

  /** enablePodMonitor with its parent block: the parent defaults to {} and the field to
      true, so the two together behave as one defaulted field. */
  function Monitoring(): Rule { Defaulted(Bool(false), Bool(true), true) }

  function Schema(kind: Kind): map<Field, Rule> {
    match kind
    case Postgres => map[
      Instances := Defaulted(Int(0), Int(1), false), Image := Optional(Str("")),
      Storage := Required(Null), Database := Required(Null), Resources := Struct(),
      EnablePodMonitor := Monitoring(), Expose := Struct()]
    case MariaDB => map[
      Replicas := Defaulted(Int(0), Int(1), false), Image := Optional(Str("")),
      Storage := Required(Null), Database := Required(Null), Resources := Struct(),
      EnablePodMonitor := Monitoring(), Expose := Struct()]
    case Valkey => map[
      Shards := Defaulted(Int(0), Int(1), false), Replicas := Defaulted(Int(0), Int(0), true),
      Image := Optional(Str("")), Persistence := Required(Null), Resources := Struct(),
      EnablePodMonitor := Monitoring(), Expose := Struct()]
    case RabbitMQ => map[
      Replicas := Defaulted(Int(0), Int(1), false), Image := Optional(Str("")),
      Storage := Required(Null), Resources := Struct(), IngressField := Struct(),
      EnablePodMonitor := Monitoring(), Expose := Struct()]
    case Kafka => map[
      Replicas := Defaulted(Int(0), Int(3), false), Version := Optional(Str("")),
      Storage := Required(Null), Resources := Struct(),
      EnablePodMonitor := Monitoring(), Expose := Struct()]
    case MongoDB => map[
      Replicas := Defaulted(Int(0), Int(3), false),
      Image := Defaulted(Str(""), Str("percona/percona-server-mongodb:8.0.26-11"), true),
      Storage := Required(Null), Resources := Struct(),
      EnablePodMonitor := Monitoring(), Expose := Struct()]
    case Grafana => map[
      Version := Optional(Str("")), Replicas := Defaulted(Int(0), Int(1), true),
      Persistence := Struct(), IngressField := Struct(), Expose := Struct(),
      PrometheusRef := Required(Str("")), LokiRef := Optional(Str(""))]
    case Prometheus => map[
      Version := Optional(Str("")), Replicas := Defaulted(Int(0), Int(1), true),
      Retention := Optional(Str("")), Storage := Struct(), Resources := Struct(),
      IngressField := Struct(), Expose := Struct()]
    case Loki => map[
      Size := Defaulted(Str(""), Str("1x.demo"), false),
      StorageClassName := Required(Str("")), ObjectStorage := Required(Null)]
    case Alloy => map[
      LokiInstanceRef := Required(Str("")), Replicas := Defaulted(Int(0), Int(1), false)]
  }

  /** The typed view: what the adapters see of a field. */
  function ReadBy(schema: map<Field, Rule>, spec: Spec, f: Field): Value {
    if f in spec then spec[f] else if f in schema then schema[f].zero else Null
  }

  /** Encoding a typed spec: zero values of omitempty/omitzero fields disappear. */
  function Elide(schema: map<Field, Rule>, spec: Spec): Spec {
    map f | f in schema && (!schema[f].omit || ReadBy(schema, spec, f) != schema[f].zero)
      :: ReadBy(schema, spec, f)
  }

  /** What the API server stores for a submitted spec: unknown fields pruned, absent
      defaulted fields filled in. */
  function Default(schema: map<Field, Rule>, spec: Spec): Spec {
    map f | f in schema && (f in spec || schema[f].default.Some?)
      :: if f in spec then spec[f] else schema[f].default.value
  }

  function Rewrite(schema: map<Field, Rule>, spec: Spec): Spec {
    Default(schema, Elide(schema, spec))
  }

  function Read(kind: Kind, spec: Spec, f: Field): Value {
    ReadBy(Schema(kind), spec, f)
  }

  /** The spec stored after a client reads `spec` into the Go type and updates the object. */
  function TypedWrite(kind: Kind, spec: Spec): Spec {
    Rewrite(Schema(kind), spec)
  }

  /** A spec the API server can hold: defaulted already, and no zero where validation
      rejects one. */
  ghost predicate Admitted(kind: Kind, spec: Spec) {
    && Default(Schema(kind), spec) == spec
    && forall f :: f in spec && f in Schema(kind) && spec[f] == Schema(kind)[f].zero ==> Schema(kind)[f].admitsZero
  }

  /** The fields on which a zero value is admitted although the default is not zero. */
  predicate LosesZero(kind: Kind, f: Field) {
    || (f == EnablePodMonitor && kind in {Postgres, MariaDB, Valkey, RabbitMQ, Kafka, MongoDB})
    || (f == Replicas && kind in {Grafana, Prometheus})
    || (f == Image && kind == MongoDB)
  }

  lemma RewriteIdempotent(schema: map<Field, Rule>, spec: Spec)
    ensures Rewrite(schema, Rewrite(schema, spec)) == Rewrite(schema, spec)
  {
    var once := Rewrite(schema, spec);
    var twice := Rewrite(schema, once);
    forall f | f in schema
      ensures f in once <==> f in twice
      ensures f in once ==> once[f] == twice[f]
    {
      assert f in Elide(schema, spec) <==> (!schema[f].omit || ReadBy(schema, spec, f) != schema[f].zero);
    }
  }

  lemma TypedWriteIdempotent(kind: Kind, spec: Spec)
    ensures TypedWrite(kind, TypedWrite(kind, spec)) == TypedWrite(kind, spec)
  {
    RewriteIdempotent(Schema(kind), spec);
  }

  /** On any schema and any spec: a typed write changes the typed value of a field exactly
      when that value is an elided zero which a non-zero default replaces. */
  lemma FlipsExactly(schema: map<Field, Rule>, spec: Spec, f: Field)
    requires f in schema
    ensures ReadBy(schema, Rewrite(schema, spec), f) != ReadBy(schema, spec, f) <==>
            (schema[f].omit && ReadBy(schema, spec, f) == schema[f].zero &&
             schema[f].default.Some? && schema[f].default.value != schema[f].zero)
  {
    assert f in Elide(schema, spec) <==> (!schema[f].omit || ReadBy(schema, spec, f) != schema[f].zero);
  }

  /** A rule under which a zero can be stored and is lost by a typed write. */
  predicate Lossy(rule: Rule) {
    rule.omit && rule.admitsZero && rule.default.Some? && rule.default.value != rule.zero
  }

  lemma MongoDBTable(f: Field)
    requires f in Schema(MongoDB)
    ensures LosesZero(MongoDB, f) <==> Lossy(Schema(MongoDB)[f])
  {
    assert Schema(MongoDB)[Image].default.value.s[0] == 'p';
  }

  lemma LosesZeroTable(kind: Kind, f: Field)
    requires f in Schema(kind)
    ensures LosesZero(kind, f) <==> Lossy(Schema(kind)[f])
  {
    match kind
    case Postgres | MariaDB | Valkey | RabbitMQ =>
    case Kafka | Grafana | Prometheus =>
    case MongoDB => MongoDBTable(f);
    case Loki | Alloy =>
  }

  /** The main result on typed writes: on every spec the API server can hold, adding or
      removing a finalizer through a typed Update preserves everything the adapters read
      if and only if none of the listed fields holds an explicit zero. */
  lemma TypedWritePreserves(kind: Kind, spec: Spec)
    requires Admitted(kind, spec)
    ensures (forall f :: f in Schema(kind) ==> Read(kind, TypedWrite(kind, spec), f) == Read(kind, spec, f)) <==>
            (forall f :: f in spec && LosesZero(kind, f) ==> spec[f] != Schema(kind)[f].zero)
  {
    var schema := Schema(kind);
    forall f | f in schema
      ensures Read(kind, TypedWrite(kind, spec), f) != Read(kind, spec, f) <==>
              (f in spec && LosesZero(kind, f) && spec[f] == schema[f].zero)
    {
      FlipsExactly(schema, spec, f);
      LosesZeroTable(kind, f);
      assert f in Default(schema, spec) <==> (f in spec || schema[f].default.Some?);
    }
    assert forall f :: f in spec ==> f in Default(schema, spec) && f in schema;
  }

  /** What the API server fills in when a spec leaves a field out. */
  function FilledIn(kind: Kind, f: Field): Option<Value> {
    match f
    case Instances | Shards => Some(Int(1))
    case Replicas => Some(Int(if kind in {Kafka, MongoDB} then 3 else if kind == Valkey then 0 else 1))
    case Image => if kind == MongoDB then Some(Str("percona/percona-server-mongodb:8.0.26-11")) else None
    case Size => Some(Str("1x.demo"))
    case EnablePodMonitor => Some(Bool(true))
    case _ => None
  }

  lemma SqlDefaults(kind: Kind, f: Field)
    requires kind in {Postgres, MariaDB} && f in Schema(kind)
    ensures Schema(kind)[f].default == FilledIn(kind, f)
  {
  }

  lemma BrokerDefaults(kind: Kind, f: Field)
    requires kind in {Valkey, RabbitMQ, Kafka} && f in Schema(kind)
    ensures Schema(kind)[f].default == FilledIn(kind, f)
  {
  }

  lemma MongoDBDefaults(f: Field)
    requires f in Schema(MongoDB)
    ensures Schema(MongoDB)[f].default == FilledIn(MongoDB, f)
  {
  }

  lemma MetricsDefaults(kind: Kind, f: Field)
    requires kind in {Grafana, Prometheus} && f in Schema(kind)
    ensures Schema(kind)[f].default == FilledIn(kind, f)
  {
  }

  lemma LogDefaults(kind: Kind, f: Field)
    requires kind in {Loki, Alloy} && f in Schema(kind)
    ensures Schema(kind)[f].default == FilledIn(kind, f)
  {
  }

  lemma DefaultsTable(kind: Kind, f: Field)
    requires f in Schema(kind)
    ensures Schema(kind)[f].default == FilledIn(kind, f)
  {
    match kind
    case Postgres | MariaDB => SqlDefaults(kind, f);
    case Valkey | RabbitMQ | Kafka => BrokerDefaults(kind, f);
    case MongoDB => MongoDBDefaults(f);
    case Grafana | Prometheus => MetricsDefaults(kind, f);
    case Loki | Alloy => LogDefaults(kind, f);
  }

  /** A field that a stored spec leaves out has, after a typed write, the default of its kind. */
  lemma AbsentFieldsFilled(kind: Kind, spec: Spec, f: Field)
    requires f in Schema(kind) && f !in spec && Schema(kind)[f].omit && FilledIn(kind, f).Some?
    ensures f in TypedWrite(kind, spec) && TypedWrite(kind, spec)[f] == FilledIn(kind, f).value
  {
    DefaultsTable(kind, f);
    assert f !in Elide(Schema(kind), spec);
  }

  /** The failing family is not empty: a cluster created with monitoring switched off has
      monitoring switched back on by the Update that adds the finalizer. */
  lemma MonitoringSwitchedBackOn()
    ensures var spec := map[Instances := Int(1), Storage := Opaque("10Gi"), Database := Opaque("app"),
                            EnablePodMonitor := Bool(false)];
            Admitted(Postgres, spec) &&
            Read(Postgres, spec, EnablePodMonitor) == Bool(false) &&
            Read(Postgres, TypedWrite(Postgres, spec), EnablePodMonitor) == Bool(true)
  {
    var spec: Spec := map[Instances := Int(1), Storage := Opaque("10Gi"), Database := Opaque("app"),
                          EnablePodMonitor := Bool(false)];
    assert Default(Schema(Postgres), spec) == spec;
    assert EnablePodMonitor !in Elide(Schema(Postgres), spec);
  }
}
