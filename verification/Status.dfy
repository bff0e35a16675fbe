/** Reading a target's status and mirroring it onto the custom resource. */
module Status {
  import opened Kinds
  import opened Specs
  import opened Manifests
  import opened ServerSideApply

  // ---------------------------------------------------------------- extracting

  datatype TargetStatus = TargetStatus(phase: string, ready: bool, observed: int, readyCount: int)

  /** The int32 conversion of an int64 wraps. */
  function Int32(i: int): int {
    (i + 0x8000_0000) % 0x1_0000_0000 - 0x8000_0000
  }

  /** Within the range of an int32 it is the identity, and it always is a value of that range
      that differs by a multiple of the word. */
  lemma Int32Wraps(i: int)
    ensures -0x8000_0000 <= Int32(i) < 0x8000_0000 && (Int32(i) - i) % 0x1_0000_0000 == 0
    ensures -0x8000_0000 <= i < 0x8000_0000 ==> Int32(i) == i
  {
  }

  function IntAt(s: VendorStatus, key: string): int {
    if key in s.ints then s.ints[key] else 0
  }

  function StringOr(s: VendorStatus, key: string, otherwise: string): string {
    if key in s.strs && s.strs[key] != "" then s.strs[key] else otherwise
  }

  /** A replica count read back from the merged object's own spec. */
  function SpecInt(o: Obj, f: Field): Option<int> {
    if Copied(f) in o.fields && o.fields[Copied(f)].value.Int? then Some(o.fields[Copied(f)].value.i) else None
  }

  /** The first well-formed condition of the given type decides. */
  function FirstCondition(conditions: seq<VendorCondition>, ctype: string): Option<VendorCondition> {
    if conditions == [] then None
    else if conditions[0].VendorCondition? && conditions[0].ctype == ctype then Some(conditions[0])
    else FirstCondition(conditions[1..], ctype)
  }

  predicate IsOfType(c: VendorCondition, ctype: string) {
    c.VendorCondition? && c.ctype == ctype
  }

  predicate FirstAt(conditions: seq<VendorCondition>, ctype: string, i: int) {
    && 0 <= i < |conditions| && IsOfType(conditions[i], ctype)
    && forall j :: 0 <= j < i ==> !IsOfType(conditions[j], ctype)
  }

  lemma FirstAtInRest(conditions: seq<VendorCondition>, ctype: string, i: int)
    requires conditions != [] && !IsOfType(conditions[0], ctype)
    ensures FirstAt(conditions, ctype, i) <==> FirstAt(conditions[1..], ctype, i - 1)
  {
    var rest := conditions[1..];
    if FirstAt(rest, ctype, i - 1) {
      assert forall j :: 0 < j < i ==> conditions[j] == rest[j - 1];
    }
    if FirstAt(conditions, ctype, i) {
      assert forall j :: 0 <= j < i - 1 ==> rest[j] == conditions[j + 1];
    }
  }

  /** It is the entry at the lowest index that is of the type; there is none only if no entry is. */
  lemma {:induction false} FirstConditionExactly(conditions: seq<VendorCondition>, ctype: string)
    ensures match FirstCondition(conditions, ctype)
            case Some(c) => exists i :: FirstAt(conditions, ctype, i) && conditions[i] == c
            case None => forall i :: !FirstAt(conditions, ctype, i)
  {
    if conditions != [] {
      if IsOfType(conditions[0], ctype) {
        assert FirstAt(conditions, ctype, 0);
      } else {
        var rest := conditions[1..];
        FirstConditionExactly(rest, ctype);
        forall i ensures FirstAt(conditions, ctype, i) <==> FirstAt(rest, ctype, i - 1) {
          FirstAtInRest(conditions, ctype, i);
        }
        if i :| FirstAt(rest, ctype, i) {
          assert FirstAt(conditions, ctype, i + 1);
        }
      }
    }
  }

  function ReasonOf(c: Option<VendorCondition>): string {
    if c.Some? && c.value.VendorCondition? && c.value.reason != "" then c.value.reason else "Unknown"
  }

  predicate IsTrue(c: Option<VendorCondition>) {
    c.Some? && c.value.VendorCondition? && c.value.status == "True"
  }

  function CountStatus(phase: string, observed: int, ready: int): TargetStatus {
    TargetStatus(phase, Int32(observed) > 0 && Int32(ready) >= Int32(observed), Int32(observed), Int32(ready))
  }

  /** Readiness by condition, the count derived from it. */
  function ConditionCountStatus(c: Option<VendorCondition>, replicas: int): TargetStatus {
    var observed := Int32(replicas);
    TargetStatus(ReasonOf(c), IsTrue(c) && observed > 0, observed, if IsTrue(c) then observed else 0)
  }

  function ConditionStatus(c: Option<VendorCondition>): TargetStatus {
    TargetStatus(ReasonOf(c), IsTrue(c), 0, 0)
  }

  function ExtractStatus(kind: Kind, o: Obj): TargetStatus {
    var s := o.status;
    match kind
    case Postgres => CountStatus(StringOr(s, "phase", "Unknown"), IntAt(s, "instances"), IntAt(s, "readyInstances"))
    case Valkey => CountStatus(StringOr(s, "state", "Unknown"), IntAt(s, "shards"), IntAt(s, "readyShards"))
    case MongoDB => CountStatus(StringOr(s, "state", "Unknown"), IntAt(s, "size"), IntAt(s, "ready"))
    case Prometheus =>
      var observed := IntAt(s, "replicas");
      var phase := if "paused" in s.flags && s.flags["paused"] then "Paused"
                   else if Int32(observed) > 0 then "Progressing" else "Unknown";
      CountStatus(phase, observed, IntAt(s, "availableReplicas"))
    case MariaDB => ConditionCountStatus(FirstCondition(s.conditions, "Ready"), IntAt(s, "replicas"))
    case RabbitMQ =>
      var replicas := SpecInt(o, Replicas);
      ConditionCountStatus(FirstCondition(s.conditions, "AllReplicasReady"),
                           if replicas.Some? then replicas.value else 0)
    case Grafana =>
      var stage := StringOr(s, "stage", "Unknown");
      var stageStatus := if "stageStatus" in s.strs then s.strs["stageStatus"] else "";
      var desired := SpecInt(o, Replicas);
      TargetStatus(stage + "/" + stageStatus, stage == "complete" && stageStatus == "success",
                   Int32(if desired.Some? then desired.value else 1), Int32(IntAt(s, "replicas")))
    case Kafka | Loki => ConditionStatus(FirstCondition(s.conditions, "Ready"))
    case Alloy => ConditionStatus(FirstCondition(s.conditions, "Deployed"))
  }

  /** The scan the MariaDB and RabbitMQ adapters make: flags updated as it goes, stopping at
      the first condition of the type. */
  method ScanConditions(conditions: seq<VendorCondition>, ctype: string) returns (phase: string, ready: bool)
    ensures phase == ReasonOf(FirstCondition(conditions, ctype))
    ensures ready == IsTrue(FirstCondition(conditions, ctype))
  {
    phase, ready := "Unknown", false;
    var i := 0;
    while i < |conditions|
      invariant 0 <= i <= |conditions|
      invariant FirstCondition(conditions, ctype) == FirstCondition(conditions[i..], ctype)
      invariant phase == "Unknown" && !ready
    {
      var c := conditions[i];
      i := i + 1;
      if c.Malformed? || c.ctype != ctype {
        continue;
      }
      if c.status == "True" {
        ready := true;
      }
      if c.reason != "" {
        phase := c.reason;
      }
      break;
    }
  }

  predicate CountsDecide(kind: Kind) {
    kind in {Postgres, Valkey, MongoDB, Prometheus}
  }

  /** Where counts decide, Ready means at least as many ready units as observed ones and at
      least one observed: not equality, as the engine's own comment has it. */
  lemma ReadyByCounts(kind: Kind, o: Obj)
    requires CountsDecide(kind)
    ensures var t := ExtractStatus(kind, o); t.ready <==> t.observed > 0 && t.readyCount >= t.observed
  {
  }

  /** The rule the engine's comment states: Ready is equal counts, at least one of them. */
  predicate MeetsCountRule(t: TargetStatus) {
    t.ready <==> t.observed > 0 && t.observed == t.readyCount
  }

  /** Equality is too strong: more ready than observed is Ready as well. */
  lemma ReadyWithoutEqualCounts() returns (o: Obj)
    ensures var t := ExtractStatus(Postgres, o); t.ready && !MeetsCountRule(t)
  {
    o := ABSENT.(status := VendorStatus(map[], map["instances" := 1, "readyInstances" := 2], map[], []));
    assert |"instances"| != |"readyInstances"|;
  }

  /** What an adapter reads of a target, before it makes a status of it: the count of units,
      the count of ready ones where there is one, and a verdict where there is one. */
  function UnitCount(kind: Kind, o: Obj): int {
    match kind
    case Postgres => Int32(IntAt(o.status, "instances"))
    case Valkey => Int32(IntAt(o.status, "shards"))
    case MongoDB => Int32(IntAt(o.status, "size"))
    case Prometheus => Int32(IntAt(o.status, "replicas"))
    case Grafana => Int32(if SpecInt(o, Replicas).Some? then SpecInt(o, Replicas).value else 1)
    case _ => 0
  }

  function ReadyUnits(kind: Kind, o: Obj): int {
    match kind
    case Postgres => Int32(IntAt(o.status, "readyInstances"))
    case Valkey => Int32(IntAt(o.status, "readyShards"))
    case MongoDB => Int32(IntAt(o.status, "ready"))
    case Prometheus => Int32(IntAt(o.status, "availableReplicas"))
    case Grafana => Int32(IntAt(o.status, "replicas"))
    case _ => 0
  }

  predicate Verdict(kind: Kind, o: Obj) {
    match kind
    case Kafka | Loki => IsTrue(FirstCondition(o.status.conditions, "Ready"))
    case Alloy => IsTrue(FirstCondition(o.status.conditions, "Deployed"))
    case Grafana =>
      && "stage" in o.status.strs && o.status.strs["stage"] == "complete"
      && "stageStatus" in o.status.strs && o.status.strs["stageStatus"] == "success"
    case _ => false
  }

  /** When the documented rule holds, exactly: for the kinds that count, unless more units are
      ready than a positive number observed; always for MariaDB and RabbitMQ, which derive the
      count from the verdict; for Kafka, Loki and Alloy, which count nothing, only while not
      ready; for Grafana when stage and replica count happen to say the same. */
  lemma CountRuleExactly(kind: Kind, o: Obj)
    ensures MeetsCountRule(ExtractStatus(kind, o)) <==>
            match kind
            case Postgres | Valkey | MongoDB | Prometheus =>
              !(UnitCount(kind, o) > 0 && ReadyUnits(kind, o) > UnitCount(kind, o))
            case MariaDB | RabbitMQ => true
            case Kafka | Loki | Alloy => !Verdict(kind, o)
            case Grafana => Verdict(kind, o) == (UnitCount(kind, o) > 0 && UnitCount(kind, o) == ReadyUnits(kind, o))
  {
    match kind
    case Grafana =>
      assert |"complete"| > 0 && "Unknown"[0] != "complete"[0] && |"success"| > 0;
    case _ =>
  }

  // ---------------------------------------------------------------- conditions

  /** The summary text is determined by what it summarises. */
  datatype Message = NoMessage | Summary(kind: Kind, target: string, status: TargetStatus)

  datatype Condition = Condition(ctype: string, status: bool, reason: string, message: Message,
                                 observedGeneration: nat, lastTransition: nat)

  const READY := "Ready"

  function IndexOf(conditions: seq<Condition>, ctype: string): (i: nat)
    ensures i <= |conditions|
    ensures i < |conditions| ==> conditions[i].ctype == ctype
    ensures forall j :: 0 <= j < i ==> conditions[j].ctype != ctype
  {
    if conditions == [] then 0
    else if conditions[0].ctype == ctype then 0
    else 1 + IndexOf(conditions[1..], ctype)
  }

  /** Update the first condition of c's type, or append c. The transition time moves only
      when the status does. */
  function WithCondition(conditions: seq<Condition>, c: Condition): seq<Condition> {
    var i := IndexOf(conditions, c.ctype);
    if i == |conditions| then conditions + [c]
    else conditions[i := c.(lastTransition := if conditions[i].status == c.status
                                              then conditions[i].lastTransition
                                              else c.lastTransition)]
  }

  predicate UniqueTypes(conditions: seq<Condition>) {
    forall i, j :: 0 <= i < j < |conditions| ==> conditions[i].ctype != conditions[j].ctype
  }

  /** x is c, with a transition time that moved only if the status did: it is the one an entry
      of the type had before with the same status, or else c's. */
  ghost predicate Replaces(conditions: seq<Condition>, c: Condition, x: Condition) {
    && x == c.(lastTransition := x.lastTransition)
    && (forall b :: b in conditions && b.ctype == c.ctype && b.status == c.status ==>
          x.lastTransition == b.lastTransition)
    && ((forall b :: b in conditions && b.ctype == c.ctype ==> b.status != c.status) ==>
          x.lastTransition == c.lastTransition)
  }

  lemma ConditionSet(conditions: seq<Condition>, c: Condition)
    requires UniqueTypes(conditions)
    ensures var after := WithCondition(conditions, c);
            && UniqueTypes(after)
            && (exists x :: x in after && x.ctype == c.ctype)
            && (forall x: Condition :: x in after && x.ctype == c.ctype ==> Replaces(conditions, c, x))
            && (forall x: Condition :: x.ctype != c.ctype ==> (x in after <==> x in conditions))
  {
    var after := WithCondition(conditions, c);
    var i := IndexOf(conditions, c.ctype);
    assert after[i] in after && after[i].ctype == c.ctype;
    forall b | b in conditions && b.ctype == c.ctype ensures i < |conditions| && b == conditions[i] {
      var j :| 0 <= j < |conditions| && conditions[j] == b;
    }
    assert Replaces(conditions, c, after[i]);
    forall x: Condition | x in after && x.ctype == c.ctype ensures x == after[i] {
      var j :| 0 <= j < |after| && after[j] == x;
    }
    forall x: Condition | x.ctype != c.ctype ensures x in after <==> x in conditions {
      if x in conditions {
        var j :| 0 <= j < |conditions| && conditions[j] == x;
        assert after[j] == x;
      }
    }
  }

  lemma ConditionSetTwice(conditions: seq<Condition>, c: Condition, d: Condition)
    requires d == c.(lastTransition := d.lastTransition)
    ensures WithCondition(WithCondition(conditions, c), d) == WithCondition(conditions, c)
  {
    var once := WithCondition(conditions, c);
    var i := IndexOf(conditions, c.ctype);
    var j := IndexOf(once, c.ctype);
    assert once[i].ctype == c.ctype;
    assert forall n :: 0 <= n < i ==> once[n] == conditions[n];
    assert i == j;
  }

  // ---------------------------------------------------------------- mirroring

  datatype CrStatus = CrStatus(ready: bool, phase: string, replicas: int, readyReplicas: int,
                               message: Message, conditions: seq<Condition>)

  const EMPTY_STATUS := CrStatus(false, "", 0, 0, NoMessage, [])

  function ReadyReason(kind: Kind, ready: bool): string {
    match kind
    case Grafana => if ready then "GrafanaReady" else "GrafanaNotReady"
    case Prometheus => if ready then "PrometheusReady" else "PrometheusNotReady"
    case Loki => if ready then "LokiStackReady" else "LokiStackNotReady"
    case Alloy => if ready then "AlloyReady" else "AlloyNotReady"
    case _ => if ready then "ClusterReady" else "ClusterNotReady"
  }

  function ReadyCondition(kind: Kind, target: string, t: TargetStatus, generation: nat, now: nat): Condition {
    Condition(READY, t.ready, ReadyReason(kind, t.ready), Summary(kind, target, t), generation, now)
  }

  /** Mirror t onto the status of a custom resource. Grafana mirrors one count, the kinds
      without counts none. */
  function ApplyStatus(kind: Kind, s: CrStatus, target: string, t: TargetStatus, generation: nat, now: nat): CrStatus {
    CrStatus(
      t.ready, t.phase,
      if kind in {Kafka, Loki, Alloy} then s.replicas else if kind == Grafana then t.readyCount else t.observed,
      if kind in {Kafka, Loki, Alloy, Grafana} then s.readyReplicas else t.readyCount,
      Summary(kind, target, t),
      WithCondition(s.conditions, ReadyCondition(kind, target, t, generation, now)))
  }

  /** Types unique, and the Ready entry, once there, agrees with status.ready. */
  ghost predicate Mirrors(s: CrStatus) {
    && UniqueTypes(s.conditions)
    && forall i :: 0 <= i < |s.conditions| && s.conditions[i].ctype == READY ==> s.conditions[i].status == s.ready
  }

  ghost predicate HasReady(s: CrStatus) {
    exists i :: 0 <= i < |s.conditions| && s.conditions[i].ctype == READY
  }

  /** The reason a Ready entry gives. */
  predicate Reasons(kind: Kind, ready: bool, reason: string) {
    match kind
    case Grafana => reason == if ready then "GrafanaReady" else "GrafanaNotReady"
    case Prometheus => reason == if ready then "PrometheusReady" else "PrometheusNotReady"
    case Loki => reason == if ready then "LokiStackReady" else "LokiStackNotReady"
    case Alloy => reason == if ready then "AlloyReady" else "AlloyNotReady"
    case Postgres | MariaDB | Valkey | RabbitMQ | Kafka | MongoDB =>
      reason == if ready then "ClusterReady" else "ClusterNotReady"
  }

  /** The Ready entry tells t, for this generation, with the summary that the status carries. */
  ghost predicate TellsReady(kind: Kind, before: CrStatus, x: Condition, t: TargetStatus, after: CrStatus,
                             generation: nat, now: nat) {
    && x.status == t.ready && Reasons(kind, t.ready, x.reason)
    && x.message == after.message && x.observedGeneration == generation
    && (forall b :: b in before.conditions && b.ctype == "Ready" && b.status == t.ready ==>
          x.lastTransition == b.lastTransition)
    && ((forall b :: b in before.conditions && b.ctype == "Ready" ==> b.status != t.ready) ==> x.lastTransition == now)
  }

  /** One mirroring, whole: phase and verdict are the extracted ones; the two counts go where
      each kind keeps them; the list keeps unique types, holds a Ready entry that tells what
      was extracted, and leaves the entries of every other type alone. */
  lemma StatusMirrored(kind: Kind, s: CrStatus, target: string, t: TargetStatus, generation: nat, now: nat)
    requires UniqueTypes(s.conditions)
    ensures var after := ApplyStatus(kind, s, target, t, generation, now);
            && Mirrors(after) && HasReady(after) && after.ready == t.ready && after.phase == t.phase
            && after.message == Summary(kind, target, t)
            && (kind in {Postgres, MariaDB, Valkey, RabbitMQ, MongoDB, Prometheus} ==>
                  after.replicas == t.observed && after.readyReplicas == t.readyCount)
            && (kind == Grafana ==> after.replicas == t.readyCount && after.readyReplicas == s.readyReplicas)
            && (kind in {Kafka, Loki, Alloy} ==> after.replicas == s.replicas && after.readyReplicas == s.readyReplicas)
            && (forall x: Condition :: x in after.conditions && x.ctype == "Ready" ==>
                  TellsReady(kind, s, x, t, after, generation, now))
            && (forall x: Condition :: x.ctype != "Ready" ==> (x in after.conditions <==> x in s.conditions))
  {
    var c := ReadyCondition(kind, target, t, generation, now);
    ConditionSet(s.conditions, c);
    var after := ApplyStatus(kind, s, target, t, generation, now);
    forall x: Condition | x in after.conditions && x.ctype == READY
      ensures TellsReady(kind, s, x, t, after, generation, now)
    {
      assert Replaces(s.conditions, c, x);
    }
    var x :| x in after.conditions && x.ctype == READY;
    var i :| 0 <= i < |after.conditions| && after.conditions[i] == x;
    forall j | 0 <= j < |after.conditions| && after.conditions[j].ctype == READY
      ensures after.conditions[j].status == after.ready
    {
      assert after.conditions[j] in after.conditions;
    }
  }

  /** Mirroring the same extracted status again changes nothing, however much later. */
  lemma MirroringIdempotent(
    kind: Kind, s: CrStatus, target: string, t: TargetStatus, generation: nat, now: nat, later: nat)
    ensures var once := ApplyStatus(kind, s, target, t, generation, now);
            ApplyStatus(kind, once, target, t, generation, later) == once
  {
    ConditionSetTwice(s.conditions, ReadyCondition(kind, target, t, generation, now),
                      ReadyCondition(kind, target, t, generation, later));
  }
}
