/** Upgrading record envelopes one schema version at a time. */
module Migrations {
  import opened Outcomes

  type RecordType = nat
  type Payload = nat

  /** Schema versions are non-zero 32-bit integers. */
  type SchemaVersion = x: nat | 1 <= x <= U32_MAX witness 1

  datatype Envelope = Envelope(
    recordType: RecordType, schema: SchemaVersion, recordId: nat, revision: nat, payload: Payload,
    provenance: Option<nat>)

  datatype MigrationStep = MigrationStep(
    recordType: RecordType, from: SchemaVersion, to: SchemaVersion, migrate: Payload -> Option<Payload>)

  datatype MigrationError =
    | InvalidSchemaVersion
    | InvalidMigration
    | UnknownRecordType
    | NewerSchema(supported: SchemaVersion)
    | MissingMigration(from: SchemaVersion)
    | MigrationFailed(from: SchemaVersion)

  type Steps = map<(RecordType, SchemaVersion), MigrationStep>

  /** Each step is stored under its type and start and moves up by one. */
  ghost predicate Stepwise(steps: Steps) {
    forall k :: k in steps ==> steps[k].recordType == k.0 && steps[k].from == k.1 && steps[k].to == k.1 + 1
  }

  /** Applying the registered steps one after another; a step's output must be an acceptable payload. */
  function Migrated(
    steps: Steps, acceptable: Payload -> bool, t: RecordType, payload: Payload, from: SchemaVersion,
    last: SchemaVersion)
    : Result<Payload, MigrationError>
    requires from <= last
    decreases last as int - from as int
  {
    if from == last then Ok(payload)
    else if (t, from) !in steps then Err(MissingMigration(from))
    else
      var next := steps[(t, from)].migrate(payload);
      if next.None? || !acceptable(next.value) then Err(MigrationFailed(from))
      else Migrated(steps, acceptable, t, next.value, from + 1, last)
  }

  /** Payloads of one record, version by version, each the accepted result of the registered step on the one before. */
  ghost predicate Chain(
    steps: Steps, acceptable: Payload -> bool, t: RecordType, from: SchemaVersion, payloads: seq<Payload>)
  {
    payloads != [] && forall i :: 0 <= i < |payloads| - 1 ==> Linked(steps, acceptable, t, from, payloads, i)
  }

  predicate Linked(
    steps: Steps, acceptable: Payload -> bool, t: RecordType, from: SchemaVersion, payloads: seq<Payload>, i: nat)
    requires i < |payloads| - 1
  {
    && from + i <= U32_MAX && (t, from + i) in steps
    && steps[(t, from + i)].migrate(payloads[i]) == Some(payloads[i + 1]) && acceptable(payloads[i + 1])
  }

  /**
   * An upgrade succeeds exactly along a chain of registered steps from version
   * to version; otherwise it fails at the first version without a step, or
   * whose step fails or gives a payload that is not acceptable.
   */
  lemma {:induction false} MigratedExactly(
    steps: Steps, acceptable: Payload -> bool, t: RecordType, payload: Payload, from: SchemaVersion,
    last: SchemaVersion) returns (payloads: seq<Payload>)
    requires from <= last
    ensures Chain(steps, acceptable, t, from, payloads) && payloads[0] == payload && from + |payloads| - 1 <= last
    ensures var r, end := Migrated(steps, acceptable, t, payload, from, last), payloads[|payloads| - 1];
      var at: SchemaVersion := from + |payloads| - 1;
      && (at == last ==> r == Ok(end))
      && (at < last && (t, at) !in steps ==> r == Err(MissingMigration(at)))
      && (at < last && (t, at) in steps ==>
            && r == Err(MigrationFailed(at))
            && var next := steps[(t, at)].migrate(end); next.Some? ==> !acceptable(next.value))
    decreases last as int - from as int
  {
    payloads := [payload];
    if from < last && (t, from) in steps {
      var next := steps[(t, from)].migrate(payload);
      if next.Some? && acceptable(next.value) {
        var rest := MigratedExactly(steps, acceptable, t, next.value, from + 1, last);
        payloads := [payload] + rest;
        forall i | 0 <= i < |payloads| - 1
          ensures Linked(steps, acceptable, t, from, payloads, i)
        {
          assert i > 0 ==> Linked(steps, acceptable, t, from + 1, rest, i - 1);
        }
      }
    }
  }

  /** Upgrading in two stages is the same as upgrading at once. */
  lemma {:induction false} MigrationComposes(
    steps: Steps, acceptable: Payload -> bool, t: RecordType, payload: Payload, from: SchemaVersion,
    middle: SchemaVersion, last: SchemaVersion)
    requires from <= middle <= last
    ensures var first := Migrated(steps, acceptable, t, payload, from, middle);
      Migrated(steps, acceptable, t, payload, from, last)
      == if first.Ok? then Migrated(steps, acceptable, t, first.value, middle, last) else first
    decreases middle as int - from as int
  {
    if from < middle && (t, from) in steps {
      var next := steps[(t, from)].migrate(payload);
      if next.Some? && acceptable(next.value) {
        MigrationComposes(steps, acceptable, t, next.value, from + 1, middle, last);
      }
    }
  }

  /** Registering further steps never changes an upgrade that already succeeded. */
  lemma {:induction false} MigrationIsStable(
    steps: Steps, more: Steps, acceptable: Payload -> bool, t: RecordType, payload: Payload, from: SchemaVersion,
    last: SchemaVersion)
    requires from <= last && Migrated(steps, acceptable, t, payload, from, last).Ok?
    requires forall k :: k in steps ==> k in more && more[k] == steps[k]
    ensures Migrated(more, acceptable, t, payload, from, last) == Migrated(steps, acceptable, t, payload, from, last)
    decreases last as int - from as int
  {
    if from < last {
      var next := steps[(t, from)].migrate(payload);
      MigrationIsStable(steps, more, acceptable, t, next.value, from + 1, last);
    }
  }

  class MigrationRegistry {
    const acceptable: Payload -> bool
    var current: map<RecordType, SchemaVersion>
    var steps: Steps

    constructor (acceptable: Payload -> bool)
      ensures this.acceptable == acceptable && current == map[] && steps == map[] && Valid()
    {
      this.acceptable, current, steps := acceptable, map[], map[];
    }

    ghost predicate Valid()
      reads this
    {
      Stepwise(steps)
    }

    method RegisterRecordType(t: RecordType, version: SchemaVersion) returns (r: Result<(), MigrationError>)
      requires Valid()
      modifies this`current
      ensures Valid()
      ensures r.Ok? <==> t !in old(current)
      ensures current == if r.Ok? then old(current)[t := version] else old(current)
    {
      if t in current {
        return Err(InvalidMigration);
      }
      current := current[t := version];
      return Ok(());
    }

    method RegisterMigration(step: MigrationStep) returns (r: Result<(), MigrationError>)
      requires Valid()
      modifies this`steps
      ensures Valid()
      ensures r.Ok? <==> step.from < U32_MAX && step.to == step.from + 1 && (step.recordType, step.from) !in old(steps)
      ensures if r.Ok? then steps == old(steps)[(step.recordType, step.from) := step] else steps == old(steps)
    {
      if step.from == U32_MAX {
        return Err(InvalidSchemaVersion);
      }
      if step.from + 1 != step.to || (step.recordType, step.from) in steps {
        return Err(InvalidMigration);
      }
      steps := steps[(step.recordType, step.from) := step];
      return Ok(());
    }

    /** What `upgrade` gives: the current schema, a migrated payload, everything else kept. */
    ghost predicate Upgraded(e: Envelope, r: Result<Envelope, MigrationError>)
      reads this
    {
      if e.recordType !in current then r == Err(UnknownRecordType)
      else if e.schema > current[e.recordType] then r == Err(NewerSchema(current[e.recordType]))
      else
        var payload := Migrated(steps, acceptable, e.recordType, e.payload, e.schema, current[e.recordType]);
        if payload.Err? then r == Err(payload.error)
        else r == Ok(e.(payload := payload.value, schema := current[e.recordType]))
    }

    /** `upgrade`: the rewriting loop. */
    method Upgrade(e: Envelope) returns (r: Result<Envelope, MigrationError>)
      requires Valid()
      ensures Upgraded(e, r)
      ensures r == Err(UnknownRecordType) <==> e.recordType !in current
      ensures e.recordType in current ==>
        (r == Err(NewerSchema(current[e.recordType])) <==> current[e.recordType] < e.schema)
      ensures r.Ok? ==>
        && e.recordType in current && e.schema <= r.value.schema == current[e.recordType]
        && r.value.recordType == e.recordType && r.value.recordId == e.recordId
        && r.value.revision == e.revision && r.value.provenance == e.provenance
        && (r.value.schema == e.schema ==> r.value == e)
        && (r.value.schema > e.schema ==> acceptable(r.value.payload))
    {
      if e.recordType !in current {
        return Err(UnknownRecordType);
      }
      var supported := current[e.recordType];
      if e.schema > supported {
        return Err(NewerSchema(supported));
      }
      var envelope := e;
      while envelope.schema < supported
        invariant e.schema <= envelope.schema <= supported
        invariant envelope.schema == e.schema || acceptable(envelope.payload)
        invariant envelope == e.(payload := envelope.payload, schema := envelope.schema)
        invariant Migrated(steps, acceptable, e.recordType, envelope.payload, envelope.schema, supported)
          == Migrated(steps, acceptable, e.recordType, e.payload, e.schema, supported)
        decreases supported as int - envelope.schema as int
      {
        var key := (e.recordType, envelope.schema);
        if key !in steps {
          return Err(MissingMigration(envelope.schema));
        }
        var step := steps[key];
        var payload := step.migrate(envelope.payload);
        if payload.None? || !acceptable(payload.value) {
          return Err(MigrationFailed(envelope.schema));
        }
        envelope := envelope.(payload := payload.value, schema := step.to);
      }
      return Ok(envelope);
    }

    /** Upgrading twice is upgrading once. */
    lemma UpgradeIsIdempotent(
      e: Envelope, once: Result<Envelope, MigrationError>, twice: Result<Envelope, MigrationError>)
      requires Upgraded(e, once) && once.Ok? && Upgraded(once.value, twice)
      ensures twice == once
    {}
  }
}
