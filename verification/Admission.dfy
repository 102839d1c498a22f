/** The instance as far as its one-shot operations go, and the admission rules about them
    (internal/webhook/webhook_hermesinstance_validate.go). */
module Admission {
  import opened Wrappers

  datatype InstanceRef = InstanceRef(name: string, namespace: string)

  datatype SnapshotRef = SnapshotRef(bucket: string, endpoint: string, region: string, key: string, credentials: string)

  datatype Source = Source(openClawInstanceRef: Option<InstanceRef>, backupRef: Option<SnapshotRef>)

  datatype FromOpenClaw = FromOpenClaw(source: Source, mode: string, image: string)

  datatype BackupS3 = BackupS3(endpoint: string, bucket: string, credentials: string)

  datatype Spec = Spec(
    restoreFrom: string,
    fromOpenClaw: Option<FromOpenClaw>,
    s3: Option<BackupS3>,
    backupImage: string,
    repository: string,
    tag: string,
    storageClassName: Option<string>)

  datatype Progress = Unknown | Succeeded | Failed | Running

  datatype Status = Status(
    restoredFrom: string,
    completed: bool,
    sourceVersion: string,
    restoreApplied: Progress,
    migrationCompleted: Progress)

  const EMPTY_STATUS := Status("", false, "", Unknown, Unknown)

  datatype Instance = Instance(name: string, spec: Spec, status: Status)

  // ---------- comparing migrations by their JSON ----------

  datatype Json = Text(s: string) | Object(fields: seq<(string, Json)>)

  function OmitEmpty(name: string, s: string): seq<(string, Json)> {
    if s == "" then [] else [(name, Text(s))]
  }

  function InstanceRefJson(r: InstanceRef): Json {
    Object([("name", Text(r.name)), ("namespace", Text(r.namespace))])
  }

  function SnapshotRefJson(r: SnapshotRef): Json {
    Object([("s3", Object(
      [("bucket", Text(r.bucket)), ("endpoint", Text(r.endpoint))] + OmitEmpty("region", r.region) +
      [("key", Text(r.key)), ("credentialsSecretRef", Object([("name", Text(r.credentials))]))]))])
  }

  function SourceJson(s: Source): Json {
    Object(
      (if s.openClawInstanceRef.None? then [] else [("openclawInstanceRef", InstanceRefJson(s.openClawInstanceRef.value))]) +
      (if s.backupRef.None? then [] else [("backupRef", SnapshotRefJson(s.backupRef.value))]))
  }

  function FromOpenClawJson(f: FromOpenClaw): Json {
    Object([("source", SourceJson(f.source))] + OmitEmpty("mode", f.mode) + OmitEmpty("image", f.image))
  }

  function MigrationJson(m: Option<FromOpenClaw>): Json {
    Object(if m.None? then [] else [("fromOpenClaw", FromOpenClawJson(m.value))])
  }

  predicate EqualMigration(a: Option<FromOpenClaw>, b: Option<FromOpenClaw>) {
    MigrationJson(a) == MigrationJson(b)
  }

  lemma SnapshotRefJsonInjective(a: SnapshotRef, b: SnapshotRef)
    requires SnapshotRefJson(a) == SnapshotRefJson(b)
    ensures a == b
  {
    var x, y := SnapshotRefJson(a).fields[0].1.fields, SnapshotRefJson(b).fields[0].1.fields;
    assert x[0] == ("bucket", Text(a.bucket)) && x[1] == ("endpoint", Text(a.endpoint));
    assert x[|x| - 2] == ("key", Text(a.key)) && x[|x| - 1].1.fields[0] == ("name", Text(a.credentials));
    assert y[0] == ("bucket", Text(b.bucket)) && y[1] == ("endpoint", Text(b.endpoint));
    assert y[|y| - 2] == ("key", Text(b.key)) && y[|y| - 1].1.fields[0] == ("name", Text(b.credentials));
    assert |x| == 5 ==> x[2] == ("region", Text(a.region));
    assert |y| == 5 ==> y[2] == ("region", Text(b.region));
  }

  lemma InstanceRefJsonInjective(a: InstanceRef, b: InstanceRef)
    requires InstanceRefJson(a) == InstanceRefJson(b)
    ensures a == b
  {
    assert InstanceRefJson(a).fields[0].1 == InstanceRefJson(b).fields[0].1;
    assert InstanceRefJson(a).fields[1].1 == InstanceRefJson(b).fields[1].1;
  }

  lemma SourceJsonInjective(a: Source, b: Source)
    requires SourceJson(a) == SourceJson(b)
    ensures a == b
  {
    var x, y := SourceJson(a).fields, SourceJson(b).fields;
    assert a.openClawInstanceRef.Some? ==> x[0] == ("openclawInstanceRef", InstanceRefJson(a.openClawInstanceRef.value));
    assert b.openClawInstanceRef.Some? ==> y[0] == ("openclawInstanceRef", InstanceRefJson(b.openClawInstanceRef.value));
    assert a.backupRef.Some? ==> x[|x| - 1] == ("backupRef", SnapshotRefJson(a.backupRef.value));
    assert b.backupRef.Some? ==> y[|y| - 1] == ("backupRef", SnapshotRefJson(b.backupRef.value));
    assert "openclawInstanceRef"[0] != "backupRef"[0];
    if a.openClawInstanceRef.Some? && b.openClawInstanceRef.Some? {
      InstanceRefJsonInjective(a.openClawInstanceRef.value, b.openClawInstanceRef.value);
    }
    if a.backupRef.Some? && b.backupRef.Some? {
      SnapshotRefJsonInjective(a.backupRef.value, b.backupRef.value);
    }
  }

  lemma FromOpenClawJsonInjective(a: FromOpenClaw, b: FromOpenClaw)
    requires FromOpenClawJson(a) == FromOpenClawJson(b)
    ensures a == b
  {
    var x, y := FromOpenClawJson(a).fields, FromOpenClawJson(b).fields;
    assert x[0] == ("source", SourceJson(a.source)) && y[0] == ("source", SourceJson(b.source));
    SourceJsonInjective(a.source, b.source);
    assert a.mode != "" ==> x[1] == ("mode", Text(a.mode));
    assert b.mode != "" ==> y[1] == ("mode", Text(b.mode));
    assert a.image != "" ==> x[|x| - 1] == ("image", Text(a.image));
    assert b.image != "" ==> y[|y| - 1] == ("image", Text(b.image));
    assert "mode"[0] != "image"[0];
  }

  /** Leaving out empty fields loses nothing: the JSON comparison is equality of the specs. */
  lemma EqualMigrationIsEquality(a: Option<FromOpenClaw>, b: Option<FromOpenClaw>)
    ensures EqualMigration(a, b) <==> a == b
  {
    if EqualMigration(a, b) {
      var x, y := MigrationJson(a).fields, MigrationJson(b).fields;
      assert |x| == |y|;
      if a.Some? && b.Some? {
        assert x[0] == ("fromOpenClaw", FromOpenClawJson(a.value)) && y[0] == ("fromOpenClaw", FromOpenClawJson(b.value));
        FromOpenClawJsonInjective(a.value, b.value);
      }
    }
  }

  // ---------- the rules ----------

  datatype FieldError =
    | RestoreFromImmutable
    | MigrationImmutable
    | RestoreAndMigration
    | NotOneMigrationSource
    | StorageClassImmutable
    | NameImmutable
    | OtherRule(message: string)

  function ValidateImmutableTerminals(previous: Instance, updated: Instance): seq<FieldError> {
    var restore := previous.status.restoredFrom != "" && previous.status.restoredFrom == previous.spec.restoreFrom &&
      previous.spec.restoreFrom != updated.spec.restoreFrom;
    var migration := previous.status.completed && !EqualMigration(previous.spec.fromOpenClaw, updated.spec.fromOpenClaw);
    (if restore then [RestoreFromImmutable] else []) + (if migration then [MigrationImmutable] else [])
  }

  function ValidateMutualExclusion(inst: Instance): seq<FieldError> {
    if inst.spec.restoreFrom != "" && inst.spec.fromOpenClaw.Some? then [RestoreAndMigration] else []
  }

  function ValidateExactlyOneSource(inst: Instance): seq<FieldError> {
    match inst.spec.fromOpenClaw
    case None => []
    case Some(fc) =>
      if fc.source.openClawInstanceRef.Some? == fc.source.backupRef.Some? then [NotOneMigrationSource] else []
  }

  function ValidateImmutable(previous: Instance, updated: Instance): seq<FieldError> {
    if previous.spec.storageClassName.Some? && previous.spec.storageClassName != updated.spec.storageClassName then [StorageClassImmutable]
    else if previous.name != updated.name then [NameImmutable]
    else []
  }

  /** A spec that asks for at most one one-shot operation, from exactly one source. */
  predicate WellFormed(spec: Spec) {
    && !(spec.restoreFrom != "" && spec.fromOpenClaw.Some?)
    && (spec.fromOpenClaw.Some? ==>
         (spec.fromOpenClaw.value.source.openClawInstanceRef.Some? <==> spec.fromOpenClaw.value.source.backupRef.None?))
  }

  /** The latched part of the old spec is kept. */
  predicate KeepsLatched(previous: Instance, updated: Instance) {
    && (previous.status.restoredFrom != "" && previous.status.restoredFrom == previous.spec.restoreFrom ==>
         updated.spec.restoreFrom == previous.spec.restoreFrom)
    && (previous.status.completed ==> updated.spec.fromOpenClaw == previous.spec.fromOpenClaw)
  }

  /** `otherRules` holds the errors of the rules about image, storage, self-configuration,
      availability, gateways and tailscale. */
  method ValidateCreate(inst: Instance, otherRules: seq<string>) returns (errs: seq<FieldError>)
    ensures errs == [] <==> WellFormed(inst.spec) && otherRules == []
    ensures RestoreAndMigration in errs <==> inst.spec.restoreFrom != "" && inst.spec.fromOpenClaw.Some?
    ensures NotOneMigrationSource in errs <==>
      inst.spec.fromOpenClaw.Some? && (inst.spec.fromOpenClaw.value.source.openClawInstanceRef.Some? <==>
                                       inst.spec.fromOpenClaw.value.source.backupRef.Some?)
  {
    errs := [];
    errs := errs + ValidateMutualExclusion(inst);
    errs := errs + ValidateExactlyOneSource(inst);
    if |errs| > 0 {
      return;
    }
    if otherRules != [] {
      return [OtherRule(otherRules[0])];
    }
  }

  /** The errors of the rules about one-shot operations. */
  function FirstErrors(previous: Instance, updated: Instance): seq<FieldError> {
    ValidateImmutableTerminals(previous, updated) + ValidateMutualExclusion(updated) + ValidateExactlyOneSource(updated)
  }

  lemma TerminalErrors(previous: Instance, updated: Instance)
    ensures var errs := ValidateImmutableTerminals(previous, updated);
      && (errs == [] <==> KeepsLatched(previous, updated))
      && (RestoreFromImmutable in errs <==>
           previous.status.restoredFrom != "" && previous.status.restoredFrom == previous.spec.restoreFrom &&
           updated.spec.restoreFrom != previous.spec.restoreFrom)
      && (MigrationImmutable in errs <==> previous.status.completed && updated.spec.fromOpenClaw != previous.spec.fromOpenClaw)
      && forall e :: e in errs ==> e == RestoreFromImmutable || e == MigrationImmutable
  {
    EqualMigrationIsEquality(previous.spec.fromOpenClaw, updated.spec.fromOpenClaw);
  }

  lemma SpecErrors(updated: Instance)
    ensures var errs := ValidateMutualExclusion(updated) + ValidateExactlyOneSource(updated);
      && (errs == [] <==> WellFormed(updated.spec))
      && (RestoreAndMigration in errs <==> updated.spec.restoreFrom != "" && updated.spec.fromOpenClaw.Some?)
      && (NotOneMigrationSource in errs <==>
           updated.spec.fromOpenClaw.Some? && (updated.spec.fromOpenClaw.value.source.openClawInstanceRef.Some? <==>
                                               updated.spec.fromOpenClaw.value.source.backupRef.Some?))
      && forall e :: e in errs ==> e == RestoreAndMigration || e == NotOneMigrationSource
  {
  }

  /** Each error of these rules is there exactly for its cause. */
  ghost predicate Explained(errs: seq<FieldError>, previous: Instance, updated: Instance) {
    && (RestoreFromImmutable in errs <==>
         previous.status.restoredFrom != "" && previous.status.restoredFrom == previous.spec.restoreFrom &&
         updated.spec.restoreFrom != previous.spec.restoreFrom)
    && (MigrationImmutable in errs <==> previous.status.completed && updated.spec.fromOpenClaw != previous.spec.fromOpenClaw)
    && (RestoreAndMigration in errs <==> updated.spec.restoreFrom != "" && updated.spec.fromOpenClaw.Some?)
    && (NotOneMigrationSource in errs <==>
         updated.spec.fromOpenClaw.Some? && (updated.spec.fromOpenClaw.value.source.openClawInstanceRef.Some? <==>
                                             updated.spec.fromOpenClaw.value.source.backupRef.Some?))
  }

  predicate IsOneShotError(e: FieldError) {
    e == RestoreFromImmutable || e == MigrationImmutable || e == RestoreAndMigration || e == NotOneMigrationSource
  }

  lemma FirstErrorsAre(previous: Instance, updated: Instance)
    ensures var errs := FirstErrors(previous, updated);
      && (errs == [] <==> KeepsLatched(previous, updated) && WellFormed(updated.spec))
      && Explained(errs, previous, updated)
      && forall e :: e in errs ==> IsOneShotError(e)
  {
    TerminalErrors(previous, updated);
    SpecErrors(updated);
    Joined(ValidateImmutableTerminals(previous, updated), ValidateMutualExclusion(updated), ValidateExactlyOneSource(updated));
  }

  lemma Joined(a: seq<FieldError>, b: seq<FieldError>, c: seq<FieldError>)
    ensures a + b + c == [] <==> a == [] && b + c == []
    ensures forall e :: e in a + b + c <==> e in a || e in b + c
  {
    assert a + b + c == a + (b + c);
  }

  /** The rules about one-shot operations. */
  method ValidateOneShots(previous: Instance, updated: Instance) returns (errs: seq<FieldError>)
    ensures errs == [] <==> KeepsLatched(previous, updated) && WellFormed(updated.spec)
    ensures Explained(errs, previous, updated)
    ensures forall e :: e in errs ==> IsOneShotError(e)
  {
    errs := [];
    errs := errs + ValidateImmutableTerminals(previous, updated);
    errs := errs + ValidateMutualExclusion(updated);
    errs := errs + ValidateExactlyOneSource(updated);
    assert errs == FirstErrors(previous, updated);
    FirstErrorsAre(previous, updated);
  }

  method ValidateUpdate(previous: Instance, updated: Instance, otherRules: seq<string>) returns (errs: seq<FieldError>)
    ensures errs == [] <==>
      KeepsLatched(previous, updated) && WellFormed(updated.spec) && otherRules == [] && previous.name == updated.name &&
      (previous.spec.storageClassName.Some? ==> updated.spec.storageClassName == previous.spec.storageClassName)
    ensures Explained(errs, previous, updated)
    ensures StorageClassImmutable in errs ==>
      previous.spec.storageClassName.Some? && updated.spec.storageClassName != previous.spec.storageClassName
    ensures NameImmutable in errs ==> updated.name != previous.name
  {
    errs := ValidateOneShots(previous, updated);
    if |errs| > 0 {
      assert !IsOneShotError(StorageClassImmutable) && !IsOneShotError(NameImmutable);
      return;
    }
    errs := ValidateImmutable(previous, updated);
    if |errs| > 0 {
      return;
    }
    if otherRules != [] {
      return [OtherRule(otherRules[0])];
    }
  }
}
