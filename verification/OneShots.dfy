/** The one-shot restore and migration of an instance: what its pod template holds
    (internal/resources/restore_init.go, migration_init.go), how the two reconcilers latch
    the outcome (internal/controller/restore.go, migration.go), and runs of both under the
    admission rules. */
module OneShots {
  import opened Wrappers
  import opened Admission

  const RESTIC_IMAGE := "restic/restic:0.16.4"
  const RESTORE_CONTAINER := "init-restore"
  const MIGRATION_CONTAINER := "init-migrate-from-openclaw"

  // ---------- the pod template ----------

  datatype InitContainer =
    | RestoreContainer(name: string, image: string, snapshotKey: string, s3: BackupS3)
    | MigrateFromInstance(name: string, image: string)
    | MigrateFromSnapshot(name: string, image: string, snapshot: SnapshotRef)

  datatype Volume = EmptyDir | ReadOnlyClaim(name: string)

  function BuildRestoreInitContainer(i: Instance): Option<InitContainer> {
    if i.spec.restoreFrom == "" then None
    else if i.status.restoredFrom == i.spec.restoreFrom then None
    else if i.spec.s3.None? then None
    else Some(RestoreContainer(
      "init-restore",
      if i.spec.backupImage == "" then RESTIC_IMAGE else i.spec.backupImage, i.spec.restoreFrom, i.spec.s3.value))
  }

  function MigrationImage(i: Instance, fc: FromOpenClaw): string {
    if fc.image != "" then fc.image
    else
      (if i.spec.repository == "" then "ghcr.io/paperclipinc/hermes-agent" else i.spec.repository) + ":" +
      (if i.spec.tag == "" then "latest" else i.spec.tag)
  }

  function BuildMigrationInitContainer(i: Instance): Option<InitContainer> {
    if i.spec.fromOpenClaw.None? then None
    else if i.status.completed then None
    else
      var fc := i.spec.fromOpenClaw.value;
      if fc.source.openClawInstanceRef.Some? then Some(MigrateFromInstance("init-migrate-from-openclaw", MigrationImage(i, fc)))
      else if fc.source.backupRef.Some? then Some(MigrateFromSnapshot("init-migrate-from-openclaw", MigrationImage(i, fc), fc.source.backupRef.value))
      else None
  }

  function BuildSourceVolume(i: Instance): Option<Volume> {
    if i.spec.fromOpenClaw.None? || i.status.completed then None
    else
      match i.spec.fromOpenClaw.value.source.openClawInstanceRef
      case None => Some(EmptyDir)
      case Some(r) => Some(ReadOnlyClaim(r.name + "-data"))
  }

  /** The init containers the StatefulSet reconciler adds, in order. */
  function InitContainers(i: Instance): seq<InitContainer> {
    (match BuildRestoreInitContainer(i) case None => [] case Some(c) => [c]) +
    (match BuildMigrationInitContainer(i) case None => [] case Some(c) => [c])
  }

  // ---------- the two reconcilers ----------

  datatype InitStatus = InitStatus(name: string, exitCode: Option<int>, message: string)

  /** The pod's init container statuses, and the snapshot its init-restore was built for. */
  datatype Pod = Missing | Unreadable | Found(inits: seq<InitStatus>, restoreKey: string)

  /** The first terminated container of the given name. */
  function Terminated(inits: seq<InitStatus>, name: string): Option<InitStatus> {
    if inits == [] then None
    else if inits[0].name == name && inits[0].exitCode.Some? then Some(inits[0])
    else Terminated(inits[1..], name)
  }

  datatype Outcome = Settled | Waiting | Error | FailedInPod

  /** The in-memory instance of a pass and the stored status. */
  datatype Pass = Pass(mem: Instance, stored: Status)

  function Write(p: Pass): Pass {
    p.(stored := p.mem.status)
  }

  /** The status write that ends a reconciler, and what it returns when the write works. */
  function Saved(p: Pass, status: Status, writes: bool, r: Outcome): (Pass, Outcome) {
    var p' := p.(mem := p.mem.(status := status));
    if writes then (Write(p'), r) else (p', Error)
  }

  function Restore(p: Pass, pod: Pod, writes: bool): (Pass, Outcome) {
    var spec, status := p.mem.spec, p.mem.status;
    if spec.restoreFrom == "" then (p, Settled)
    else if status.restoredFrom == spec.restoreFrom then
      (p.(mem := p.mem.(status := status.(restoreApplied := Succeeded))), Settled)
    else if pod.Missing? then (p, Waiting)
    else if pod.Unreadable? then (p, Error)
    else
      match Terminated(pod.inits, RESTORE_CONTAINER)
      case None => (p.(mem := p.mem.(status := status.(restoreApplied := Running))), Waiting)
      case Some(c) =>
        if c.exitCode == Some(0) then
          Saved(p, status.(restoredFrom := spec.restoreFrom, restoreApplied := Succeeded), writes, Settled)
        else Saved(p, status.(restoreApplied := Failed), writes, FailedInPod)
  }

  function Migrate(p: Pass, pod: Pod, writes: bool): (Pass, Outcome) {
    var spec, status := p.mem.spec, p.mem.status;
    if spec.fromOpenClaw.None? then (p, Settled)
    else if status.completed then
      (p.(mem := p.mem.(status := status.(migrationCompleted := Succeeded))), Settled)
    else if pod.Missing? then (p, Waiting)
    else if pod.Unreadable? then (p, Error)
    else
      match Terminated(pod.inits, MIGRATION_CONTAINER)
      case None => (p, Waiting)
      case Some(c) =>
        if c.exitCode == Some(0) then
          Saved(p, status.(completed := true, sourceVersion := c.message, migrationCompleted := Succeeded), writes, Settled)
        else Saved(p, status.(migrationCompleted := Failed), writes, FailedInPod)
  }

  class OneShotReconciler {
    var inst: Instance
    var stored: Status

    ghost function State(): Pass
      reads this
    {
      Pass(inst, stored)
    }

    constructor (inst: Instance)
      ensures State() == Pass(inst, inst.status)
    {
      this.inst := inst;
      this.stored := inst.status;
    }

    method WriteStatus(writes: bool) returns (ok: bool)
      modifies this
      ensures ok == writes
      ensures State() == if ok then Write(old(State())) else old(State())
    {
      if writes {
        stored := inst.status;
      }
      return writes;
    }

    /** RestoreReconciler.Reconcile. */
    method RestoreReconcile(pod: Pod, writes: bool) returns (r: Outcome)
      modifies this
      ensures (State(), r) == Restore(old(State()), pod, writes)
    {
      if inst.spec.restoreFrom == "" {
        return Settled;
      }
      if inst.status.restoredFrom == inst.spec.restoreFrom {
        if inst.status.restoreApplied != Succeeded {
          inst := inst.(status := inst.status.(restoreApplied := Succeeded));
        }
        return Settled;
      }
      if pod.Missing? {
        return Waiting;
      }
      if pod.Unreadable? {
        return Error;
      }
      ghost var p := State();
      for i := 0 to |pod.inits|
        invariant State() == p
        invariant Terminated(pod.inits, RESTORE_CONTAINER) == Terminated(pod.inits[i..], RESTORE_CONTAINER)
      {
        var cs := pod.inits[i];
        assert pod.inits[i..][1..] == pod.inits[i + 1..];
        if cs.name != RESTORE_CONTAINER {
          continue;
        }
        if cs.exitCode.Some? && cs.exitCode.value == 0 {
          inst := inst.(status := inst.status.(restoredFrom := inst.spec.restoreFrom));
          inst := inst.(status := inst.status.(restoreApplied := Succeeded));
          var ok := WriteStatus(writes);
          return if ok then Settled else Error;
        }
        if cs.exitCode.Some? && cs.exitCode.value != 0 {
          inst := inst.(status := inst.status.(restoreApplied := Failed));
          var ok := WriteStatus(writes);
          return if ok then FailedInPod else Error;
        }
      }
      inst := inst.(status := inst.status.(restoreApplied := Running));
      return Waiting;
    }

    /** MigrationReconciler.Reconcile. */
    method MigrationReconcile(pod: Pod, writes: bool) returns (r: Outcome)
      modifies this
      ensures (State(), r) == Migrate(old(State()), pod, writes)
    {
      if inst.spec.fromOpenClaw.None? {
        return Settled;
      }
      if inst.status.completed {
        if inst.status.migrationCompleted != Succeeded {
          inst := inst.(status := inst.status.(migrationCompleted := Succeeded));
        }
        return Settled;
      }
      if pod.Missing? {
        return Waiting;
      }
      if pod.Unreadable? {
        return Error;
      }
      ghost var p := State();
      for i := 0 to |pod.inits|
        invariant State() == p
        invariant Terminated(pod.inits, MIGRATION_CONTAINER) == Terminated(pod.inits[i..], MIGRATION_CONTAINER)
      {
        var cs := pod.inits[i];
        assert pod.inits[i..][1..] == pod.inits[i + 1..];
        if cs.name != MIGRATION_CONTAINER {
          continue;
        }
        if cs.exitCode.Some? && cs.exitCode.value == 0 {
          inst := inst.(status := inst.status.(completed := true));
          inst := inst.(status := inst.status.(sourceVersion := cs.message));
          inst := inst.(status := inst.status.(migrationCompleted := Succeeded));
          var ok := WriteStatus(writes);
          return if ok then Settled else Error;
        }
        if cs.exitCode.Some? && cs.exitCode.value != 0 {
          inst := inst.(status := inst.status.(migrationCompleted := Failed));
          var ok := WriteStatus(writes);
          return if ok then FailedInPod else Error;
        }
      }
      return Waiting;
    }
  }

  /** Which of the three status writes of an instance pass reach the API server. */
  datatype Writes = Writes(migration: bool, restore: bool, final: bool)

  /** The migration latch, the restore latch and the final status write of one pass. */
  function InstancePass(i: Instance, pod: Pod, w: Writes): Instance {
    var p1 := Migrate(Pass(i, i.status), pod, w.migration).0;
    var p2 := Restore(p1, pod, w.restore).0;
    i.(status := if w.final then p2.mem.status else p2.stored)
  }

  method RunInstancePass(i: Instance, pod: Pod, w: Writes) returns (after: Instance)
    ensures after == InstancePass(i, pod, w)
  {
    var r := new OneShotReconciler(i);
    var _ := r.MigrationReconcile(pod, w.migration);
    var _ := r.RestoreReconcile(pod, w.restore);
    var _ := r.WriteStatus(w.final);
    after := i.(status := r.stored);
  }

  // ---------- runs under admission ----------

  datatype Move = Update(spec: Spec, otherRules: seq<string>) | Reconcile(pod: Pod, writes: Writes)

  /** The API server takes an update exactly when ValidateUpdate returns no error; the
      status is a subresource that updates do not touch. */
  predicate UpdateAdmitted(i: Instance, spec: Spec, otherRules: seq<string>) {
    && KeepsLatched(i, i.(spec := spec)) && WellFormed(spec) && otherRules == []
    && (i.spec.storageClassName.Some? ==> spec.storageClassName == i.spec.storageClassName)
  }

  function Apply(i: Instance, m: Move): Instance {
    match m
    case Update(spec, otherRules) => if UpdateAdmitted(i, spec, otherRules) then i.(spec := spec) else i
    case Reconcile(pod, writes) => InstancePass(i, pod, writes)
  }

  function After(i: Instance, ms: seq<Move>): Instance {
    if ms == [] then i else Apply(After(i, ms[..|ms| - 1]), ms[|ms| - 1])
  }

  /** An admitted instance as the API server creates it. */
  predicate Created(i: Instance) {
    WellFormed(i.spec) && i.status == EMPTY_STATUS
  }

  predicate RestoreLatched(i: Instance) {
    i.status.restoredFrom != ""
  }

  predicate Latched(i: Instance) {
    RestoreLatched(i) || i.status.completed
  }

  /** What is true of every stored instance. */
  predicate Consistent(i: Instance) {
    && WellFormed(i.spec)
    && (RestoreLatched(i) ==> i.spec.restoreFrom == i.status.restoredFrom)
    && (i.status.completed ==> i.spec.fromOpenClaw.Some?)
  }

  lemma PassKeepsConsistent(i: Instance, pod: Pod, w: Writes)
    requires Consistent(i)
    ensures var j := InstancePass(i, pod, w);
            Consistent(j) && j.spec == i.spec && j.name == i.name
            && (Latched(i) ==> j.status.restoredFrom == i.status.restoredFrom && j.status.completed == i.status.completed)
  {
  }

  /** At most one of the two operations ever completes: in every run the latches exclude each
      other, and a closed latch still agrees with the spec. */
  lemma {:induction false} LatchesExcludeEachOther(i: Instance, ms: seq<Move>)
    requires Consistent(i)
    ensures Consistent(After(i, ms))
    ensures !(RestoreLatched(After(i, ms)) && After(i, ms).status.completed)
  {
    if ms != [] {
      var prefix, m := ms[..|ms| - 1], ms[|ms| - 1];
      LatchesExcludeEachOther(i, prefix);
      if m.Reconcile? {
        PassKeepsConsistent(After(i, prefix), m.pod, m.writes);
      }
    }
  }

  lemma CreatedIsConsistent(i: Instance)
    requires Created(i)
    ensures Consistent(i) && !Latched(i)
  {
  }

  /** Once a latch has closed, the latched values and the part of the spec they answer to
      never change again, and no pod template gets an init container or source volume of
      either kind. */
  lemma {:induction false} LatchedForGood(i: Instance, ms: seq<Move>)
    requires Consistent(i) && Latched(i)
    ensures var j := After(i, ms);
            && Consistent(j)
            && j.status.restoredFrom == i.status.restoredFrom && j.status.completed == i.status.completed
            && j.spec.restoreFrom == i.spec.restoreFrom
            && (i.status.completed ==> j.spec.fromOpenClaw == i.spec.fromOpenClaw)
            && InitContainers(j) == [] && BuildSourceVolume(j) == None
  {
    if ms != [] {
      var prefix, m := ms[..|ms| - 1], ms[|ms| - 1];
      LatchedForGood(i, prefix);
      if m.Reconcile? {
        PassKeepsConsistent(After(i, prefix), m.pod, m.writes);
      }
    }
  }

  function Latchings(i: Instance, ms: seq<Move>): nat {
    if ms == [] then 0
    else
      var before, after := After(i, ms[..|ms| - 1]), After(i, ms);
      Latchings(i, ms[..|ms| - 1]) +
        (if before.status.restoredFrom != after.status.restoredFrom then 1 else 0) +
        (if before.status.completed != after.status.completed then 1 else 0)
  }

  /** Over a whole run the two latches together move at most once. */
  lemma {:induction false} LatchesMoveOnce(i: Instance, ms: seq<Move>)
    requires Created(i)
    ensures Latchings(i, ms) == if Latched(After(i, ms)) then 1 else 0
  {
    if ms != [] {
      var prefix, m := ms[..|ms| - 1], ms[|ms| - 1];
      LatchesMoveOnce(i, prefix);
      LatchesExcludeEachOther(i, prefix);
      LatchesExcludeEachOther(i, ms);
      var before := After(i, prefix);
      assert After(i, ms) == Apply(before, m);
      if m.Reconcile? {
        PassKeepsConsistent(before, m.pod, m.writes);
      }
    }
  }

  /** Entry i is the first container of the name that has terminated, and it exited with code. */
  ghost predicate ExitsFirst(inits: seq<InitStatus>, name: string, i: nat, code: int) {
    && i < |inits| && inits[i].name == name && inits[i].exitCode == Some(code)
    && forall j :: 0 <= j < i ==> inits[j].name != name || inits[j].exitCode.None?
  }

  lemma ShiftExits(inits: seq<InitStatus>, name: string, i: nat, code: int)
    requires inits != [] && (inits[0].name != name || inits[0].exitCode.None?)
    ensures ExitsFirst(inits[1..], name, i, code) <==> ExitsFirst(inits, name, i + 1, code)
  {
    var rest := inits[1..];
    assert forall j :: 0 <= j < |rest| ==> rest[j] == inits[j + 1];
    if ExitsFirst(rest, name, i, code) {
      forall j | 0 <= j < i + 1 ensures inits[j].name != name || inits[j].exitCode.None? {
        assert j == 0 || inits[j] == rest[j - 1];
      }
    }
  }

  lemma {:induction false} TerminatedIsFirst(inits: seq<InitStatus>, name: string, code: int)
    ensures Terminated(inits, name).Some? && Terminated(inits, name).value.exitCode == Some(code) <==>
      exists i: nat :: ExitsFirst(inits, name, i, code)
  {
    if inits != [] {
      if inits[0].name == name && inits[0].exitCode.Some? {
        assert inits[0].exitCode == Some(code) ==> ExitsFirst(inits, name, 0, code);
      } else {
        TerminatedIsFirst(inits[1..], name, code);
        forall i: nat ensures ExitsFirst(inits[1..], name, i, code) <==> ExitsFirst(inits, name, i + 1, code) {
          ShiftExits(inits, name, i, code);
        }
        if i: nat :| ExitsFirst(inits, name, i, code) {
          assert ExitsFirst(inits[1..], name, i - 1, code);
        }
      }
    }
  }

  /** A pass closes the restore latch exactly when a restore is pending, the first terminated
      container of the pod named init-restore exited with 0, and the restore's write or the
      final one works. Containers of other names, and when they end, play no part. */
  lemma RestoreLatchVerdict(i: Instance, pod: Pod, w: Writes)
    requires Consistent(i) && !Latched(i)
    ensures RestoreLatched(InstancePass(i, pod, w)) <==>
      i.spec.restoreFrom != "" && pod.Found? && (w.restore || w.final) &&
      exists k: nat :: ExitsFirst(pod.inits, "init-restore", k, 0)
  {
    if pod.Found? {
      TerminatedIsFirst(pod.inits, "init-restore", 0);
    }
  }

  lemma MigrationLatchVerdict(i: Instance, pod: Pod, w: Writes)
    requires Consistent(i) && !Latched(i)
    ensures InstancePass(i, pod, w).status.completed <==>
      i.spec.fromOpenClaw.Some? && pod.Found? && (w.migration || w.final) &&
      exists k: nat :: ExitsFirst(pod.inits, "init-migrate-from-openclaw", k, 0)
  {
    if pod.Found? {
      TerminatedIsFirst(pod.inits, "init-migrate-from-openclaw", 0);
    }
  }

  /** What is reported about a pending restore: failed, running, or nothing new. */
  lemma RestoreProgress(i: Instance, pod: Pod, w: Writes)
    requires Consistent(i) && !Latched(i) && w.final && i.spec.restoreFrom != "" && pod.Found?
    ensures var s := InstancePass(i, pod, w).status;
      && (s.restoreApplied == Succeeded <==> RestoreLatched(InstancePass(i, pod, w)))
      && (s.restoreApplied == Failed <==> exists k: nat, code: int :: ExitsFirst(pod.inits, "init-restore", k, code) && code != 0)
      && (s.restoreApplied == Running <==> forall k: nat, code: int :: !ExitsFirst(pod.inits, "init-restore", k, code))
  {
    var k := FirstExit(pod.inits, "init-restore");
    var t := Terminated(pod.inits, "init-restore");
    if t.Some? {
      forall j: nat, other: int | ExitsFirst(pod.inits, "init-restore", j, other) ensures other == t.value.exitCode.value {}
    }
  }

  lemma FirstExit(inits: seq<InitStatus>, name: string) returns (k: nat)
    ensures Terminated(inits, name).Some? ==>
      Terminated(inits, name).value.exitCode.Some? && ExitsFirst(inits, name, k, Terminated(inits, name).value.exitCode.value)
    ensures Terminated(inits, name).None? ==> forall j: nat, code: int :: !ExitsFirst(inits, name, j, code)
  {
    k := 0;
    if Terminated(inits, name).Some? {
      TerminatedHasExit(inits, name);
      var code := Terminated(inits, name).value.exitCode.value;
      TerminatedIsFirst(inits, name, code);
      k :| ExitsFirst(inits, name, k, code);
    } else {
      forall j: nat, code: int ensures !ExitsFirst(inits, name, j, code) {
        TerminatedIsFirst(inits, name, code);
      }
    }
  }

  lemma {:induction false} TerminatedHasExit(inits: seq<InitStatus>, name: string)
    ensures Terminated(inits, name).Some? ==> Terminated(inits, name).value.exitCode.Some?
  {
    if inits != [] {
      TerminatedHasExit(inits[1..], name);
    }
  }

  /** What is reported about a pending migration, and the source version taken from the container
      that ended it. */
  lemma MigrationReport(i: Instance, pod: Pod, w: Writes, k: nat, code: int)
    requires Consistent(i) && !Latched(i) && w.final && i.spec.fromOpenClaw.Some? && pod.Found?
    requires ExitsFirst(pod.inits, "init-migrate-from-openclaw", k, code)
    ensures var s := InstancePass(i, pod, w).status;
      && s.migrationCompleted == (if code == 0 then Succeeded else Failed)
      && (code == 0 ==> s.sourceVersion == pod.inits[k].message)
  {
    TerminatedAt(pod.inits, "init-migrate-from-openclaw", k, code);
  }

  lemma {:induction false} TerminatedAt(inits: seq<InitStatus>, name: string, k: nat, code: int)
    requires ExitsFirst(inits, name, k, code)
    ensures Terminated(inits, name) == Some(inits[k])
  {
    if k > 0 {
      ShiftExits(inits, name, k - 1, code);
      TerminatedAt(inits[1..], name, k - 1, code);
    }
  }

  /** The template and the latch agree: a pod that runs the init containers of the template to
      the end, beside any others of the user under other names, closes the
      latch that is pending. */
  lemma TemplateContainerLatches(i: Instance, others: seq<InitStatus>, w: Writes, key: string)
    requires Consistent(i) && !Latched(i) && InitContainers(i) != [] && w.final
    requires forall o :: o in others ==> o.name != InitContainers(i)[0].name
    ensures var pod := Found(others + [InitStatus(InitContainers(i)[0].name, Some(0), "")], key);
            Latched(InstancePass(i, pod, w))
  {
    var c := InitContainers(i)[0];
    var inits := others + [InitStatus(c.name, Some(0), "")];
    forall j | 0 <= j < |others| ensures inits[j].name != c.name {
      assert inits[j] == others[j] && others[j] in others;
    }
    assert ExitsFirst(inits, c.name, |others|, 0);
    if i.spec.restoreFrom != "" {
      RestoreLatchVerdict(i, Found(inits, key), w);
    } else {
      MigrationLatchVerdict(i, Found(inits, key), w);
    }
  }

  /** The container in full: the requested snapshot from the configured place, or the source the
      spec names, with the images that the defaults spell out. */
  lemma TemplateContents(i: Instance)
    requires Consistent(i) && !Latched(i)
    ensures i.spec.restoreFrom != "" && i.spec.s3.Some? ==>
      InitContainers(i) == [RestoreContainer("init-restore",
        if i.spec.backupImage != "" then i.spec.backupImage else "restic/restic:0.16.4", i.spec.restoreFrom, i.spec.s3.value)]
    ensures i.spec.fromOpenClaw.Some? ==>
      var fc := i.spec.fromOpenClaw.value;
      var own := (if i.spec.repository != "" then i.spec.repository else "ghcr.io/paperclipinc/hermes-agent") + ":" +
        (if i.spec.tag != "" then i.spec.tag else "latest");
      var image := if fc.image != "" then fc.image else own;
      && (fc.source.openClawInstanceRef.Some? ==>
           InitContainers(i) == [MigrateFromInstance("init-migrate-from-openclaw", image)]
           && BuildSourceVolume(i) == Some(ReadOnlyClaim(fc.source.openClawInstanceRef.value.name + "-data")))
      && (fc.source.backupRef.Some? ==>
           InitContainers(i) == [MigrateFromSnapshot("init-migrate-from-openclaw", image, fc.source.backupRef.value)])
  {
  }

  /** In every run a template holds at most one init container, the pending operation decides
      which, and the source volume comes with the migration container and fits its source. */
  lemma TemplateFollowsSpec(i: Instance, ms: seq<Move>)
    requires Created(i)
    ensures var j := After(i, ms);
            && |InitContainers(j)| <= 1
            && (BuildRestoreInitContainer(j).Some? <==> j.spec.restoreFrom != "" && !RestoreLatched(j) && j.spec.s3.Some?)
            && (BuildMigrationInitContainer(j).Some? <==> j.spec.fromOpenClaw.Some? && !j.status.completed)
            && (BuildSourceVolume(j).Some? <==> BuildMigrationInitContainer(j).Some?)
            && (BuildSourceVolume(j) == Some(EmptyDir) <==>
                BuildMigrationInitContainer(j).Some? && BuildMigrationInitContainer(j).value.MigrateFromSnapshot?)
  {
    CreatedIsConsistent(i);
    LatchesExcludeEachOther(i, ms);
  }

  /** The webhook's wording is what happens: in every run a change of restoreFrom is refused
      exactly when restoredFrom is set, if the update breaks no other rule. */
  lemma RestoreFromImmutableOnceRestored(i: Instance, ms: seq<Move>, spec: Spec)
    requires Created(i)
    requires var j := After(i, ms);
             WellFormed(spec) && spec.restoreFrom != j.spec.restoreFrom && spec.storageClassName == j.spec.storageClassName &&
             (j.status.completed ==> spec.fromOpenClaw == j.spec.fromOpenClaw)
    ensures UpdateAdmitted(After(i, ms), spec, []) <==> !RestoreLatched(After(i, ms))
  {
    CreatedIsConsistent(i);
    LatchesExcludeEachOther(i, ms);
  }

  lemma AdmittedMeansNoErrors(i: Instance, spec: Spec, otherRules: seq<string>)
    ensures UpdateAdmitted(i, spec, otherRules) <==>
      otherRules == [] && ValidateImmutable(i, i.(spec := spec)) == [] &&
      ValidateImmutableTerminals(i, i.(spec := spec)) + ValidateMutualExclusion(i.(spec := spec)) + ValidateExactlyOneSource(i.(spec := spec)) == []
  {
    EqualMigrationIsEquality(i.spec.fromOpenClaw, spec.fromOpenClaw);
  }

  // ---------- what the latch records ----------

  /** Move n is the pass that closes the restore latch. */
  ghost predicate Closes(i: Instance, ms: seq<Move>, n: nat) {
    && n < |ms| && ms[n].Reconcile? && ms[n].pod.Found?
    && !RestoreLatched(After(i, ms[..n])) && RestoreLatched(After(i, ms[..n + 1]))
  }

  /** The record names the snapshot restored by the pod of move n. */
  ghost predicate RecordsPod(i: Instance, ms: seq<Move>, n: nat)
    requires n < |ms| && ms[n].Reconcile? && ms[n].pod.Found?
  {
    After(i, ms).status.restoredFrom == ms[n].pod.restoreKey
  }

  lemma PrefixesNest(ms: seq<Move>, n: nat)
    requires n < |ms|
    ensures ms[..|ms| - 1][..n] == ms[..n]
  {
  }

  /** The latch records what the spec says when it closes, and keeps that. */
  lemma {:induction false} ClosingPass(i: Instance, ms: seq<Move>) returns (n: nat)
    requires Consistent(i) && !Latched(i) && RestoreLatched(After(i, ms))
    ensures Closes(i, ms, n)
    ensures After(i, ms).status.restoredFrom == After(i, ms[..n]).spec.restoreFrom
  {
    var last := |ms| - 1;
    var before := After(i, ms[..last]);
    LatchesExcludeEachOther(i, ms[..last]);
    if RestoreLatched(before) {
      n := ClosingPass(i, ms[..last]);
      PrefixesNest(ms, n);
      if n + 1 < |ms| {
        assert ms[..last][..n + 1] == ms[..n + 1];
      }
      if ms[last].Reconcile? {
        PassKeepsConsistent(before, ms[last].pod, ms[last].writes);
      }
    } else {
      n := last;
      assert ms[..n + 1] == ms;
      assert ms[n].Reconcile?;
      ClosingPassVerdict(before, ms[n].pod, ms[n].writes);
    }
  }

  lemma ClosingPassVerdict(i: Instance, pod: Pod, w: Writes)
    requires Consistent(i) && !RestoreLatched(i) && RestoreLatched(InstancePass(i, pod, w))
    ensures pod.Found? && InstancePass(i, pod, w).status.restoredFrom == i.spec.restoreFrom
  {
  }

  /** "The record names the snapshot that was restored" is false in general. In every run that
      latches, some pass closes the latch, and the record names the snapshot its pod restored
      exactly when restoreFrom still asked for that snapshot when the pass began. */
  lemma RecordNamesRestoredSnapshot(i: Instance, ms: seq<Move>) returns (n: nat)
    requires Created(i) && RestoreLatched(After(i, ms))
    ensures Closes(i, ms, n)
    ensures RecordsPod(i, ms, n) <==> After(i, ms[..n]).spec.restoreFrom == ms[n].pod.restoreKey
  {
    n := ClosingPass(i, ms);
  }

  /** The template of move m's world holds an init-restore for the key. */
  ghost predicate BuiltAt(i: Instance, ms: seq<Move>, m: nat, key: string)
    requires m <= |ms|
  {
    var c := BuildRestoreInitContainer(After(i, ms[..m]));
    c.Some? && c.value.snapshotKey == key
  }

  /** Every pod that ran an init-restore got it from a template of the past. */
  ghost predicate PodsFollowTemplates(i: Instance, ms: seq<Move>) {
    forall n: nat :: n < |ms| && ms[n].Reconcile? && ms[n].pod.Found? && Terminated(ms[n].pod.inits, RESTORE_CONTAINER).Some? ==>
      exists m: nat :: m <= n && BuiltAt(i, ms, m, ms[n].pod.restoreKey)
  }

  lemma ClosingPodRan(i: Instance, ms: seq<Move>, n: nat)
    requires Consistent(i) && Closes(i, ms, n)
    ensures Terminated(ms[n].pod.inits, RESTORE_CONTAINER).Some?
  {
    assert ms[..n + 1][..n] == ms[..n];
    LatchesExcludeEachOther(i, ms[..n]);
    assert After(i, ms[..n + 1]) == InstancePass(After(i, ms[..n]), ms[n].pod, ms[n].writes);
  }

  /** When pods come from templates, the record is right exactly when restoreFrom is, at the
      closing pass, what it was when the container was built. */
  lemma RecordIsRightUnlessEdited(i: Instance, ms: seq<Move>) returns (m: nat, n: nat)
    requires Created(i) && RestoreLatched(After(i, ms)) && PodsFollowTemplates(i, ms)
    ensures Closes(i, ms, n) && m <= n && BuiltAt(i, ms, m, ms[n].pod.restoreKey)
    ensures RecordsPod(i, ms, n) <==> After(i, ms[..n]).spec.restoreFrom == After(i, ms[..m]).spec.restoreFrom
  {
    n := ClosingPass(i, ms);
    ClosingPodRan(i, ms, n);
    m :| m <= n && BuiltAt(i, ms, m, ms[n].pod.restoreKey);
  }

  /** No admitted update asks for another snapshot; refused ones may ask for anything. */
  ghost predicate KeepsRestoreFrom(i: Instance, ms: seq<Move>, key: string) {
    forall k :: 0 <= k < |ms| && ms[k].Update? && UpdateAdmitted(After(i, ms[..k]), ms[k].spec, ms[k].otherRules) ==>
      ms[k].spec.restoreFrom == key
  }

  lemma KeepsRestoreFromPrefix(i: Instance, ms: seq<Move>, key: string)
    requires ms != [] && KeepsRestoreFrom(i, ms, key)
    ensures KeepsRestoreFrom(i, ms[..|ms| - 1], key)
  {
    var prefix := ms[..|ms| - 1];
    forall k | 0 <= k < |prefix| && prefix[k].Update? && UpdateAdmitted(After(i, prefix[..k]), prefix[k].spec, prefix[k].otherRules)
      ensures prefix[k].spec.restoreFrom == key
    {
      PrefixesNest(ms, k);
      assert prefix[k] == ms[k];
    }
  }

  /** From an instance whose template restores a snapshot: the latch records that snapshot
      exactly when the spec asks for it in the end, which it does if every admitted update
      kept it. */
  lemma {:induction false} LatchRecordsTheSnapshot(i: Instance, ms: seq<Move>)
    requires Consistent(i) && BuildRestoreInitContainer(i).Some? && !Latched(i)
    ensures var key := BuildRestoreInitContainer(i).value.snapshotKey;
      && (RestoreLatched(After(i, ms)) ==> (After(i, ms).status.restoredFrom == key <==> After(i, ms).spec.restoreFrom == key))
      && (KeepsRestoreFrom(i, ms, key) ==> After(i, ms).spec.restoreFrom == key)
  {
    var key := BuildRestoreInitContainer(i).value.snapshotKey;
    LatchesExcludeEachOther(i, ms);
    if ms != [] && KeepsRestoreFrom(i, ms, key) {
      var prefix, m := ms[..|ms| - 1], ms[|ms| - 1];
      KeepsRestoreFromPrefix(i, ms, key);
      LatchRecordsTheSnapshot(i, prefix);
      LatchesExcludeEachOther(i, prefix);
      if m.Reconcile? {
        PassKeepsConsistent(After(i, prefix), m.pod, m.writes);
      }
    }
  }

  /** The failing side is not empty: for every pending restore, an edit before the latch
      closes makes the record name a snapshot that no container ever restored. */
  lemma LatchRecordsAnEdit(i: Instance, key: string)
    requires Created(i) && BuildRestoreInitContainer(i).Some? && key != "" && key != i.spec.restoreFrom
    ensures var pod := Found([InitStatus(RESTORE_CONTAINER, Some(0), "")], i.spec.restoreFrom);
            var ms := [Update(i.spec.(restoreFrom := key), []), Reconcile(pod, Writes(true, true, true))];
            After(i, ms).status.restoredFrom == key && !RecordsPod(i, ms, 1) && BuiltAt(i, ms, 0, pod.restoreKey)
  {
    var pod := Found([InitStatus(RESTORE_CONTAINER, Some(0), "")], i.spec.restoreFrom);
    var ms := [Update(i.spec.(restoreFrom := key), []), Reconcile(pod, Writes(true, true, true))];
    assert ms[..1][..0] == [] && ms[..0] == [];
    assert After(i, ms[..1]) == Apply(i, ms[0]);
  }

  // ---------- what a closed latch shows, and the order of the reconcilers ----------

  /** Once a latch is closed, any later pass that can write reports the operation as done, also
      when the report was lost or wrong before. */
  lemma LatchedIsReported(i: Instance, pod: Pod, w: Writes)
    requires Consistent(i) && w.final
    ensures RestoreLatched(i) ==> InstancePass(i, pod, w).status.restoreApplied == Succeeded
    ensures i.status.completed ==> InstancePass(i, pod, w).status.migrationCompleted == Succeeded
  {
  }

  /** For every admitted spec at most one of the two reconcilers does anything, so their order in
      the pass does not matter. */
  lemma ReconcilersCommute(i: Instance, pod: Pod, w: Writes)
    requires WellFormed(i.spec)
    ensures Restore(Migrate(Pass(i, i.status), pod, w.migration).0, pod, w.restore).0 ==
            Migrate(Restore(Pass(i, i.status), pod, w.restore).0, pod, w.migration).0
  {
  }

  /** The builders for any instance, also one that no webhook has seen: a restore container needs a
      key that is not the recorded one and a place to fetch from; a migration container needs a
      source and no completion; only a pending migration gets a source volume. */
  lemma ContainersForAnyInstance(i: Instance)
    ensures BuildRestoreInitContainer(i).Some? <==>
      i.spec.restoreFrom != "" && i.status.restoredFrom != i.spec.restoreFrom && i.spec.s3.Some?
    ensures BuildMigrationInitContainer(i).Some? <==>
      i.spec.fromOpenClaw.Some? && !i.status.completed &&
      (i.spec.fromOpenClaw.value.source.openClawInstanceRef.Some? || i.spec.fromOpenClaw.value.source.backupRef.Some?)
    ensures BuildSourceVolume(i).Some? <==> i.spec.fromOpenClaw.Some? && !i.status.completed
  {
  }
}
