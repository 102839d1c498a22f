/** The backup taken before an instance is deleted (EnsureFinalizer, RemoveFinalizer and
    HandleDeletion in internal/controller/backup.go) and its runs. */
module FinalBackup {
  import opened Wrappers
  import opened Clock
  import opened Jobs

  /** finalBackupDeadline and the Job's ttlSecondsAfterFinished. */
  const DEADLINE: nat := 30 * MINUTE
  const TTL_AFTER_FINISHED: nat := 86400 * SECOND

  datatype FailureReason = DeadlineExceeded | JobFailed

  datatype Status = Status(
    finalBackupJobName: string,
    lastSuccessTime: Option<int>,
    lastFailureTime: Option<int>,
    lastFailureReason: Option<FailureReason>)

  /** The final backup Job; `finishedAt` is when its first terminal condition appeared. */
  datatype FinalJob = FinalJob(snapshotKey: string, conditions: seq<JobCondition>, finishedAt: Option<int>)

  datatype World = World(
    clock: int,
    id: Identity,
    onDelete: bool,
    s3Prefix: Option<string>,
    skip: bool,
    deletedAt: Option<int>,
    finalizer: bool,
    job: Option<FinalJob>,
    status: Status)

  /** Which API operations of a call succeed. */
  datatype Api = Api(patchFinalizer: bool, getJob: bool, createJob: bool, writeStatus: bool)

  datatype Result = Requeue(after: int) | Done | Error

  function FinalBackupJobName(id: Identity): string {
    id.name + "-backup-final"
  }

  /** More than the grace window has passed since the deletion was requested. */
  predicate Late(w: World) {
    w.deletedAt.Some? && w.clock - w.deletedAt.value > DEADLINE
  }

  predicate JobComplete(w: World) {
    w.job.Some? && Verdict(w.job.value.conditions) == Some(Complete)
  }

  /** The reasons to let the instance go, in the order they are looked at. */
  datatype Decision = Skipped | Abandoned | CreateJob | Wait | RecordFailure | Succeed

  function Decide(w: World): Decision {
    if w.skip || w.s3Prefix.None? then Skipped
    else if Late(w) then Abandoned
    else if w.job.None? then CreateJob
    else
      match Verdict(w.job.value.conditions)
      case None => Wait
      case Some(k) => if k == Failed then RecordFailure else Succeed
  }

  /** What a call leaves behind; an operation that fails ends the call, except for the
      best-effort status write of an abandoned backup. */
  function Handle(w: World, api: Api, stamp: string): World {
    var removed := w.(finalizer := !api.patchFinalizer);
    if !w.finalizer then w
    else
      match Decide(w)
      case Skipped => removed
      case Abandoned =>
        if api.writeStatus then removed.(status := Failing(w, DeadlineExceeded)) else removed
      case CreateJob =>
        if !api.getJob || !api.createJob then w
        else
          var created := w.(job := Some(FinalJob(SnapshotKey(w.s3Prefix.value, w.id, stamp), [], None)));
          if api.writeStatus then created.(status := w.status.(finalBackupJobName := FinalBackupJobName(w.id))) else created
      case Wait => w
      case RecordFailure =>
        if api.getJob && api.writeStatus then w.(status := Failing(w, JobFailed)) else w
      case Succeed =>
        if api.getJob && api.writeStatus then removed.(status := w.status.(lastSuccessTime := Some(w.clock))) else w
  }

  function Failing(w: World, reason: FailureReason): Status {
    w.status.(lastFailureTime := Some(w.clock), lastFailureReason := Some(reason))
  }

  /** The pass over an instance that is not being deleted. */
  function Ensure(w: World, api: Api): World {
    w.(finalizer := w.finalizer || (w.onDelete && api.patchFinalizer))
  }

  class BackupReconciler {
    var world: World

    constructor (world: World)
      ensures this.world == world
    {
      this.world := world;
    }

    method EnsureFinalizer(api: Api) returns (ok: bool)
      modifies this
      ensures world == Ensure(old(world), api)
      ensures ok <==> (old(world).onDelete ==> world.finalizer)
    {
      if !world.onDelete {
        return true;
      }
      if world.finalizer {
        return true;
      }
      if !api.patchFinalizer {
        return false;
      }
      world := world.(finalizer := true);
      return true;
    }

    method RemoveFinalizer(api: Api) returns (ok: bool)
      modifies this
      ensures ok <==> !world.finalizer
      ensures world == old(world).(finalizer := old(world).finalizer && !api.patchFinalizer)
    {
      if !world.finalizer {
        return true;
      }
      if !api.patchFinalizer {
        return false;
      }
      world := world.(finalizer := false);
      return true;
    }

    method WriteStatus(api: Api, status: Status) returns (ok: bool)
      modifies this
      ensures ok == api.writeStatus
      ensures world == if ok then old(world).(status := status) else old(world)
    {
      if api.writeStatus {
        world := world.(status := status);
      }
      return api.writeStatus;
    }

    method HandleDeletion(api: Api, stamp: string) returns (r: Result, held: bool)
      modifies this
      ensures world == Handle(old(world), api, stamp)
      ensures held <==> world.finalizer
      ensures !held ==> r == Done
      ensures held && !r.Error? ==>
        r == Requeue(if old(world).job.Some? && Verdict(old(world).job.value.conditions) == Some(Failed)
                     then 30_000_000_000 else 10_000_000_000)
    {
      if !world.finalizer {
        return Done, false;
      }
      if world.skip {
        var ok := RemoveFinalizer(api);
        return if ok then Done else Error, !ok;
      }
      if world.s3Prefix.None? {
        var ok := RemoveFinalizer(api);
        return if ok then Done else Error, !ok;
      }
      if world.deletedAt.Some? && world.clock - world.deletedAt.value > DEADLINE {
        var _ := WriteStatus(api, world.status.(lastFailureTime := Some(world.clock), lastFailureReason := Some(DeadlineExceeded)));
        var ok := RemoveFinalizer(api);
        return if ok then Done else Error, !ok;
      }
      var jobName := FinalBackupJobName(world.id);
      if !api.getJob {
        return Error, true;
      }
      if world.job.None? {
        var key := SnapshotKey(world.s3Prefix.value, world.id, stamp);
        if !api.createJob {
          return Error, true;
        }
        world := world.(job := Some(FinalJob(key, [], None)));
        var ok := WriteStatus(api, world.status.(finalBackupJobName := jobName));
        return if ok then Requeue(10 * SECOND) else Error, true;
      }
      var verdict := Verdict(world.job.value.conditions);
      if verdict.None? {
        return Requeue(10 * SECOND), true;
      }
      if verdict.value == Failed {
        var ok := WriteStatus(api, world.status.(lastFailureTime := Some(world.clock), lastFailureReason := Some(JobFailed)));
        return if ok then Requeue(30 * SECOND) else Error, true;
      }
      var ok := WriteStatus(api, world.status.(lastSuccessTime := Some(world.clock)));
      if !ok {
        return Error, true;
      }
      ok := RemoveFinalizer(api);
      return if ok then Done else Error, !ok;
    }
  }
}
