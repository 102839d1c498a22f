/** Runs of the deletion machine: reconciles, each with its own failures, interleaved with
    time, edits, Job progress, the Job TTL and deletions of the Job by others. */
module FinalBackupRuns {
  import opened Wrappers
  import opened Clock
  import opened Jobs
  import opened FinalBackup

  datatype Move =
    | Reconcile(api: Api, stamp: string)
    | Tick(elapsed: nat)
    | RequestDeletion
    | EditBackup(onDelete: bool, s3Prefix: Option<string>)
    | Annotate(skip: bool)
    | ReportJob(conditions: seq<JobCondition>)
    | ExpireJob
    | DeleteJob

  function Reported(job: FinalJob, conditions: seq<JobCondition>, clock: int): FinalJob {
    FinalJob(job.snapshotKey, conditions,
      if Verdict(conditions).None? then None else if job.finishedAt.Some? then job.finishedAt else Some(clock))
  }

  predicate Expired(w: World) {
    w.job.Some? && w.job.value.finishedAt.Some? && w.clock >= w.job.value.finishedAt.value + TTL_AFTER_FINISHED
  }

  function Apply(w: World, m: Move): World {
    match m
    case Reconcile(api, stamp) => if w.deletedAt.None? then Ensure(w, api) else Handle(w, api, stamp)
    case Tick(d) => w.(clock := w.clock + d)
    case RequestDeletion => if w.deletedAt.Some? then w else w.(deletedAt := Some(Truncated(w.clock)))
    case EditBackup(onDelete, prefix) => w.(onDelete := onDelete, s3Prefix := prefix)
    case Annotate(skip) => w.(skip := skip)
    case ReportJob(cs) => if w.job.None? then w else w.(job := Some(Reported(w.job.value, cs, w.clock)))
    case ExpireJob => if Expired(w) then w.(job := None) else w
    case DeleteJob => w.(job := None)
  }

  function After(w: World, ms: seq<Move>): World {
    if ms == [] then w else Apply(After(w, ms[..|ms| - 1]), ms[|ms| - 1])
  }

  // ---------- one call ----------

  /** A call releases the finalizer exactly when the removal itself works and the backup was
      skipped, cannot be taken, is overdue, or is Complete and could be recorded. */
  lemma ReleaseVerdict(w: World, api: Api, stamp: string)
    requires w.finalizer
    ensures !Handle(w, api, stamp).finalizer <==>
      api.patchFinalizer &&
      (w.skip || w.s3Prefix.None? ||
       (w.deletedAt.Some? && w.clock > w.deletedAt.value + 1_800_000_000_000) ||
       (api.getJob && api.writeStatus && w.job.Some? && exists i: nat :: DecidesAt(w.job.value.conditions, i, Complete)))
  {
    if w.job.Some? {
      FirstTerminalDecides(w.job.value.conditions, Complete);
    }
  }

  /** Before a deletion a reconcile adds the finalizer exactly when backups on delete are asked
      for and the patch works, never takes it away, and changes nothing else. */
  lemma FinalizerVerdict(w: World, api: Api, stamp: string)
    requires w.deletedAt.None?
    ensures var v := Apply(w, Reconcile(api, stamp));
      && (v.finalizer <==> w.finalizer || (w.onDelete && api.patchFinalizer))
      && v.(finalizer := w.finalizer) == w
  {
  }

  /** So once such a reconcile has come, every later deletion finds the finalizer in place,
      also if backups on delete are switched off in between. */
  lemma {:induction false} FinalizerStaysUntilDeletion(w: World, ms: seq<Move>)
    requires w.deletedAt.None? && w.finalizer && After(w, ms).deletedAt.None?
    ensures After(w, ms + [RequestDeletion]).finalizer && After(w, ms + [RequestDeletion]).deletedAt.Some?
  {
    assert (ms + [RequestDeletion])[..|ms|] == ms;
    HeldBeforeDeletion(w, ms);
  }

  lemma {:induction false} HeldBeforeDeletion(w: World, ms: seq<Move>)
    requires w.deletedAt.None? && w.finalizer && After(w, ms).deletedAt.None?
    ensures After(w, ms).finalizer
  {
    if ms != [] {
      LateStays(After(w, ms[..|ms| - 1]), ms[|ms| - 1]);
      HeldBeforeDeletion(w, ms[..|ms| - 1]);
    }
  }

  /** An overdue call records the time and the reason as far as it can, and leaves the Job. */
  lemma AbandonedVerdict(w: World, api: Api, stamp: string)
    requires w.finalizer && Protected(w) && Late(w)
    ensures var v := Handle(w, api, stamp);
      && v.job == w.job && (v.finalizer <==> !api.patchFinalizer)
      && v.status == if api.writeStatus then w.status.(lastFailureTime := Some(w.clock), lastFailureReason := Some(DeadlineExceeded)) else w.status
  {
  }

  /** A skipped backup, or one that cannot be taken, is not recorded at all. */
  lemma SkippedVerdict(w: World, api: Api, stamp: string)
    requires w.finalizer && !Protected(w)
    ensures Handle(w, api, stamp) == w.(finalizer := !api.patchFinalizer)
  {
  }

  /** What a call records besides: the Job it created by its name, a failure, or a success, each
      with the time of the call; and the created Job is for the key of this instance and time. */
  lemma RecordVerdict(w: World, api: Api, stamp: string)
    requires w.finalizer && Protected(w) && !Late(w) && api.getJob && api.writeStatus
    ensures var v := Handle(w, api, stamp);
      && (w.job.None? && api.createJob ==>
           v.job == Some(FinalJob(SnapshotKey(w.s3Prefix.value, w.id, stamp), [], None)) &&
           v.status == w.status.(finalBackupJobName := w.id.name + "-backup-final"))
      && (w.job.Some? && (exists i: nat :: DecidesAt(w.job.value.conditions, i, Failed)) ==>
           v.status == w.status.(lastFailureTime := Some(w.clock), lastFailureReason := Some(JobFailed)))
      && (JobComplete(w) ==> v.status == w.status.(lastSuccessTime := Some(w.clock)))
      && (w.job.Some? && Verdict(w.job.value.conditions).None? ==> v == w)
  {
    if w.job.Some? {
      FirstTerminalDecides(w.job.value.conditions, Failed);
    }
  }

  /** A call creates the Job exactly inside the grace window, when none is stored. */
  lemma CreationVerdict(w: World, api: Api, stamp: string)
    ensures w.job.None? && Handle(w, api, stamp).job.Some? <==>
      w.finalizer && w.job.None? && !w.skip && w.s3Prefix.Some? && !Late(w) && api.getJob && api.createJob
    ensures w.job.Some? ==> Handle(w, api, stamp).job == w.job
  {
  }

  /** An overdue call does not look at the Job: it reports the snapshot as not taken and lets
      the instance go also when the Job is Complete. */
  lemma OverdueCallIgnoresJob(w: World, api: Api, stamp: string, job: Option<FinalJob>)
    requires Late(w)
    ensures Handle(w.(job := job), api, stamp) == Handle(w, api, stamp).(job := job)
    ensures w.finalizer && !w.skip && w.s3Prefix.Some? && api.writeStatus ==>
      Handle(w, api, stamp).status.lastFailureReason == Some(DeadlineExceeded)
  {
  }

  /** The call reports that the final snapshot was not taken in time. */
  predicate ReportsMissing(w: World, api: Api, stamp: string) {
    && w.status.lastFailureReason != Some(DeadlineExceeded)
    && Handle(w, api, stamp).status.lastFailureReason == Some(DeadlineExceeded)
  }

  /** A call makes this report exactly when it is overdue and still has a backup to wait for;
      the report is false exactly when, on top of that, the stored Job is Complete. */
  lemma DeadlineReportVerdict(w: World, api: Api, stamp: string)
    requires w.status.lastFailureReason != Some(DeadlineExceeded)
    ensures ReportsMissing(w, api, stamp) <==> w.finalizer && Protected(w) && Late(w) && api.writeStatus
    ensures ReportsMissing(w, api, stamp) && JobComplete(Handle(w, api, stamp)) <==>
      w.finalizer && Protected(w) && Late(w) && api.writeStatus && JobComplete(w)
  {
  }

  /** A run with a false report: the Job is created and completes in time, but the next
      reconcile comes after the window and gives the snapshot up as not taken. */
  lemma CompleteBackupReportedMissing(w: World, api: Api, stamp: string)
    requires w.deletedAt.None? && w.finalizer && Protected(w) && w.job.None?
    requires w.status.lastFailureReason != Some(DeadlineExceeded)
    requires api.getJob && api.createJob && api.writeStatus && api.patchFinalizer
    ensures var ms := [RequestDeletion, Reconcile(api, stamp), ReportJob([JobCondition(Complete, true)]), Tick(DEADLINE + SECOND)];
      var before := After(w, ms);
      var v := Apply(before, Reconcile(api, stamp));
      ReportsMissing(before, api, stamp) && JobComplete(v) && !v.finalizer
  {
    var ms := [RequestDeletion, Reconcile(api, stamp), ReportJob([JobCondition(Complete, true)]), Tick(DEADLINE + SECOND)];
    assert ms[..3][..2] == ms[..2] && ms[..2][..1] == ms[..1] && ms[..1][..0] == [];
    TruncatedBounds(w.clock);
    assert After(w, ms[..1]) == Apply(w, ms[0]);
    assert After(w, ms[..2]) == Apply(After(w, ms[..1]), ms[1]);
    assert After(w, ms[..3]) == Apply(After(w, ms[..2]), ms[2]);
  }

  // ---------- releases ----------

  /** A backup is configured and not skipped. */
  predicate Protected(w: World) {
    w.s3Prefix.Some? && !w.skip
  }

  ghost predicate KeepProtected(ms: seq<Move>) {
    forall i :: 0 <= i < |ms| ==>
      (ms[i].EditBackup? ==> ms[i].s3Prefix.Some?) && (ms[i].Annotate? ==> !ms[i].skip)
  }

  lemma PrefixesNest<T>(ms: seq<T>, n: nat)
    requires n < |ms|
    ensures ms[..|ms| - 1][..n] == ms[..n]
  {
  }

  /** Move n is a deletion call that saw a Complete final Job and let the instance go. */
  ghost predicate ReleasedByComplete(w: World, ms: seq<Move>, n: nat) {
    && n < |ms| && ms[n].Reconcile?
    && var v := After(w, ms[..n]);
       v.deletedAt.Some? && v.finalizer && JobComplete(v) && !Apply(v, ms[n]).finalizer
  }

  /** While a backup is configured and not skipped, an instance that was let go inside the
      grace window was let go by a call that saw a Complete final Job. */
  lemma {:induction false} EarlyReleaseMeansComplete(w: World, ms: seq<Move>)
    requires w.finalizer && Protected(w) && KeepProtected(ms)
    requires var v := After(w, ms); !v.finalizer && (v.deletedAt.Some? ==> v.clock <= v.deletedAt.value + 1_800_000_000_000)
    ensures exists n: nat :: ReleasedByComplete(w, ms, n)
  {
    var n := |ms| - 1;
    var v := After(w, ms[..n]);
    StaysProtected(w, ms[..n]);
    LateStays(v, ms[n]);
    if v.finalizer {
      assert ms[n].Reconcile? && v.deletedAt.Some?;
      ReleaseVerdict(v, ms[n].api, ms[n].stamp);
      assert ReleasedByComplete(w, ms, n);
    } else {
      EarlyReleaseMeansComplete(w, ms[..n]);
      var k: nat :| ReleasedByComplete(w, ms[..n], k);
      PrefixesNest(ms, k);
      assert ms[k] == ms[..n][k];
      assert ReleasedByComplete(w, ms, k);
    }
  }

  lemma {:induction false} StaysProtected(w: World, ms: seq<Move>)
    requires Protected(w) && KeepProtected(ms)
    ensures Protected(After(w, ms))
  {
    if ms != [] {
      StaysProtected(w, ms[..|ms| - 1]);
    }
  }

  lemma LateStays(w: World, m: Move)
    ensures Late(w) ==> Late(Apply(w, m))
    ensures Apply(w, m).clock >= w.clock
    ensures w.deletedAt.Some? ==> Apply(w, m).deletedAt == w.deletedAt
  {
  }

  /** Once deletion is requested and the finalizer is gone, nothing brings it back. */
  lemma {:induction false} ReleaseIsFinal(w: World, ms: seq<Move>)
    requires w.deletedAt.Some? && !w.finalizer
    ensures After(w, ms).deletedAt.Some? && !After(w, ms).finalizer
  {
    if ms != [] {
      ReleaseIsFinal(w, ms[..|ms| - 1]);
    }
  }

  // ---------- how long deletion can be held up ----------

  /** The time of the last reconcile whose finalizer patch would have worked, or of the
      beginning of the run. */
  function LastPatchable(w: World, ms: seq<Move>): int {
    if ms == [] then w.clock
    else
      var prefix, m := ms[..|ms| - 1], ms[|ms| - 1];
      if m.Reconcile? && m.api.patchFinalizer then After(w, prefix).clock else LastPatchable(w, prefix)
  }

  lemma {:induction false} HeldNoLongerThanPatchable(w: World, ms: seq<Move>)
    requires w.deletedAt.None?
    ensures var v := After(w, ms);
            && LastPatchable(w, ms) <= v.clock
            && (v.deletedAt.Some? && v.finalizer ==> LastPatchable(w, ms) <= v.deletedAt.value + DEADLINE)
  {
    if ms != [] {
      var prefix, m := ms[..|ms| - 1], ms[|ms| - 1];
      HeldNoLongerThanPatchable(w, prefix);
      var v := After(w, prefix);
      LateStays(v, m);
      TruncatedBounds(v.clock);
      if m.Reconcile? && m.api.patchFinalizer && v.deletedAt.Some? && v.finalizer {
        ReleaseVerdict(v, m.api, m.stamp);
      }
    }
  }

  /** Whatever the Job, the status writes and the Job reads do: if a reconcile that can patch
      the finalizer came at most d ago, an instance still held was asked to go at most thirty
      minutes and d ago. */
  lemma DeletionEndsInTime(w: World, ms: seq<Move>, d: nat)
    requires w.deletedAt.None?
    requires After(w, ms).deletedAt.Some? && After(w, ms).finalizer
    requires After(w, ms).clock <= LastPatchable(w, ms) + d
    ensures After(w, ms).clock <= After(w, ms).deletedAt.value + 1_800_000_000_000 + d
  {
    HeldNoLongerThanPatchable(w, ms);
  }

  // ---------- how many Jobs there can be ----------

  function Creations(w: World, ms: seq<Move>): nat {
    if ms == [] then 0
    else
      var prefix := ms[..|ms| - 1];
      Creations(w, prefix) + (if After(w, prefix).job.None? && After(w, ms).job.Some? then 1 else 0)
  }

  function Deletions(ms: seq<Move>): nat {
    if ms == [] then 0
    else Deletions(ms[..|ms| - 1]) + (if ms[|ms| - 1].DeleteJob? then 1 else 0)
  }

  /** So late after the deletion request that the TTL may have removed a Job made for it. */
  predicate PastTtl(w: World) {
    w.deletedAt.Some? && w.clock >= w.deletedAt.value + TTL_AFTER_FINISHED
  }

  /** A stored Job was made for this deletion, and finished after it was requested. */
  predicate JobIsForDeletion(w: World) {
    w.job.Some? ==> w.deletedAt.Some? && (w.job.value.finishedAt.Some? ==> w.job.value.finishedAt.value >= w.deletedAt.value)
  }

  /** The Job's own TTL never leads to a second final backup: every Job beyond the first was
      preceded by a deletion of the Job by somebody else. */
  lemma {:induction false} OneJobPerDeletion(w: World, ms: seq<Move>)
    requires w.deletedAt.None? && w.job.None?
    ensures Creations(w, ms) <= 1 + Deletions(ms)
    ensures var v := After(w, ms);
            && JobIsForDeletion(v)
            && (v.deletedAt.Some? ==> v.deletedAt.value <= v.clock)
            && (v.job.None? && !PastTtl(v) ==> Creations(w, ms) <= Deletions(ms))
  {
    if ms != [] {
      var prefix, m := ms[..|ms| - 1], ms[|ms| - 1];
      OneJobPerDeletion(w, prefix);
      var v := After(w, prefix);
      LateStays(v, m);
      TruncatedBounds(v.clock);
      if m.Reconcile? && v.deletedAt.Some? {
        CreationVerdict(v, m.api, m.stamp);
      }
    }
  }

  /** The bound is reached: deleting a failed Job inside the window makes a second one. */
  lemma DeletedJobIsRetried(w: World, api: Api, stamp: string)
    requires w.deletedAt.Some? && w.finalizer && Protected(w) && !Late(w) && w.job.None?
    requires api.getJob && api.createJob
    ensures var call, failed := Reconcile(api, stamp), ReportJob([JobCondition(Failed, true)]);
            Creations(w, [call, failed, DeleteJob, call]) == 2
  {
    var call, failed := Reconcile(api, stamp), ReportJob([JobCondition(Failed, true)]);
    var ms := [call, failed, DeleteJob, call];
    assert ms[..3][..2] == ms[..2] && ms[..2][..1] == ms[..1] && ms[..1][..0] == [];
    assert After(w, ms[..0]) == w;
    assert After(w, ms[..1]) == Apply(w, ms[0]);
    assert After(w, ms[..2]) == Apply(After(w, ms[..1]), ms[1]);
    assert After(w, ms[..3]) == Apply(After(w, ms[..2]), ms[2]);
    assert Creations(w, ms[..1]) == 1;
    assert Creations(w, ms[..2]) == 1;
  }
}
