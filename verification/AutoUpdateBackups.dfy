/** The pre-update backup of the auto-update machine: what a closed gate holds back, which
    snapshot the Job is for, and when there is a Job at all. */
module AutoUpdateBackups {
  import opened Wrappers
  import opened Jobs
  import opened Oci
  import opened AutoUpdate
  import opened AutoUpdateRuns
  import opened AutoUpdateGuarantees

  // ---------- a closed gate ----------

  /** While the gate is closed nothing moves forward: neither the target nor the image nor
      the announcement on the instance. */
  lemma ClosedGateHoldsImage(w: World, c: Call)
    requires Coherent(w.status) && w.status.targetTag == "" && c.poll != Picked(Best("")) && !GateOpen(w, c)
    ensures var w' := InstancePass(w, c);
            w'.status.targetTag == "" && w'.sts == w.sts && w'.annotation == w.annotation
  {
    PassFollows(w, c);
    if Polls(Pass(w, w.status), c) {
      var checked := Pass(w, w.status.(lastCheckTime := Some(w.clock)));
      GateFollows(w, checked, c);
    }
  }

  // ---------- one snapshot key per attempt ----------

  predicate Names(job: Option<Job>, key: string) {
    job.Some? && key != "" ==> job.value.snapshotKey == key
  }

  lemma OneShotNames(p: Pass, c: Call)
    requires Names(p.world.job, p.world.status.preUpdateSnapshot) && p.mem.preUpdateSnapshot == p.world.status.preUpdateSnapshot
    ensures var q := OneShot(p, c).0;
            && Names(q.world.job, q.world.status.preUpdateSnapshot) && Names(q.world.job, q.mem.preUpdateSnapshot)
            && (p.mem.preUpdateSnapshot != "" ==> q.mem.preUpdateSnapshot == q.world.status.preUpdateSnapshot == p.mem.preUpdateSnapshot)
  {
  }

  lemma StartNames(p: Pass, c: Call, tag: string)
    requires Names(p.world.job, p.world.status.preUpdateSnapshot) && p.mem.preUpdateSnapshot == p.world.status.preUpdateSnapshot
    ensures var q := StartRollout(p, c, tag).0;
            && Names(q.world.job, q.world.status.preUpdateSnapshot) && Names(q.world.job, q.mem.preUpdateSnapshot)
            && (p.mem.preUpdateSnapshot != "" ==> q.mem.preUpdateSnapshot == q.world.status.preUpdateSnapshot == p.mem.preUpdateSnapshot)
  {
    OneShotNames(p, c);
    if NeedsBackup(p.world.spec, c) {
      RollForwardKeepsKey(OneShot(p, c).0, c, tag);
    } else {
      RollForwardKeepsKey(p, c, tag);
    }
  }

  lemma RollForwardKeepsKey(p: Pass, c: Call, tag: string)
    ensures var q := RollForward(p, c, tag).0;
            && q.world.job == p.world.job && q.mem.preUpdateSnapshot == p.mem.preUpdateSnapshot
            && (q.world.status == p.world.status || q.world.status.preUpdateSnapshot == q.mem.preUpdateSnapshot)
  {
  }

  lemma DriveKeepsKey(p: Pass, c: Call)
    requires p.mem == p.world.status
    ensures var q := DriveRollout(p, c).0;
            && q.world.job == p.world.job
            && (q.mem.preUpdateSnapshot == p.mem.preUpdateSnapshot ||
                (q.mem.preUpdateSnapshot == "" && p.world.sts.Some? && Ready(p.world.sts.value)))
            && (q.world.status.preUpdateSnapshot == p.mem.preUpdateSnapshot || q.world.status.preUpdateSnapshot == q.mem.preUpdateSnapshot)
  {
    if p.world.sts.Some? && !Ready(p.world.sts.value) {
      RollBackWrites(Pass(p.world, p.mem.(probeFailures := CountedFailures(p.world, p.mem))), c);
      assert RollBack(Pass(p.world, p.mem.(probeFailures := CountedFailures(p.world, p.mem))), c).0.world.job == p.world.job;
    }
  }

  /** A pass keeps Job and record on the same key, and drops a recorded key only by
      confirming the rollout it was taken for. */
  lemma PassKeepsKey(w: World, c: Call)
    requires Names(w.job, w.status.preUpdateSnapshot)
    ensures var w' := InstancePass(w, c);
            && Names(w'.job, w'.status.preUpdateSnapshot)
            && (w.status.preUpdateSnapshot != "" ==>
                w'.status.preUpdateSnapshot == w.status.preUpdateSnapshot ||
                (w'.status.preUpdateSnapshot == "" && w.status.targetTag != "" && SeesReady(w, c)))
  {
    var p := Pass(w, w.status);
    if w.spec.enabled && c.hasRegistry {
      if w.status.targetTag != "" {
        DriveKeepsKey(p, c);
      } else {
        var checked := p.(mem := p.mem.(lastCheckTime := Some(w.clock)));
        if c.poll.Picked? && c.poll.pick.Best? {
          StartNames(checked, c, c.poll.pick.tag);
        }
      }
    }
  }

  /** In every run, with any failures between the status write and the Job creation, a
      stored pre-update Job and a recorded snapshot key name the same snapshot. */
  lemma {:induction false} JobMatchesRecordedSnapshot(w: World, ms: seq<Move>)
    requires w.status == EMPTY_STATUS
    ensures Names(After(w, ms).job, After(w, ms).status.preUpdateSnapshot)
  {
    if ms != [] {
      var prefix, m := ms[..|ms| - 1], ms[|ms| - 1];
      JobMatchesRecordedSnapshot(w, prefix);
      if m.Reconcile? {
        PassKeepsKey(After(w, prefix), m.call);
      }
    }
  }

  // ---------- when a Job is created ----------

  lemma StartKeepsJob(p: Pass, c: Call, tag: string)
    ensures p.world.job.Some? ==> StartRollout(p, c, tag).0.world.job == p.world.job
  {
    if NeedsBackup(p.world.spec, c) {
      RollForwardKeepsKey(OneShot(p, c).0, c, tag);
    } else {
      RollForwardKeepsKey(p, c, tag);
    }
  }

  /** No pass replaces, changes or removes a stored pre-update Job, whatever became of it. */
  lemma PassKeepsJob(w: World, c: Call)
    ensures w.job.Some? ==> InstancePass(w, c).job == w.job
  {
    if w.spec.enabled && c.hasRegistry {
      if w.status.targetTag != "" {
        DriveKeepsKey(Pass(w, w.status), c);
      } else if c.poll.Picked? && c.poll.pick.Best? {
        StartKeepsJob(Pass(w, w.status.(lastCheckTime := Some(w.clock))), c, c.poll.pick.tag);
      }
    }
  }

  /** The operations a Job creation needs; a key that is already recorded is not written. */
  predicate CanCreateJob(w: World, c: Call) {
    c.api.getJob && (w.status.preUpdateSnapshot == "" ==> c.api.writeSnapshot) && c.api.createJob
  }

  lemma GateCreatesJob(p: Pass, c: Call)
    requires p.world.job.None? && p.mem.preUpdateSnapshot == p.world.status.preUpdateSnapshot
    ensures OneShot(p, c).0.world.job.Some? <==> CanCreateJob(p.world, c)
    ensures !OneShot(p, c).1.Open?
  {
  }

  /** A pass creates the Job exactly when none is stored, it wants to start a rollout, the
      backup is asked for and the operations of the creation work. */
  lemma JobCreationVerdict(w: World, c: Call)
    requires w.job.None?
    ensures InstancePass(w, c).job.Some? <==>
      w.status.targetTag == "" && Wanted(w, c).Some? && NeedsBackup(w.spec, c) && CanCreateJob(w, c)
  {
    if w.spec.enabled && c.hasRegistry {
      if w.status.targetTag != "" {
        DriveKeepsKey(Pass(w, w.status), c);
      } else if !TooSoon(Pass(w, w.status)) && c.poll.Picked? && c.poll.pick.Best? {
        var checked := Pass(w, w.status.(lastCheckTime := Some(w.clock)));
        GateCreatesJob(checked, c);
        RollForwardKeepsKey(checked, c, c.poll.pick.tag);
      }
    }
  }

  // ---------- without a Complete Job nothing starts ----------

  predicate JobComplete(w: World) {
    w.job.Some? && Verdict(w.job.value.conditions) == Some(Complete)
  }

  /** Backups are asked for and possible, in every spec and every pass of the run. */
  ghost predicate AsksForBackup(spec: Spec, ms: seq<Move>) {
    && spec.backupBeforeUpdate.GetOr(true) && spec.s3Prefix.Some?
    && forall m :: m in ms ==>
         && (m.Reconcile? ==> m.call.hasBackup)
         && (m.EditSpec? ==> m.spec.backupBeforeUpdate.GetOr(true) && m.spec.s3Prefix.Some?)
  }

  ghost predicate NeverCompletes(ms: seq<Move>) {
    forall m :: m in ms && m.ReplaceJobConditions? ==> Verdict(m.conditions) != Some(Complete)
  }

  ghost predicate LeavesJob(ms: seq<Move>) {
    forall m :: m in ms ==> !m.ReplaceJobConditions? && !m.RemoveJob?
  }

  lemma MoveCompletesNothing(w: World, m: Move)
    requires !JobComplete(w) && (m.ReplaceJobConditions? ==> Verdict(m.conditions) != Some(Complete))
    ensures !JobComplete(Apply(w, m))
  {
    if m.Reconcile? {
      if w.job.Some? {
        PassKeepsJob(w, m.call);
      } else {
        NewJobRuns(w, m.call);
      }
    }
  }

  lemma NewJobRuns(w: World, c: Call)
    requires w.job.None?
    ensures InstancePass(w, c).job.Some? ==> InstancePass(w, c).job.value.conditions == []
  {
    JobCreationVerdict(w, c);
    if w.status.targetTag == "" && Wanted(w, c).Some? {
      var checked := Pass(w, w.status.(lastCheckTime := Some(w.clock)));
      RollForwardKeepsKey(checked, c, c.poll.pick.tag);
    }
  }

  lemma {:induction false} NothingCompletes(w: World, ms: seq<Move>)
    requires !JobComplete(w) && NeverCompletes(ms)
    ensures !JobComplete(After(w, ms))
  {
    if ms != [] {
      var prefix, m := ms[..|ms| - 1], ms[|ms| - 1];
      assert m in ms;
      forall k | k in prefix ensures k in ms {}
      NothingCompletes(w, prefix);
      MoveCompletesNothing(After(w, prefix), m);
    }
  }

  lemma {:induction false} BackupStaysAskedFor(w: World, ms: seq<Move>)
    requires AsksForBackup(w.spec, ms)
    ensures After(w, ms).spec.backupBeforeUpdate.GetOr(true) && After(w, ms).spec.s3Prefix.Some?
  {
    if ms != [] {
      var prefix, m := ms[..|ms| - 1], ms[|ms| - 1];
      assert m in ms;
      forall k | k in prefix ensures k in ms {}
      BackupStaysAskedFor(w, prefix);
      PassKeepsSpec(After(w, prefix), m);
    }
  }

  lemma PassKeepsSpec(w: World, m: Move)
    ensures !m.EditSpec? ==> Apply(w, m).spec == w.spec
  {
    if m.Reconcile? {
      assert AutoUpdate.Reconcile(Pass(w, w.status), m.call).0.world.spec == w.spec;
    }
  }

  /** While the backup is asked for and no pre-update Job is Complete, no run starts a
      rollout, however many Jobs are created, fail, are removed and are created again. */
  lemma {:induction false} NoStartWithoutCompleteJob(w: World, ms: seq<Move>)
    requires Coherent(w.status) && NamesTags(ms) && AsksForBackup(w.spec, ms)
    requires !JobComplete(w) && NeverCompletes(ms)
    ensures Coherent(After(w, ms).status) && Starts(Log(w, ms)) == []
  {
    if ms != [] {
      var prefix, m := ms[..|ms| - 1], ms[|ms| - 1];
      assert m in ms;
      forall k | k in prefix ensures k in ms {}
      NamesTagsPrefix(ms);
      NamesLast(ms);
      NoStartWithoutCompleteJob(w, prefix);
      NothingCompletes(w, prefix);
      BackupStaysAskedFor(w, prefix);
      var v := After(w, prefix);
      MoveObserved(v, m);
      var seen := Observe(v.status, After(w, ms).status, v.clock);
      if m.Reconcile? && v.status.targetTag == "" {
        assert [m][0].Reconcile?;
        StartVerdict(v, m.call);
      }
      assert seen == [] || !seen[0].RolloutStarted?;
      StartsSnoc(Log(w, prefix), seen);
    }
  }

  lemma StartsSnoc(log: seq<RolloutEvent>, seen: seq<RolloutEvent>)
    requires |seen| <= 1 && (seen == [] || !seen[0].RolloutStarted?)
    ensures Starts(log + seen) == Starts(log)
  {
    if seen == [] {
      assert log + seen == log;
    } else {
      assert (log + seen)[..|log|] == log;
    }
  }

  /** A failed pre-update Job that nobody touches blocks for good: it is neither replaced nor
      created anew, and no rollout starts. */
  lemma FailedJobBlocks(w: World, ms: seq<Move>)
    requires Coherent(w.status) && NamesTags(ms) && AsksForBackup(w.spec, ms)
    requires w.job.Some? && Verdict(w.job.value.conditions) == Some(Failed) && LeavesJob(ms)
    ensures After(w, ms).job == w.job && Starts(Log(w, ms)) == []
  {
    NoStartWithoutCompleteJob(w, ms);
    UntouchedJobStays(w, ms);
  }

  lemma {:induction false} UntouchedJobStays(w: World, ms: seq<Move>)
    requires w.job.Some? && LeavesJob(ms)
    ensures After(w, ms).job == w.job
  {
    if ms != [] {
      var prefix, m := ms[..|ms| - 1], ms[|ms| - 1];
      assert m in ms;
      forall k | k in prefix ensures k in ms {}
      UntouchedJobStays(w, prefix);
      if m.Reconcile? {
        PassKeepsJob(After(w, prefix), m.call);
      }
    }
  }
}
