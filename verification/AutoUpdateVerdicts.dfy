/** What one pass of auto-update does, in terms of the fields it reads: no decision of the
    phases is taken on trust here, only the stored objects and the operations that work. */
module AutoUpdateVerdicts {
  import opened Wrappers
  import opened Clock
  import opened Jobs
  import opened Oci
  import opened AutoUpdate
  import opened AutoUpdateRuns
  import opened AutoUpdateReconcilers
  import opened AutoUpdateGuarantees
  import opened AutoUpdateBackups
  import opened SemVer

  /** What an observer sees of one pass. */
  function Seen(w: World, c: Call): seq<RolloutEvent> {
    Observe(w.status, InstancePass(w, c).status, w.clock)
  }

  // ---------- confirmation ----------

  /** A rollout is confirmed exactly when the one replica is ready, is of the new template and
      belongs to a revision, and the confirmation can be stored. */
  lemma ConfirmationVerdict(w: World, c: Call)
    requires Coherent(w.status) && w.status.targetTag != "" && c.poll != Picked(Best(""))
    ensures Seen(w, c) == [RolloutConfirmed(w.status.targetTag)] <==>
      && w.spec.enabled && c.hasRegistry && w.sts.Some?
      && w.sts.value.readyReplicas == 1 && w.sts.value.updatedReplicas == 1 && w.sts.value.currentRevision != ""
      && c.api.getSts && (c.api.writeStatus || (c.api.readForStatus && c.api.finalStatus))
  {
    var startedAt := w.status.rolloutDeadline.value - ROLLOUT_WINDOW;
    StartedOnASecond(w.status, startedAt);
    PassVerdict(w, c, startedAt);
  }

  lemma StartedOnASecond(s: Status, startedAt: int)
    requires Coherent(s) && s.rolloutDeadline.Some? && startedAt == s.rolloutDeadline.value - ROLLOUT_WINDOW
    ensures Truncated(startedAt) == startedAt
  {
    TruncatedIsStable(startedAt);
  }

  /** The same in every run: a log grows by a confirmation in exactly these passes. */
  lemma ConfirmationInRuns(w: World, ms: seq<Move>, c: Call)
    requires w.status == EMPTY_STATUS && NamesTags(ms) && c.poll != Picked(Best(""))
    requires After(w, ms).status.targetTag != ""
    ensures var v := After(w, ms);
      Log(w, ms + [Reconcile(c)]) == Log(w, ms) + [RolloutConfirmed(v.status.targetTag)] <==>
        && v.spec.enabled && c.hasRegistry && v.sts.Some?
        && v.sts.value.readyReplicas == 1 && v.sts.value.updatedReplicas == 1 && v.sts.value.currentRevision != ""
        && c.api.getSts && (c.api.writeStatus || (c.api.readForStatus && c.api.finalStatus))
  {
    StaysCoherent(w, ms);
    LogSnoc(w, ms, Reconcile(c));
    ConfirmationVerdict(After(w, ms), c);
    SameTail(Log(w, ms), Seen(After(w, ms), c), [RolloutConfirmed(After(w, ms).status.targetTag)]);
  }

  lemma SameTail(log: seq<RolloutEvent>, a: seq<RolloutEvent>, b: seq<RolloutEvent>)
    ensures log + a == log + b <==> a == b
  {
    assert (log + a)[|log|..] == a && (log + b)[|log|..] == b;
  }

  // ---------- rollback ----------

  /** A failing probe or mount of the instance's pod, last seen since the window began. */
  predicate BadSign(e: Event, id: Identity, since: int) {
    && e.kind == "Pod" && e.name == id.name + "-0"
    && (e.reason == "Unhealthy" || e.reason == "FailedMount")
    && e.lastSeen >= since
  }

  ghost function BadSigns(w: World, since: int): set<int> {
    set i | 0 <= i < |w.events| && BadSign(w.events[i], w.id, since)
  }

  lemma CountIsBadSigns(w: World, s: Status)
    requires s.rolloutDeadline.Some?
    ensures CountedFailures(w, s) == |BadSigns(w, s.rolloutDeadline.value - ROLLOUT_WINDOW)|
  {
    var since := s.rolloutDeadline.value - ROLLOUT_WINDOW;
    ProbeFailuresCountsEachEvent(w.events, PodName(w.id), Some(since));
    assert BadSigns(w, since) == FailureIndices(w.events, PodName(w.id), Some(since));
  }

  /** The configured number of failures, or three. */
  predicate TooMany(count: int, spec: Spec) {
    if spec.probeFailureThreshold > 0 then count >= spec.probeFailureThreshold else count >= 3
  }

  /** A rollout is rolled back exactly when the replica is not as a confirmation needs it,
      rollback is not switched off, there are too many bad signs since the window began or the
      deadline is past, and the operations of a rollback work; it leads to the last confirmed
      tag, or else to that of the spec. */
  lemma RollbackVerdict(w: World, c: Call)
    requires Coherent(w.status) && w.status.targetTag != "" && c.poll != Picked(Best(""))
    ensures var deadline := w.status.rolloutDeadline.value;
      var to := if w.status.lastSuccessTag == "" then w.spec.tag else w.status.lastSuccessTag;
      Seen(w, c) == [RolloutRolledBack(w.status.targetTag, to)] <==>
        && w.spec.enabled && c.hasRegistry && w.sts.Some? && w.sts.value.images != []
        && (w.sts.value.readyReplicas != 1 || w.sts.value.updatedReplicas != 1 || w.sts.value.currentRevision == "")
        && w.spec.rollbackEnabled != Some(false)
        && (TooMany(|BadSigns(w, deadline - 300_000_000_000)|, w.spec) || w.clock > deadline)
        && c.api.getSts && c.api.listEvents && c.api.getStsAgain && c.api.patchSts
        && (c.api.writeStatus || (c.api.readForStatus && c.api.finalStatus))
  {
    var startedAt := w.status.rolloutDeadline.value - ROLLOUT_WINDOW;
    StartedOnASecond(w.status, startedAt);
    PassVerdict(w, c, startedAt);
    CauseIsTheTest(w, startedAt);
    CountIsBadSigns(w, w.status);
  }

  // ---------- start ----------

  /** The image reference of a tag, spelled out. */
  predicate IsImage(image: string, spec: Spec, tag: string) {
    image == (if spec.repository != "" then spec.repository else "ghcr.io/paperclipinc/hermes-agent") + ":" + tag
  }

  /** The tag is neither the last failed one nor the one that runs by the record, which is that
      of the spec as long as nothing was recorded. */
  predicate IsNews(w: World, tag: string) {
    && tag != w.status.lastFailedTag
    && (w.status.currentTag != "" ==> tag != w.status.currentTag)
    && (w.status.currentTag == "" ==> tag != w.spec.tag)
  }

  /** Backups are not switched off, there is a place for them, and the part is wired. */
  predicate BackupFirst(w: World, c: Call) {
    w.spec.backupBeforeUpdate != Some(false) && w.spec.s3Prefix.Some? && c.hasBackup
  }

  ghost predicate BackupComplete(w: World) {
    w.job.Some? && exists i: nat :: DecidesAt(w.job.value.conditions, i, Complete)
  }

  /** A quarter of an hour to a week, an hour where nothing sensible is configured. */
  lemma IntervalVerdict(i: Interval)
    ensures var d := ParsePollInterval(i);
      && 900_000_000_000 <= d <= 604_800_000_000_000
      && (i.Unset? || i.Malformed? ==> d == 3_600_000_000_000)
      && (i.Duration? ==> forall x :: 900_000_000_000 <= x <= 604_800_000_000_000 ==> Distance(d, i.ns) <= Distance(x, i.ns))
  {
  }

  function Distance(a: int, b: int): int {
    if a < b then b - a else a - b
  }

  /** A rollout starts exactly when nothing is in flight, the last check is one interval old, the
      registry's answer is news, a backup that is wanted first is Complete, and the operations
      of a start work. */
  lemma StartOverFields(w: World, c: Call, tag: string)
    requires Coherent(w.status) && w.status.targetTag == "" && c.poll != Picked(Best(""))
    ensures Seen(w, c) == [RolloutStarted(tag, w.clock)] <==>
      && w.spec.enabled && c.hasRegistry
      && (w.status.lastCheckTime.Some? ==> w.clock - w.status.lastCheckTime.value >= ParsePollInterval(w.spec.pollInterval))
      && c.poll == Picked(Best(tag)) && IsNews(w, tag)
      && (BackupFirst(w, c) ==> c.api.getJob && BackupComplete(w))
      && c.api.getSts && w.sts.Some? && w.sts.value.images != []
      && (IsImage(w.sts.value.images[0], w.spec, tag) || c.api.patchSts)
      && c.api.patchAnnotation && (c.api.writeStatus || (c.api.readForStatus && c.api.finalStatus))
  {
    StartVerdict(w, c);
    GateOverFields(w, c);
    WantedOverFields(w, c, tag);
  }

  lemma GateOverFields(w: World, c: Call)
    ensures NeedsBackup(w.spec, c) <==> BackupFirst(w, c)
    ensures GateOpen(w, c) <==> (BackupFirst(w, c) ==> BackupComplete(w))
  {
    if w.job.Some? {
      FirstTerminalDecides(w.job.value.conditions, Complete);
    }
  }

  lemma WantedOverFields(w: World, c: Call, tag: string)
    ensures Wanted(w, c) == Some(tag) <==>
      && w.spec.enabled && c.hasRegistry
      && (w.status.lastCheckTime.Some? ==> w.clock - w.status.lastCheckTime.value >= ParsePollInterval(w.spec.pollInterval))
      && c.poll == Picked(Best(tag)) && IsNews(w, tag)
  {
  }

  // ---------- what the pass leaves besides the record ----------

  /** A recorded event has the image reference it needs in the first container, spelled out. */
  lemma EventImage(w: World, c: Call, e: RolloutEvent)
    requires Coherent(w.status) && c.poll != Picked(Best("")) && Seen(w, c) == [e] && !e.RolloutConfirmed?
    ensures var after := InstancePass(w, c);
      && after.sts.Some? && after.sts.value.images != []
      && IsImage(after.sts.value.images[0], w.spec, if e.RolloutStarted? then e.tag else e.to)
  {
    PassFollows(w, c);
    ObserveFollows(w, c, InstancePass(w, c).status);
    if w.status.targetTag != "" {
      assert AutoUpdate.Reconcile(Pass(w, w.status), c).0 == DriveRollout(Pass(w, w.status), c).0;
      var counted := Pass(w, w.status.(probeFailures := CountedFailures(w, w.status)));
      assert RollBack(counted, c).0.mem == counted.mem || IsImage(RollBack(counted, c).0.world.sts.value.images[0], w.spec, e.to);
    } else {
      StartImage(w, c, e.tag);
    }
  }

  lemma StartImage(w: World, c: Call, tag: string)
    requires Coherent(w.status) && w.status.targetTag == "" && tag != ""
    requires Seen(w, c) == [RolloutStarted(tag, w.clock)] && c.poll != Picked(Best(""))
    ensures var after := InstancePass(w, c);
      after.sts.Some? && after.sts.value.images != [] && IsImage(after.sts.value.images[0], w.spec, tag)
  {
    StartVerdict(w, c);
    var checked := Pass(w, w.status.(lastCheckTime := Some(w.clock)));
    if NeedsBackup(w.spec, c) {
      GateOpens(checked, c);
    }
    RollForwardTargets(checked, c, tag);
  }

  /** The announcement on the instance is taken back exactly when an outcome was stored by its
      own phase and the patch works; a pass over a rollout changes it in no other way. */
  lemma AnnouncementAfterOutcome(w: World, c: Call)
    requires Coherent(w.status) && w.status.targetTag != "" && c.poll != Picked(Best(""))
    ensures InstancePass(w, c).annotation ==
      if Seen(w, c) != [] && c.api.writeStatus && c.api.clearAnnotation then "" else w.annotation
  {
    PassEnds(w, c);
    if w.spec.enabled && c.hasRegistry {
      RollBackAnnouncement(Pass(w, w.status.(probeFailures := CountedFailures(w, w.status))), c);
    }
  }

  lemma RollBackAnnouncement(p: Pass, c: Call)
    ensures RollBack(p, c).0.world.annotation ==
      if c.api.getStsAgain && p.world.sts.Some? && p.world.sts.value.images != [] && c.api.patchSts
         && c.api.writeStatus && c.api.clearAnnotation then "" else p.world.annotation
  {
  }

  /** The condition an operator reads after a pass that recorded an outcome. */
  lemma ConditionAfterOutcome(w: World, c: Call)
    requires Coherent(w.status) && w.status.targetTag != "" && c.poll != Picked(Best("")) && Seen(w, c) != []
    ensures var s, e := InstancePass(w, c).status, Seen(w, c)[0];
      && (e.RolloutConfirmed? ==> s.autoUpdated == Some(ReasonConfirmed) && s.rolledBackFrom == None)
      && (e.RolloutRolledBack? ==> s.autoUpdated == Some(ReasonRolledBack) && s.rolledBackFrom == Some(e.tag))
  {
    PassFollows(w, c);
    ObserveFollows(w, c, InstancePass(w, c).status);
    PassEnds(w, c);
    OutcomeCondition(w, c);
  }

  lemma OutcomeCondition(w: World, c: Call)
    requires Coherent(w.status) && w.status.targetTag != "" && InstancePass(w, c).status.targetTag == ""
    ensures InstancePass(w, c).status.autoUpdated == Some(if Ready(w.sts.value) then ReasonConfirmed else ReasonRolledBack)
  {
    PassEnds(w, c);
    if !Ready(w.sts.value) {
      RollBackWrites(Pass(w, w.status.(probeFailures := CountedFailures(w, w.status))), c);
    }
  }

  /** And after a poll that starts nothing and could be stored: no answer leaves it, no match, a
      suppressed tag and the running tag each show as what they are. */
  lemma ConditionAfterPoll(w: World, c: Call)
    requires Coherent(w.status) && w.status.targetTag == "" && w.spec.enabled && c.hasRegistry && !TooSoon(Pass(w, w.status))
    requires c.api.writeStatus || (c.api.readForStatus && w.sts.Some? && c.api.finalStatus)
    requires c.poll.Picked? && c.poll.pick.Best? ==> !IsNews(w, c.poll.pick.tag)
    requires c.poll != Picked(BadChannel)
    ensures InstancePass(w, c).status.autoUpdated ==
      match c.poll
      case ListFailed => w.status.autoUpdated
      case Picked(BadChannel) => w.status.autoUpdated
      case Picked(NoMatch) => Some(NoMatchingTag)
      case Picked(Best(tag)) => Some(if tag == w.status.lastFailedTag then SuppressedKnownFailure else UpToDate)
  {
  }

  /** While a rollout goes on with an unready pod, the stored counter is the number of bad signs
      since the window began. */
  lemma CounterWhileWaiting(w: World, c: Call)
    requires Coherent(w.status) && w.status.targetTag != "" && c.poll != Picked(Best(""))
    requires w.spec.enabled && c.hasRegistry && w.sts.Some? && !Ready(w.sts.value) && !MustRollBack(w, w.status)
    requires c.api.getSts && c.api.listEvents && (c.api.writeStatus || (c.api.readForStatus && c.api.finalStatus))
    ensures InstancePass(w, c).status == w.status.(probeFailures := |BadSigns(w, w.status.rolloutDeadline.value - 300_000_000_000)|)
  {
    CountIsBadSigns(w, w.status);
  }

  // ---------- when the next pass is asked for ----------

  /** Ten or fifteen seconds, a minute after a failed backup, or one poll interval. */
  predicate IsRequeue(after: int, interval: int) {
    after in {10_000_000_000, 15_000_000_000, 60_000_000_000, interval}
  }

  /** A call without an error asks to be called again, except when auto-update is off or a
      rollout has just ended; a rollout in flight is looked at again after fifteen seconds. */
  lemma RequeueVerdict(w: World, c: Call)
    ensures var (q, r) := AutoUpdate.Reconcile(Pass(w, w.status), c);
      && (r.Requeue? ==> IsRequeue(r.after, ParsePollInterval(w.spec.pollInterval)))
      && (r.Done? ==> !w.spec.enabled || !c.hasRegistry || (w.status.targetTag != "" && q.world.status.targetTag == ""))
      && (r.Requeue? && q.world.status.targetTag != "" ==> r.after == 15_000_000_000)
  {
    if w.spec.enabled && c.hasRegistry {
      if w.status.targetTag != "" {
        DriveRequeue(w, c);
      } else if c.poll.Picked? && c.poll.pick.Best? {
        StartRequeue(Pass(w, w.status.(lastCheckTime := Some(w.clock))), c, c.poll.pick.tag);
      }
    }
  }

  lemma DriveRequeue(w: World, c: Call)
    requires w.status.targetTag != ""
    ensures var (q, r) := DriveRollout(Pass(w, w.status), c);
      && (r.Requeue? ==> r.after == 15_000_000_000)
      && (r.Done? ==> q.world.status.targetTag == "")
  {
  }

  lemma StartRequeue(p: Pass, c: Call, tag: string)
    requires p.world.status.targetTag == "" && p.mem.targetTag == ""
    ensures var (q, r) := StartRollout(p, c, tag);
      && !r.Done?
      && (r.Requeue? ==> r.after in {10_000_000_000, 15_000_000_000, 60_000_000_000})
      && (r.Requeue? && q.world.status.targetTag != "" ==> r.after == 15_000_000_000)
  {
    var q := OneShot(p, c).0;
    assert q.world.status.targetTag == "" && q.mem.targetTag == "";
  }

  /** In particular: a minute after the backup failed, ten seconds while it is awaited, and one
      interval when the answer starts nothing. */
  lemma WaitingVerdict(w: World, c: Call)
    requires Coherent(w.status) && w.status.targetTag == "" && w.spec.enabled && c.hasRegistry
    ensures var (q, r) := AutoUpdate.Reconcile(Pass(w, w.status), c);
      && (TooSoon(Pass(w, w.status)) ==> r == Requeue(ParsePollInterval(w.spec.pollInterval)))
      && (Wanted(w, c).Some? && BackupFirst(w, c) && c.api.getJob && w.job.Some? ==>
           && ((exists i: nat :: DecidesAt(w.job.value.conditions, i, Failed)) ==> r == Requeue(60_000_000_000))
           && ((forall i: nat, k: ConditionType :: !DecidesAt(w.job.value.conditions, i, k)) ==> r == Requeue(10_000_000_000)))
      && (Wanted(w, c).Some? && BackupFirst(w, c) && w.job.None? && q.world.job.Some? ==> r == Requeue(10_000_000_000))
      && (Wanted(w, c).None? && !TooSoon(Pass(w, w.status)) && c.poll != Picked(BadChannel) && c.api.writeStatus ==>
           r == Requeue(ParsePollInterval(w.spec.pollInterval)))
  {
    if w.job.Some? {
      FirstTerminalDecides(w.job.value.conditions, Failed);
      FirstTerminalDecides(w.job.value.conditions, Complete);
    }
  }

  // ---------- where the tag comes from ----------

  /** A tag that is polled is published where the spec says, or else where the instance's image
      comes from; it is a version in the configured channel, or else in the major line of the
      instance's tag; and no such version that is published there ranks higher. */
  lemma PolledTagIsHighest(lib: Library, registry: Registry, spec: Spec, tag: string)
    requires Polled(lib, registry, spec, Picked(Best(tag)))
    ensures var repository := if spec.sourceRegistry != "" then spec.sourceRegistry else spec.repository;
      var channel := if spec.channel != "" then spec.channel else DefaultChannel(lib, spec.tag);
      && registry(repository).Some? && tag in registry(repository).value
      && lib.parse(tag).Some? && lib.constraint(channel).Some? && lib.constraint(channel).value(lib.parse(tag).value)
      && forall t :: t in registry(repository).value && lib.parse(t).Some? && lib.constraint(channel).value(lib.parse(t).value) ==>
           !Section11(lib.parse(tag).value, lib.parse(t).value)
  {
    var repository := if spec.sourceRegistry != "" then spec.sourceRegistry else spec.repository;
    var channel := if spec.channel != "" then spec.channel else DefaultChannel(lib, spec.tag);
    forall t | t in registry(repository).value && lib.parse(t).Some? && lib.constraint(channel).value(lib.parse(t).value)
      ensures !Section11(lib.parse(tag).value, lib.parse(t).value)
    {
      PrecedenceIsSection11(lib.parse(tag).value, lib.parse(t).value);
    }
  }

  // ---------- the pre-update Job ----------

  /** A Job is created for the recorded key, or for a fresh one of this instance and time, which
      is then recorded. */
  lemma CreatedJobKey(w: World, c: Call)
    requires w.job.None? && InstancePass(w, c).job.Some? && w.spec.s3Prefix.Some?
    ensures InstancePass(w, c).job == Some(Job(
      if w.status.preUpdateSnapshot != "" then w.status.preUpdateSnapshot
      else SnapshotKey(w.spec.s3Prefix.value, w.id, c.stamp), []))
    ensures w.status.preUpdateSnapshot == "" ==> InstancePass(w, c).status.preUpdateSnapshot == InstancePass(w, c).job.value.snapshotKey
  {
    JobCreationVerdict(w, c);
    var checked := Pass(w, w.status.(lastCheckTime := Some(w.clock)));
    GateCreatesJob(checked, c);
    assert AutoUpdate.Reconcile(Pass(w, w.status), c).0 == OneShot(checked, c).0;
    SnapshotKeyShape(w.spec.s3Prefix.value, w.id, c.stamp);
  }

  // ---------- the pod template ----------

  /** The image the instance controller writes: the digest where there is one, else the tag, else
      latest. */
  lemma TemplateImage(w: World, sidecars: seq<string>)
    ensures var sts := WithSpecImage(w, sidecars).sts;
      var repository := if w.spec.repository != "" then w.spec.repository else "ghcr.io/paperclipinc/hermes-agent";
      && sts.Some? && sts.value.images != [] && sts.value.images[1..] == sidecars
      && (w.sts.Some? ==> sts.value.(images := w.sts.value.images) == w.sts.value)
      && (w.sts.None? ==> sts.value.readyReplicas == 0 && sts.value.updatedReplicas == 0)
      && (w.spec.digest != "" ==> sts.value.images[0] == repository + "@" + w.spec.digest)
      && (w.spec.digest == "" && w.spec.tag != "" ==> sts.value.images[0] == repository + ":" + w.spec.tag)
      && (w.spec.digest == "" && w.spec.tag == "" ==> sts.value.images[0] == repository + ":latest")
  {
    assert ":" + "latest" == ":latest";
    var r := Repository(w.spec);
    assert (r + ":") + "latest" == r + (":" + "latest");
  }
}
