/** The sub-controller itself, phase by phase, as methods that assign the in-memory status
    and write the API server. Each is proved to leave what its phase function says. */
module AutoUpdateReconcilers {
  import opened Wrappers
  import opened Clock
  import opened Jobs
  import opened Oci
  import opened AutoUpdate

  type Registry = string -> Option<seq<string>>

  /** The answer of a poll is one the registry and the channel allow. */
  ghost predicate Polled(lib: Library, registry: Registry, spec: Spec, poll: Poll) {
    var repository := if spec.sourceRegistry == "" then spec.repository else spec.sourceRegistry;
    var channel := if spec.channel == "" then DefaultChannel(lib, spec.tag) else spec.channel;
    match poll
    case ListFailed => registry(repository).None?
    case Picked(pick) => registry(repository).Some? && Answers(lib, registry(repository).value, channel, pick)
  }

  class AutoUpdateReconciler {
    var world: World
    var status: Status
    const hasRegistry: bool
    const hasBackup: bool

    ghost function State(): Pass
      reads this
    {
      Pass(world, status)
    }

    /** Reads the instance. */
    constructor (world: World, hasRegistry: bool, hasBackup: bool)
      ensures State() == Pass(world, world.status)
      ensures this.hasRegistry == hasRegistry && this.hasBackup == hasBackup
    {
      this.world := world;
      this.status := world.status;
      this.hasRegistry := hasRegistry;
      this.hasBackup := hasBackup;
    }

    method WriteStatus(succeeds: bool) returns (ok: bool)
      modifies this
      ensures ok == succeeds
      ensures State() == if ok then Write(old(State())) else old(State())
    {
      ok := succeeds;
      if ok {
        world := world.(status := Stored(status));
      }
    }

    method PatchImage(tag: string)
      requires world.sts.Some? && world.sts.value.images != []
      modifies this`world
      ensures world.sts.Some? && |world.sts.value.images| == |old(world).sts.value.images|
      ensures world.sts.value.images[0] == ImageOf(world.spec, tag)
      ensures forall i :: 1 <= i < |world.sts.value.images| ==> world.sts.value.images[i] == old(world).sts.value.images[i]
      ensures world.sts.value.(images := old(world).sts.value.images) == old(world).sts.value
      ensures world.(sts := old(world).sts) == old(world)
    {
      var sts := world.sts.value;
      world := world.(sts := Some(sts.(images := sts.images[0 := ImageOf(world.spec, tag)])));
    }

    /** BackupReconciler.RunOneShot. */
    method RunOneShot(c: Call) returns (key: string, gate: Gate)
      modifies this
      ensures (State(), gate) == OneShot(old(State()), c)
      ensures gate.Waiting? && old(world).job.None? ==> world.job == Some(Job(key, [])) && key == status.preUpdateSnapshot
    {
      key := SnapshotKey(world.spec.s3Prefix.GetOr(""), world.id, c.stamp);
      if !c.api.getJob {
        return "", GateError;
      }
      if world.job.None? {
        if status.preUpdateSnapshot == "" {
          status := status.(preUpdateSnapshot := key);
          var ok := WriteStatus(c.api.writeSnapshot);
          if !ok {
            return "", GateError;
          }
        } else {
          key := status.preUpdateSnapshot;
        }
        if !c.api.createJob {
          return "", GateError;
        }
        world := world.(job := Some(Job(key, [])));
        return key, Waiting;
      }
      var verdict := Verdict(world.job.value.conditions);
      if verdict.None? {
        return status.preUpdateSnapshot, Waiting;
      }
      if verdict.value == Failed {
        return status.preUpdateSnapshot, GateError;
      }
      return status.preUpdateSnapshot, Open;
    }

    method StartRollout(c: Call, tag: string) returns (r: Result)
      requires c.hasBackup == hasBackup
      modifies this
      ensures (State(), r) == AutoUpdate.StartRollout(old(State()), c, tag)
    {
      var needsBackup := world.spec.backupBeforeUpdate.None? || world.spec.backupBeforeUpdate.value;
      if needsBackup && world.spec.s3Prefix.Some? && hasBackup {
        var _, gate := RunOneShot(c);
        if gate.GateError? {
          return Requeue(MINUTE);
        }
        if gate.Waiting? {
          return Requeue(10 * SECOND);
        }
      }
      r := RollForward(c, tag);
    }

    /** The part of StartRollout behind the backup gate. */
    method RollForward(c: Call, tag: string) returns (r: Result)
      modifies this
      ensures (State(), r) == AutoUpdate.RollForward(old(State()), c, tag)
    {
      if !c.api.getSts {
        return Error;
      }
      if world.sts.None? {
        return Requeue(10 * SECOND);
      }
      if |world.sts.value.images| == 0 {
        return Error;
      }
      if world.sts.value.images[0] != ImageOf(world.spec, tag) {
        if !c.api.patchSts {
          return Error;
        }
        PatchImage(tag);
      }
      assert world.sts.value.images == old(world).sts.value.images[0 := ImageOf(world.spec, tag)];
      if !c.api.patchAnnotation {
        return Error;
      }
      world := world.(annotation := tag);
      status := status.(targetTag := tag);
      status := status.(rolloutDeadline := Some(world.clock + ROLLOUT_WINDOW));
      status := status.(probeFailures := 0);
      status := status.(autoUpdated := Some(RolloutInFlight));
      var ok := WriteStatus(c.api.writeStatus);
      return if ok then Requeue(15 * SECOND) else Error;
    }

    /** The ending shared by a confirmed and a rolled-back rollout. */
    method Settle(c: Call) returns (r: Result)
      modifies this
      ensures (State(), r) == Settled(old(State()), c)
    {
      var ok := WriteStatus(c.api.writeStatus);
      if !ok {
        return Error;
      }
      if world.annotation != "" {
        if !c.api.clearAnnotation {
          return Error;
        }
        world := world.(annotation := "");
      }
      return Done;
    }

    method ConfirmRollout(c: Call, target: string) returns (r: Result)
      requires target == status.targetTag
      modifies this
      ensures (State(), r) == Settled(Pass(old(world), Confirmed(old(status))), c)
    {
      status := status.(lastSuccessTag := target);
      status := status.(currentTag := target);
      status := status.(targetTag := "");
      status := status.(rolloutDeadline := None);
      status := status.(probeFailures := 0);
      status := status.(preUpdateSnapshot := "");
      status := status.(autoUpdated := Some(ReasonConfirmed));
      status := status.(rolledBackFrom := None);
      r := Settle(c);
    }

    method Rollback(c: Call, failedTag: string) returns (r: Result)
      requires failedTag == status.targetTag
      modifies this
      ensures (State(), r) == RollBack(old(State()), c)
    {
      var previous := status.lastSuccessTag;
      if previous == "" {
        previous := world.spec.tag;
      }
      if !c.api.getStsAgain || world.sts.None? {
        return Error;
      }
      if |world.sts.value.images| == 0 || !c.api.patchSts {
        return Error;
      }
      PatchImage(previous);
      assert world.sts.value.images == old(world).sts.value.images[0 := ImageOf(world.spec, previous)];
      status := status.(lastFailedTag := failedTag);
      status := status.(targetTag := "");
      status := status.(rolloutDeadline := None);
      status := status.(currentTag := previous);
      status := status.(rolledBackFrom := Some(failedTag));
      status := status.(autoUpdated := Some(ReasonRolledBack));
      r := Settle(c);
    }

    method CountProbeFailures() returns (count: nat)
      ensures count == CountedFailures(world, status)
    {
      var pod := PodName(world.id);
      count := 0;
      for i := 0 to |world.events|
        invariant count == ProbeFailures(world.events[..i], pod, WindowStart(status))
      {
        var e := world.events[i];
        assert world.events[..i + 1][..i] == world.events[..i];
        if e.name != pod || e.kind != "Pod" {
          continue;
        }
        if e.reason != "Unhealthy" && e.reason != "FailedMount" {
          continue;
        }
        if status.rolloutDeadline.Some? {
          var windowStart := status.rolloutDeadline.value - ROLLOUT_WINDOW;
          if e.lastSeen < windowStart {
            continue;
          }
        }
        count := count + 1;
      }
      assert world.events[..|world.events|] == world.events;
    }

    /** The rollback decision, on a failure count already stored in the status. */
    method ShouldRollBack(failures: nat) returns (yes: bool)
      requires failures == CountedFailures(world, status)
      ensures yes == MustRollBack(world, status)
    {
      var pastDeadline := status.rolloutDeadline.Some? && world.clock > status.rolloutDeadline.value;
      var threshold := 3;
      if world.spec.probeFailureThreshold > 0 {
        threshold := world.spec.probeFailureThreshold;
      }
      var rollbackEnabled := world.spec.rollbackEnabled.None? || world.spec.rollbackEnabled.value;
      yes := rollbackEnabled && (failures >= threshold || pastDeadline);
    }

    /** The part of DriveRollout after the pod was found not ready. */
    method DriveUnready(c: Call, target: string) returns (r: Result)
      requires target == status.targetTag
      modifies this
      ensures (State(), r) == AutoUpdate.DriveUnready(old(State()), c)
    {
      if !c.api.listEvents {
        return Error;
      }
      var failures := CountProbeFailures();
      var rollBack := ShouldRollBack(failures);
      status := status.(probeFailures := failures);
      if rollBack {
        r := Rollback(c, target);
      } else {
        var ok := WriteStatus(c.api.writeStatus);
        r := if ok then Requeue(15 * SECOND) else Error;
      }
    }

    method DriveRollout(c: Call) returns (r: Result)
      modifies this
      ensures (State(), r) == AutoUpdate.DriveRollout(old(State()), c)
    {
      var target := status.targetTag;
      if !c.api.getSts || world.sts.None? {
        return Error;
      }
      var sts := world.sts.value;
      if sts.readyReplicas == 1 && sts.updatedReplicas == 1 && sts.currentRevision != "" {
        r := ConfirmRollout(c, target);
      } else {
        r := DriveUnready(c, target);
      }
    }

    /** The poll of Reconcile and what it leads to. */
    method PollRegistry(lib: Library, registry: Registry, api: Api, stamp: string) returns (r: Result, ghost poll: Poll)
      modifies this
      ensures (State(), r) == ActOnPoll(old(State()), Call(hasRegistry, hasBackup, api, poll, stamp))
      ensures Polled(lib, registry, old(world).spec, poll)
    {
      var interval := ParsePollInterval(world.spec.pollInterval);
      var repository := world.spec.sourceRegistry;
      if repository == "" {
        repository := world.spec.repository;
      }
      var tags := registry(repository);
      status := status.(lastCheckTime := Some(world.clock));
      if tags.None? {
        var ok := WriteStatus(api.writeStatus);
        return if ok then Requeue(interval) else Error, ListFailed;
      }
      var channel := world.spec.channel;
      if channel == "" {
        channel := DefaultChannel(lib, world.spec.tag);
      }
      var best := HighestMatching(lib, tags.value, channel);
      poll := Picked(best);
      if best.BadChannel? {
        return Error, poll;
      }
      if best.Best? && best.tag != status.lastFailedTag && best.tag != CurrentRunningTag(world, status) {
        r := StartRollout(Call(hasRegistry, hasBackup, api, Picked(best), stamp), best.tag);
        return;
      }
      status := status.(autoUpdated := Some(
        if best.NoMatch? then NoMatchingTag
        else if best.tag == status.lastFailedTag then SuppressedKnownFailure
        else UpToDate));
      var ok := WriteStatus(api.writeStatus);
      return if ok then Requeue(interval) else Error, poll;
    }

    /** The whole sub-controller. `poll` is the registry's answer, when it is asked. */
    method Reconcile(lib: Library, registry: Registry, api: Api, stamp: string) returns (r: Result, ghost poll: Poll)
      modifies this
      ensures var c := Call(hasRegistry, hasBackup, api, poll, stamp);
              && (State(), r) == AutoUpdate.Reconcile(old(State()), c)
              && (Polls(old(State()), c) ==> Polled(lib, registry, old(world).spec, poll))
    {
      if !world.spec.enabled {
        return Done, ListFailed;
      }
      if !hasRegistry {
        return Done, ListFailed;
      }
      if status.targetTag != "" {
        r := DriveRollout(Call(hasRegistry, hasBackup, api, ListFailed, stamp));
        return r, ListFailed;
      }
      var interval := ParsePollInterval(world.spec.pollInterval);
      if status.lastCheckTime.Some? && world.clock - status.lastCheckTime.value < interval {
        return Requeue(interval), ListFailed;
      }
      r, poll := PollRegistry(lib, registry, api, stamp);
    }
  }

  /** The pass made this call: its poll, if it made one, got an answer the registry allows. */
  ghost predicate Leads(world: World, c: Call, lib: Library, registry: Registry, after: World) {
    && after == InstancePass(world, c)
    && (Polls(Pass(world, world.status), c) ==> Polled(lib, registry, world.spec, c.poll))
  }

  /** One pass of the instance controller, with the status write at its end. */
  method RunInstancePass(world: World, hasRegistry: bool, hasBackup: bool, lib: Library, registry: Registry, api: Api, stamp: string)
    returns (after: World)
    ensures exists poll :: Leads(world, Call(hasRegistry, hasBackup, api, poll, stamp), lib, registry, after)
  {
    var a := new AutoUpdateReconciler(world, hasRegistry, hasBackup);
    var _, poll := a.Reconcile(lib, registry, api, stamp);
    if api.readForStatus && a.world.sts.Some? {
      var _ := a.WriteStatus(api.finalStatus);
    }
    after := a.world;
    assert Leads(world, Call(hasRegistry, hasBackup, api, poll, stamp), lib, registry, after);
  }
}
