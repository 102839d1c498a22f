/** How often the registry is asked, and what that means for a rollout behind a backup. */
module AutoUpdatePolls {
  import opened Wrappers
  import opened Clock
  import opened Oci
  import opened AutoUpdate
  import opened AutoUpdateRuns
  import opened AutoUpdateGuarantees
  import opened AutoUpdateBackups

  // ---------- the stored check time ----------

  /** Every status a pass may store has the old check time or that of the pass. */
  predicate ChecksNow(w: World, s: Status) {
    s.lastCheckTime == w.status.lastCheckTime || s.lastCheckTime == Some(Truncated(w.clock))
  }

  lemma StartChecks(w: World, p: Pass, c: Call, tag: string)
    requires Stored(w.status) == w.status && p.world == w && p.mem.lastCheckTime == Some(w.clock)
    ensures var q := StartRollout(p, c, tag).0;
            ChecksNow(w, q.world.status) && ChecksNow(w, Stored(q.mem))
  {
    TruncatedIsStable(w.clock);
    if NeedsBackup(w.spec, c) {
      GateChecks(w, p, c);
      RollForwardChecks(w, OneShot(p, c).0, c, tag);
    } else {
      RollForwardChecks(w, p, c, tag);
    }
  }

  lemma GateChecks(w: World, p: Pass, c: Call)
    requires p.world == w && p.mem.lastCheckTime == Some(w.clock)
    ensures var q := OneShot(p, c).0;
            ChecksNow(w, q.world.status) && q.mem.lastCheckTime == Some(w.clock)
  {
  }

  lemma RollForwardChecks(w: World, p: Pass, c: Call, tag: string)
    requires ChecksNow(w, p.world.status) && p.mem.lastCheckTime == Some(w.clock)
    ensures var q := RollForward(p, c, tag).0;
            ChecksNow(w, q.world.status) && q.mem.lastCheckTime == Some(w.clock)
  {
  }

  lemma DriveChecks(w: World, c: Call)
    requires Stored(w.status) == w.status && w.status.targetTag != ""
    ensures var q := DriveRollout(Pass(w, w.status), c).0;
            q.world.status.lastCheckTime == w.status.lastCheckTime && Stored(q.mem).lastCheckTime == w.status.lastCheckTime
  {
    RollBackWrites(Pass(w, w.status.(probeFailures := CountedFailures(w, w.status))), c);
  }

  lemma PassChecks(w: World, c: Call)
    requires Stored(w.status) == w.status
    ensures ChecksNow(w, InstancePass(w, c).status)
  {
    var p := Pass(w, w.status);
    var checked := p.(mem := p.mem.(lastCheckTime := Some(w.clock)));
    if w.spec.enabled && c.hasRegistry {
      if w.status.targetTag != "" {
        DriveChecks(w, c);
      } else if !TooSoon(p) && c.poll.Picked? && c.poll.pick.Best? {
        StartChecks(w, checked, c, c.poll.pick.tag);
      }
    }
  }

  // ---------- how far apart polls are ----------

  /** A check at the given time is stored, or a later one. */
  predicate CheckedSince(w: World, at: int) {
    w.status.lastCheckTime.Some? && w.status.lastCheckTime.value >= Truncated(at) && w.clock >= at
  }

  lemma TruncatedGrows(a: int, b: int)
    requires a <= b
    ensures Truncated(a) <= Truncated(b)
  {
    TruncatedBounds(a);
    TruncatedBounds(b);
  }

  lemma {:induction false} CheckStaysStored(w: World, ms: seq<Move>, at: int)
    requires Coherent(w.status) && NamesTags(ms) && CheckedSince(w, at)
    ensures Coherent(After(w, ms).status) && CheckedSince(After(w, ms), at)
  {
    if ms != [] {
      var prefix, m := ms[..|ms| - 1], ms[|ms| - 1];
      NamesTagsPrefix(ms);
      NamesLast(ms);
      CheckStaysStored(w, prefix, at);
      var v := After(w, prefix);
      MoveObserved(v, m);
      ClockAdvances(v, m);
      if m.Reconcile? {
        PassChecks(v, m.call);
        TruncatedGrows(at, v.clock);
      }
    }
  }

  /** The pass asks the registry. */
  predicate Asks(w: World, c: Call) {
    Polls(Pass(w, w.status), c)
  }

  /** The pass asks the registry, and the time of that is stored. */
  predicate AsksAndStores(w: World, c: Call) {
    Asks(w, c) && InstancePass(w, c).status.lastCheckTime == Some(Truncated(w.clock))
  }

  /** After a poll whose time was stored, in every run, the next one comes no sooner than the
      interval configured then, less the fraction of a second that storing cuts off. */
  lemma PollsAreApart(w: World, c: Call, ms: seq<Move>, c': Call)
    requires Coherent(w.status) && c.poll != Picked(Best("")) && NamesTags(ms)
    requires AsksAndStores(w, c)
    ensures var v := After(InstancePass(w, c), ms);
      Asks(v, c') ==>
        && v.clock >= Truncated(w.clock) + ParsePollInterval(v.spec.pollInterval)
        && v.clock > w.clock + 899_000_000_000
  {
    PassFollows(w, c);
    TruncatedBounds(w.clock);
    CheckStaysStored(InstancePass(w, c), ms, w.clock);
  }

  /** The time of a poll that starts nothing is stored exactly when one of the later status
      writes works; a channel that is not one leaves only the write at the end of the pass. */
  lemma PollIsStored(w: World, c: Call)
    requires Coherent(w.status) && Asks(w, c) && w.status.lastCheckTime != Some(Truncated(w.clock))
    requires Wanted(w, c).None?
    ensures AsksAndStores(w, c) <==>
      (c.poll != Picked(BadChannel) && c.api.writeStatus) || (c.api.readForStatus && w.sts.Some? && c.api.finalStatus)
  {
    TruncatedIsStable(w.clock);
  }

  lemma StartRemembersCheck(p: Pass, c: Call, tag: string)
    requires p.mem.lastCheckTime == Some(p.world.clock)
    ensures var q := StartRollout(p, c, tag).0;
            q.mem.lastCheckTime == Some(p.world.clock) && (q.world.sts.Some? <==> p.world.sts.Some?)
  {
  }

  /** Whatever else the poll leads to, the write at the end of the pass stores its time. */
  lemma FinalWriteStoresPoll(w: World, c: Call)
    requires Asks(w, c) && c.api.readForStatus && w.sts.Some? && c.api.finalStatus
    ensures AsksAndStores(w, c)
  {
    if c.poll.Picked? && c.poll.pick.Best? {
      StartRemembersCheck(Pass(w, w.status.(lastCheckTime := Some(w.clock))), c, c.poll.pick.tag);
    }
  }

  // ---------- a rollout behind a backup ----------

  /** The pass that creates the pre-update Job stores its check time exactly when it records a
      fresh key on the way or writes the status at its end. */
  lemma JobCreationIsStored(w: World, c: Call)
    requires Coherent(w.status) && w.job.None? && InstancePass(w, c).job.Some?
    requires w.status.lastCheckTime != Some(Truncated(w.clock))
    ensures Asks(w, c)
    ensures AsksAndStores(w, c) <==>
      w.status.preUpdateSnapshot == "" || (c.api.readForStatus && w.sts.Some? && c.api.finalStatus)
  {
    JobCreationVerdict(w, c);
    TruncatedIsStable(w.clock);
    var checked := Pass(w, w.status.(lastCheckTime := Some(w.clock)));
    GateCreatesJob(checked, c);
    assert AutoUpdate.Reconcile(Pass(w, w.status), c).0 == OneShot(checked, c).0;
  }

  /** The requeue after ten seconds is in vain: the pass that creates the Job also counts as a
      poll, so in every run the rollout behind the backup starts no sooner than one poll
      interval later, however soon the Job is Complete. */
  lemma BackupCostsAnInterval(w: World, c: Call, ms: seq<Move>, c': Call)
    requires Coherent(w.status) && c.poll != Picked(Best("")) && c'.poll != Picked(Best("")) && NamesTags(ms)
    requires w.job.None? && w.status.preUpdateSnapshot == "" && InstancePass(w, c).job.Some?
    ensures var v := After(InstancePass(w, c), ms);
      v.status.targetTag == "" && InstancePass(v, c').status.targetTag != "" ==>
        v.clock >= Truncated(w.clock) + ParsePollInterval(v.spec.pollInterval)
  {
    var u := InstancePass(w, c);
    var v := After(u, ms);
    PassFollows(w, c);
    FreshJobIsStored(w, c);
    TruncatedBounds(w.clock);
    CheckStaysStored(u, ms, w.clock);
    if v.status.targetTag == "" {
      PassTargets(v, c');
    }
  }

  lemma FreshJobIsStored(w: World, c: Call)
    requires Coherent(w.status) && w.job.None? && w.status.preUpdateSnapshot == "" && InstancePass(w, c).job.Some?
    ensures InstancePass(w, c).status.lastCheckTime == Some(Truncated(w.clock))
  {
    if w.status.lastCheckTime == Some(Truncated(w.clock)) {
      PassChecks(w, c);
    } else {
      JobCreationIsStored(w, c);
    }
  }

  /** The next pass, if it comes within the interval, does nothing at all. */
  lemma EarlyPassIsIdle(w: World, c: Call)
    requires Coherent(w.status) && w.status.targetTag == "" && TooSoon(Pass(w, w.status))
    ensures InstancePass(w, c) == w
  {
  }
}
