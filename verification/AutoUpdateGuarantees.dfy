/** What the runs of the auto-update machine guarantee about single rollouts: why and when
    they end, how long they take, when they start, and what a rollback leaves. */
module AutoUpdateGuarantees {
  import opened Wrappers
  import opened Clock
  import opened Oci
  import opened AutoUpdate
  import opened AutoUpdateRuns

  // ---------- why a rollout ends ----------

  /** A status assigned in the pass reaches the API server, at the end of its phase or at the
      end of the pass. */
  predicate Records(c: Call) {
    c.api.writeStatus || (c.api.readForStatus && c.api.finalStatus)
  }

  /** The operations a confirmation needs. */
  predicate CanConfirm(c: Call) {
    c.api.getSts && Records(c)
  }

  /** The operations that putting an earlier image back needs. */
  predicate CanPatchBack(c: Call) {
    c.api.getSts && c.api.listEvents && c.api.getStsAgain && c.api.patchSts
  }

  /** The operations a rollback needs. */
  predicate CanRollBack(c: Call) {
    CanPatchBack(c) && Records(c)
  }

  /** Enough matching pod events since the second the rollout started, or its window over. */
  predicate Cause(w: World, startedAt: int) {
    || ProbeFailures(w.events, PodName(w.id), Some(Truncated(startedAt))) >= Threshold(w.spec)
    || w.clock > Truncated(startedAt) + ROLLOUT_WINDOW
  }

  ghost function FailureIndices(events: seq<Event>, pod: string, since: Option<int>): set<int> {
    set i | 0 <= i < |events| && IsProbeFailure(events[i], pod, since)
  }

  lemma FailureIndicesSnoc(events: seq<Event>, pod: string, since: Option<int>)
    requires events != []
    ensures var n := |events| - 1;
      var before := FailureIndices(events[..n], pod, since);
      n !in before && FailureIndices(events, pod, since) == if IsProbeFailure(events[n], pod, since) then before + {n} else before
  {
  }

  /** The counter is the number of matching events, each counted once. */
  lemma {:induction false} ProbeFailuresCountsEachEvent(events: seq<Event>, pod: string, since: Option<int>)
    ensures ProbeFailures(events, pod, since) == |FailureIndices(events, pod, since)|
  {
    if events != [] {
      ProbeFailuresCountsEachEvent(events[..|events| - 1], pod, since);
      FailureIndicesSnoc(events, pod, since);
    }
  }

  /** Failures of earlier rollouts, last seen before this one started, never count. */
  lemma {:induction false} OldFailuresNeverCount(earlier: seq<Event>, recent: seq<Event>, pod: string, startedAt: int)
    requires forall e :: e in earlier ==> e.lastSeen < Truncated(startedAt)
    ensures ProbeFailures(earlier + recent, pod, Some(Truncated(startedAt))) ==
            ProbeFailures(recent, pod, Some(Truncated(startedAt)))
  {
    var n := |earlier + recent|;
    if recent != [] {
      assert (earlier + recent)[..n - 1] == earlier + recent[..|recent| - 1];
      OldFailuresNeverCount(earlier, recent[..|recent| - 1], pod, startedAt);
    } else if earlier != [] {
      assert (earlier + recent)[..n - 1] == earlier[..|earlier| - 1] + recent;
      assert earlier[|earlier| - 1] in earlier;
      OldFailuresNeverCount(earlier[..|earlier| - 1], recent, pod, startedAt);
    }
  }

  lemma RollBackEnds(p: Pass, c: Call)
    requires p.mem.targetTag != "" && p.world.status.targetTag != ""
    ensures var q := RollBack(p, c).0;
      var patched := c.api.getStsAgain && p.world.sts.Some? && p.world.sts.value.images != [] && c.api.patchSts;
      && (q.mem.targetTag == "" <==> patched)
      && (q.world.status.targetTag == "" <==> patched && c.api.writeStatus)
      && (q.world.sts.Some? <==> p.world.sts.Some?)
  {
  }

  /** A pass ends the rollout in flight exactly when it sees an outcome and the operations
      that this outcome needs work. */
  lemma PassEnds(w: World, c: Call)
    requires w.status.targetTag != ""
    ensures InstancePass(w, c).status.targetTag == "" <==>
      w.spec.enabled && c.hasRegistry && w.sts.Some? &&
      if Ready(w.sts.value) then CanConfirm(c)
      else w.sts.value.images != [] && MustRollBack(w, w.status) && CanRollBack(c)
  {
    RollBackEnds(Pass(w, w.status.(probeFailures := CountedFailures(w, w.status))), c);
  }

  /** The last event of a run with a rollout in flight is its start, and the persisted
      deadline is five minutes after the second of that start. */
  lemma InFlightSinceLastEvent(w: World, ms: seq<Move>) returns (startedAt: int)
    requires w.status == EMPTY_STATUS && NamesTags(ms) && After(w, ms).status.targetTag != ""
    ensures Log(w, ms) != [] && Log(w, ms)[|Log(w, ms)| - 1] == RolloutStarted(After(w, ms).status.targetTag, startedAt)
    ensures After(w, ms).status.rolloutDeadline == Some(Truncated(startedAt) + ROLLOUT_WINDOW)
  {
    RecordIsReplay(w, ms);
    assert RecordOf(After(w, ms).status).target != "";
    startedAt := OpenSince(Log(w, ms));
  }

  lemma OpenSince(log: seq<RolloutEvent>) returns (startedAt: int)
    requires Disciplined(log) && Replay(log).target != ""
    ensures log != [] && log[|log| - 1] == RolloutStarted(Replay(log).target, startedAt)
    ensures Replay(log).deadline == Some(Truncated(startedAt) + ROLLOUT_WINDOW)
  {
    LastEventDecides(log);
    startedAt := log[|log| - 1].at;
  }

  lemma StaysCoherent(w: World, ms: seq<Move>)
    requires w.status == EMPTY_STATUS && NamesTags(ms)
    ensures Coherent(After(w, ms).status)
  {
    RecordIsReplay(w, ms);
  }

  lemma CauseIsTheTest(w: World, startedAt: int)
    requires w.status.rolloutDeadline == Some(Truncated(startedAt) + ROLLOUT_WINDOW)
    ensures MustRollBack(w, w.status) <==> w.spec.rollbackEnabled.GetOr(true) && Cause(w, startedAt)
  {
    assert WindowStart(w.status) == Some(Truncated(startedAt));
  }

  lemma LogSnoc(w: World, ms: seq<Move>, m: Move)
    ensures After(w, ms + [m]) == Apply(After(w, ms), m)
    ensures Log(w, ms + [m]) == Log(w, ms) + Observe(After(w, ms).status, After(w, ms + [m]).status, After(w, ms).clock)
  {
    assert (ms + [m])[..|ms|] == ms;
  }

  /** The sub-controller is on and finds a ready pod. */
  predicate SeesReady(w: World, c: Call) {
    w.spec.enabled && c.hasRegistry && w.sts.Some? && Ready(w.sts.value)
  }

  /** The sub-controller is on, may roll back, and finds an unready pod and a cause. */
  predicate SeesFailure(w: World, c: Call, startedAt: int) {
    && w.spec.enabled && c.hasRegistry && w.sts.Some? && !Ready(w.sts.value) && w.sts.value.images != []
    && w.spec.rollbackEnabled.GetOr(true) && Cause(w, startedAt)
  }

  lemma DueInFlight(w: World, c: Call, startedAt: int)
    requires w.status.targetTag != "" && w.status.rolloutDeadline == Some(Truncated(startedAt) + ROLLOUT_WINDOW)
    ensures Due(w, c) ==
      if SeesReady(w, c) then Some(RolloutConfirmed(w.status.targetTag))
      else if SeesFailure(w, c, startedAt) then Some(RolloutRolledBack(w.status.targetTag, RollbackTag(w, w.status)))
      else None
  {
    CauseIsTheTest(w, startedAt);
  }

  /** What an observer sees of one pass over a rollout that started at the given time. */
  function OutcomeSeen(w: World, c: Call, startedAt: int): seq<RolloutEvent> {
    if SeesReady(w, c) && CanConfirm(c) then [RolloutConfirmed(w.status.targetTag)]
    else if SeesFailure(w, c, startedAt) && CanRollBack(c) then [RolloutRolledBack(w.status.targetTag, RollbackTag(w, w.status))]
    else []
  }

  lemma PassVerdict(w: World, c: Call, startedAt: int)
    requires Coherent(w.status) && c.poll != Picked(Best(""))
    requires w.status.targetTag != "" && w.status.rolloutDeadline == Some(Truncated(startedAt) + ROLLOUT_WINDOW)
    ensures Observe(w.status, InstancePass(w, c).status, w.clock) == OutcomeSeen(w, c, startedAt)
  {
    DueInFlight(w, c, startedAt);
    CauseIsTheTest(w, startedAt);
    PassFollows(w, c);
    ObserveFollows(w, c, InstancePass(w, c).status);
    PassEnds(w, c);
  }

  /** With a rollout in flight, a pass confirms it exactly when the pod is ready and the
      confirmation can be recorded, and rolls it back exactly when the pod is not ready, there
      is cause counted from its own start and the operations of a rollback work. */
  lemma RolloutVerdict(w: World, ms: seq<Move>, c: Call) returns (startedAt: int)
    requires w.status == EMPTY_STATUS && NamesTags(ms) && c.poll != Picked(Best(""))
    requires After(w, ms).status.targetTag != ""
    ensures Log(w, ms) != [] && Log(w, ms)[|Log(w, ms)| - 1] == RolloutStarted(After(w, ms).status.targetTag, startedAt)
    ensures Log(w, ms + [Reconcile(c)]) == Log(w, ms) + OutcomeSeen(After(w, ms), c, startedAt)
  {
    StaysCoherent(w, ms);
    startedAt := InFlightSinceLastEvent(w, ms);
    LogSnoc(w, ms, Reconcile(c));
    PassVerdict(After(w, ms), c, startedAt);
  }

  // ---------- how long a rollout takes ----------

  /** A pass that would end an overdue rollout: the sub-controller is on, and either the pod
      is ready and a confirmation can be recorded, or rolling back is allowed and works. */
  predicate Attentive(w: World, m: Move) {
    && m.Reconcile? && w.spec.enabled && m.call.hasRegistry && w.sts.Some?
    && if Ready(w.sts.value) then CanConfirm(m.call)
       else w.spec.rollbackEnabled.GetOr(true) && w.sts.value.images != [] && CanRollBack(m.call)
  }

  /** The time of the last attentive pass, or of the beginning of the run. */
  function LastAttentive(w: World, ms: seq<Move>): int {
    if ms == [] then w.clock
    else
      var prefix := ms[..|ms| - 1];
      if Attentive(After(w, prefix), ms[|ms| - 1]) then After(w, prefix).clock else LastAttentive(w, prefix)
  }

  lemma ClockAdvances(w: World, m: Move)
    ensures Apply(w, m).clock >= w.clock
    ensures m.Reconcile? ==> Apply(w, m).clock == w.clock
  {
    if m.Reconcile? {
      assert AutoUpdate.Reconcile(Pass(w, w.status), m.call).0.world.clock == w.clock;
    }
  }

  lemma AttentiveKeepsDeadline(v: World, m: Move)
    requires Coherent(v.status) && NamesTags([m]) && v.status.targetTag != ""
    requires Attentive(v, m) && Apply(v, m).status.targetTag != ""
    ensures v.clock <= v.status.rolloutDeadline.value
  {
    PassEnds(v, m.call);
  }

  /** While a rollout is in flight no attentive pass has come after its deadline. */
  lemma {:induction false} NoAttentivePassAfterDeadline(w: World, ms: seq<Move>)
    requires w.status == EMPTY_STATUS && NamesTags(ms)
    ensures var v := After(w, ms);
            && LastAttentive(w, ms) <= v.clock
            && Coherent(v.status)
            && (v.status.targetTag != "" ==> LastAttentive(w, ms) <= v.status.rolloutDeadline.value)
  {
    if ms != [] {
      var prefix, m := ms[..|ms| - 1], ms[|ms| - 1];
      NamesTagsPrefix(ms);
      NamesLast(ms);
      NoAttentivePassAfterDeadline(w, prefix);
      var v, v' := After(w, prefix), After(w, ms);
      ClockAdvances(v, m);
      MoveObserved(v, m);
      if v'.status.targetTag != "" {
        if v.status.targetTag == "" {
          TruncatedIsStable(v.clock);
          TruncatedIsStable(v.clock + ROLLOUT_WINDOW);
          assert v'.status.rolloutDeadline == Some(Truncated(v.clock) + ROLLOUT_WINDOW);
          assert Truncated(v.clock) + ROLLOUT_WINDOW >= v.clock;
        } else if Attentive(v, m) {
          AttentiveKeepsDeadline(v, m);
        }
      }
    }
  }

  /** If at most d has passed since the last attentive pass, a rollout still in flight is at
      most five minutes and d old: every rollout is settled by then. */
  lemma RolloutsEndInTime(w: World, ms: seq<Move>, d: nat)
    requires w.status == EMPTY_STATUS && NamesTags(ms)
    ensures var v, log := After(w, ms), Log(w, ms);
            v.status.targetTag != "" && v.clock <= LastAttentive(w, ms) + d ==>
            && log != [] && log[|log| - 1].RolloutStarted?
            && v.clock <= log[|log| - 1].at + 300_000_000_000 + d
  {
    if After(w, ms).status.targetTag != "" {
      var startedAt := InFlightSinceLastEvent(w, ms);
      TruncatedIsStable(startedAt);
      NoAttentivePassAfterDeadline(w, ms);
    }
  }

  // ---------- when a rollout starts ----------

  /** The tag a pass with nothing in flight wants to roll out. */
  function Wanted(w: World, c: Call): Option<string> {
    if !w.spec.enabled || !c.hasRegistry || TooSoon(Pass(w, w.status)) then None
    else
      match c.poll
      case Picked(Best(tag)) =>
        if tag != w.status.lastFailedTag && tag != CurrentRunningTag(w, w.status) then Some(tag) else None
      case _ => None
  }

  /** The operations that bringing in a new image needs; one that is already there is not
      patched. */
  predicate CanPatchForward(w: World, c: Call, tag: string) {
    && (NeedsBackup(w.spec, c) ==> c.api.getJob)
    && c.api.getSts && w.sts.Some? && w.sts.value.images != []
    && (w.sts.value.images[0] != ImageOf(w.spec, tag) ==> c.api.patchSts)
  }

  /** The operations a start needs. */
  predicate CanStart(w: World, c: Call, tag: string) {
    CanPatchForward(w, c, tag) && c.api.patchAnnotation && Records(c)
  }

  /** What an observer sees of one pass with nothing in flight. */
  function StartSeen(w: World, c: Call): seq<RolloutEvent> {
    match Wanted(w, c)
    case None => []
    case Some(tag) => if GateOpen(w, c) && CanStart(w, c, tag) then [RolloutStarted(tag, w.clock)] else []
  }

  lemma RollForwardTargets(p: Pass, c: Call, tag: string)
    requires p.mem.targetTag == "" && p.world.status.targetTag == "" && tag != ""
    ensures var q := RollForward(p, c, tag).0;
      var done := c.api.getSts && p.world.sts.Some? && p.world.sts.value.images != [] &&
        (p.world.sts.value.images[0] != ImageOf(p.world.spec, tag) ==> c.api.patchSts) && c.api.patchAnnotation;
      && (q.mem.targetTag != "" <==> done)
      && (q.world.status.targetTag != "" <==> done && c.api.writeStatus)
      && (q.world.sts.Some? <==> p.world.sts.Some?)
  {
  }

  lemma PassTargets(w: World, c: Call)
    requires Coherent(w.status) && w.status.targetTag == "" && c.poll != Picked(Best(""))
    ensures InstancePass(w, c).status.targetTag != "" <==>
      Wanted(w, c).Some? && GateOpen(w, c) && CanStart(w, c, Wanted(w, c).value)
  {
    if Wanted(w, c).Some? {
      var checked := Pass(w, w.status.(lastCheckTime := Some(w.clock)));
      GateFollows(w, checked, c);
      if NeedsBackup(w.spec, c) {
        GateOpens(checked, c);
      }
      RollForwardTargets(checked, c, Wanted(w, c).value);
    }
  }

  lemma GateOpens(p: Pass, c: Call)
    requires NeedsBackup(p.world.spec, c)
    ensures OneShot(p, c).1 == Gate.Open <==> GateOpen(p.world, c) && c.api.getJob
    ensures OneShot(p, c).1 == Gate.Open ==> OneShot(p, c).0 == p
  {
  }

  /** With nothing in flight, a pass starts a rollout exactly for the tag the registry just
      answered with, when that tag neither failed last nor runs now, the pre-update backup is
      either not asked for or Complete now, and the operations of a start work. */
  lemma StartVerdict(w: World, c: Call)
    requires Coherent(w.status) && w.status.targetTag == "" && c.poll != Picked(Best(""))
    ensures Observe(w.status, InstancePass(w, c).status, w.clock) == StartSeen(w, c)
  {
    PassFollows(w, c);
    ObserveFollows(w, c, InstancePass(w, c).status);
    PassTargets(w, c);
  }

  // ---------- disabling and rolling back: the exact conditions ----------

  /** A disabled sub-controller freezes the whole record, also in mid-rollout: nothing is
      confirmed, rolled back or timed out until it is enabled again. */
  lemma {:induction false} DisabledFreezes(w: World, ms: seq<Move>)
    requires Coherent(w.status) && !w.spec.enabled
    requires forall m :: m in ms && m.EditSpec? ==> !m.spec.enabled
    ensures After(w, ms).status == w.status && !After(w, ms).spec.enabled
  {
    if ms != [] {
      var prefix := ms[..|ms| - 1];
      assert ms[|ms| - 1] in ms;
      forall m | m in prefix ensures m in ms {}
      DisabledFreezes(w, prefix);
    }
  }

  /** A rollback lands on the very tag it leaves exactly when nothing was ever confirmed and
      the instance's own tag is that tag. */
  lemma RollbackStaysPut(s: Status, w: World)
    requires Coherent(s) && s.targetTag != ""
    ensures RollbackTag(w, s) == s.targetTag <==> s.lastSuccessTag == "" && w.spec.tag == s.targetTag
  {
  }

  ghost predicate KeepsTag(ms: seq<Move>, tag: string) {
    forall m :: m in ms && m.EditSpec? ==> m.spec.tag == tag
  }

  predicate FallsBackTo(r: Record, tag: string) {
    r.success == "" ==>
      && (r.current == "" || r.current == tag)
      && (r.target != "" ==> r.target != tag)
  }

  predicate Leaves(e: RolloutEvent) {
    e.RolloutRolledBack? ==> e.to != e.tag
  }

  lemma MoveFallsBack(v: World, m: Move, seen: seq<RolloutEvent>, after: Status, tag: string)
    requires Coherent(v.status) && v.spec.tag == tag && FallsBackTo(RecordOf(v.status), tag)
    requires Grows(v, m, seen, after)
    ensures FallsBackTo(RecordOf(after), tag) && forall e :: e in seen ==> Leaves(e)
  {
  }

  lemma MoveKeepsTag(v: World, m: Move)
    requires m.EditSpec? ==> m.spec.tag == v.spec.tag
    ensures Apply(v, m).spec.tag == v.spec.tag
  {
    if m.Reconcile? {
      assert AutoUpdate.Reconcile(Pass(v, v.status), m.call).0.world.spec == v.spec;
    }
  }

  /** As long as nobody edits the instance's tag, every rollback leaves the tag it came from. */
  lemma {:induction false} FixedTagRollbacksLeave(w: World, ms: seq<Move>)
    requires w.status == EMPTY_STATUS && NamesTags(ms) && KeepsTag(ms, w.spec.tag)
    ensures After(w, ms).spec.tag == w.spec.tag
    ensures FallsBackTo(RecordOf(After(w, ms).status), w.spec.tag)
    ensures forall e :: e in Log(w, ms) ==> Leaves(e)
  {
    if ms != [] {
      var prefix, m := ms[..|ms| - 1], ms[|ms| - 1];
      NamesTagsPrefix(ms);
      NamesLast(ms);
      assert m in ms;
      forall k | k in prefix ensures k in ms {}
      FixedTagRollbacksLeave(w, prefix);
      StaysCoherent(w, prefix);
      var v := After(w, prefix);
      MoveObserved(v, m);
      MoveFallsBack(v, m, Observe(v.status, After(w, ms).status, v.clock), After(w, ms).status, w.spec.tag);
      MoveKeepsTag(v, m);
    }
  }
}
