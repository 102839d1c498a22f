/** Runs of the auto-update machine: instance passes, each with its own failures and
    registry answer, interleaved with anything else that happens in the cluster. */
module AutoUpdateRuns {
  import opened Wrappers
  import opened Clock
  import opened Jobs
  import opened Oci
  import opened AutoUpdate

  datatype Move =
    | Reconcile(call: Call)
    | Tick(elapsed: nat)
    | EditSpec(spec: Spec)
    | RewriteStatefulSet(sidecars: seq<string>)
    | ReplaceStatefulSet(sts: Option<StatefulSet>)
    | ReplaceEvents(events: seq<Event>)
    | ReplaceJobConditions(conditions: seq<JobCondition>)
    | RemoveJob
    | EditAnnotation(annotation: string)

  /** Every move is possible in every world; only a pass touches the status. */
  function Apply(w: World, m: Move): World {
    match m
    case Reconcile(c) => InstancePass(w, c)
    case Tick(d) => w.(clock := w.clock + d)
    case EditSpec(spec) => w.(spec := spec)
    case RewriteStatefulSet(sidecars) => WithSpecImage(w, sidecars)
    case ReplaceStatefulSet(sts) => w.(sts := sts)
    case ReplaceEvents(events) => w.(events := events)
    case ReplaceJobConditions(cs) => if w.job.None? then w else w.(job := Some(w.job.value.(conditions := cs)))
    case RemoveJob => w.(job := None)
    case EditAnnotation(a) => w.(annotation := a)
  }

  function After(w: World, ms: seq<Move>): World {
    if ms == [] then w else Apply(After(w, ms[..|ms| - 1]), ms[|ms| - 1])
  }

  /** A registry answer never names the empty tag, which is not a version. */
  ghost predicate NamesTags(ms: seq<Move>) {
    forall i :: 0 <= i < |ms| && ms[i].Reconcile? ==> ms[i].call.poll != Picked(Best(""))
  }

  lemma AnswersNameTags(lib: Library, tags: seq<string>, channel: string, pick: Pick)
    requires lib.parse("").None? && Answers(lib, tags, channel, pick)
    ensures pick != Best("")
  {
  }

  // ---------- the persisted record and the events that change it ----------

  datatype RolloutEvent = RolloutStarted(tag: string, at: int) | RolloutConfirmed(tag: string) | RolloutRolledBack(tag: string, to: string)

  datatype Record = Record(
    target: string, deadline: Option<int>,
    success: string, failed: string, current: string, rolledBackFrom: Option<string>)

  function RecordOf(s: Status): Record {
    Record(s.targetTag, s.rolloutDeadline, s.lastSuccessTag, s.lastFailedTag, s.currentTag, s.rolledBackFrom)
  }

  const EMPTY_RECORD := Record("", None, "", "", "", None)

  function Extend(r: Record, e: RolloutEvent): Record {
    match e
    case RolloutStarted(t, at) => r.(target := t, deadline := Some(Truncated(at) + ROLLOUT_WINDOW))
    case RolloutConfirmed(t) => Record("", None, t, r.failed, t, None)
    case RolloutRolledBack(t, to) => Record("", None, r.success, t, to, Some(t))
  }

  /** What a log of events amounts to. */
  function Replay(log: seq<RolloutEvent>): Record {
    if log == [] then EMPTY_RECORD else Extend(Replay(log[..|log| - 1]), log[|log| - 1])
  }

  /** The events a record allows next. */
  predicate Permits(r: Record, e: RolloutEvent) {
    match e
    case RolloutStarted(t, _) => r.target == "" && t != "" && t != r.failed && t != r.current
    case RolloutConfirmed(t) => t != "" && t == r.target
    case RolloutRolledBack(t, to) => t != "" && t == r.target && (r.success != "" ==> to == r.success)
  }

  ghost predicate Disciplined(log: seq<RolloutEvent>) {
    forall i :: 0 <= i < |log| ==> Permits(Replay(log[..i]), log[i])
  }

  /** The event that two consecutive stored statuses show to an observer. */
  function Observe(before: Status, after: Status, clock: int): seq<RolloutEvent> {
    if before.targetTag == "" && after.targetTag != "" then [RolloutStarted(after.targetTag, clock)]
    else if before.targetTag != "" && after.targetTag == "" then
      if after.lastFailedTag == before.targetTag then [RolloutRolledBack(before.targetTag, after.currentTag)]
      else [RolloutConfirmed(before.targetTag)]
    else []
  }

  function Log(w: World, ms: seq<Move>): seq<RolloutEvent> {
    if ms == [] then []
    else
      var prefix := ms[..|ms| - 1];
      Log(w, prefix) + Observe(After(w, prefix).status, After(w, ms).status, After(w, prefix).clock)
  }

  // ---------- one pass ----------

  /** What is true of every stored status. */
  predicate Coherent(s: Status) {
    && Stored(s) == s
    && (s.targetTag != "" <==> s.rolloutDeadline.Some?)
    && (s.targetTag != "" <==> s.autoUpdated == Some(RolloutInFlight))
    && (s.targetTag != "" ==> s.targetTag != s.lastFailedTag && s.targetTag != s.currentTag)
    && (s.lastSuccessTag != "" ==> s.lastSuccessTag == s.currentTag)
  }

  /** The pre-update backup is not asked for, or its stored Job is Complete now. */
  predicate GateOpen(w: World, c: Call) {
    NeedsBackup(w.spec, c) ==> w.job.Some? && Verdict(w.job.value.conditions) == Some(Complete)
  }

  /** The one event a pass may add to the log, when nothing fails. */
  function Due(w: World, c: Call): Option<RolloutEvent> {
    var s := w.status;
    if !w.spec.enabled || !c.hasRegistry || w.sts.None? then None
    else if s.targetTag != "" then
      if Ready(w.sts.value) then Some(RolloutConfirmed(s.targetTag))
      else if MustRollBack(w, s) && w.sts.value.images != [] then Some(RolloutRolledBack(s.targetTag, RollbackTag(w, s)))
      else None
    else if TooSoon(Pass(w, s)) || w.sts.value.images == [] then None
    else
      match c.poll
      case Picked(Best(tag)) =>
        if tag != s.lastFailedTag && tag != CurrentRunningTag(w, s) && GateOpen(w, c)
        then Some(RolloutStarted(tag, w.clock)) else None
      case _ => None
  }

  /** s is a coherent status whose record is the old one, or the old one extended by the due event. */
  predicate Follows(w: World, c: Call, s: Status) {
    && Coherent(s)
    && (RecordOf(s) == RecordOf(w.status) ||
        (Due(w, c).Some? && RecordOf(s) == Extend(RecordOf(w.status), Due(w, c).value)))
  }

  lemma TruncatedIsStable(t: int)
    ensures Truncated(Truncated(t)) == Truncated(t)
    ensures Truncated(t + ROLLOUT_WINDOW) == Truncated(t) + ROLLOUT_WINDOW
  {
  }

  lemma ConfirmedFollows(s: Status)
    requires Coherent(s) && s.targetTag != ""
    ensures Coherent(Confirmed(s)) && RecordOf(Confirmed(s)) == Extend(RecordOf(s), RolloutConfirmed(s.targetTag))
    ensures Stored(Confirmed(s)) == Confirmed(s)
  {
  }

  lemma RolledBackFollows(s: Status, failures: int, to: string)
    requires Coherent(s) && s.targetTag != ""
    requires s.lastSuccessTag != "" ==> to == s.lastSuccessTag
    ensures var s' := RolledBack(s.(probeFailures := failures), to);
            Coherent(s') && RecordOf(s') == Extend(RecordOf(s), RolloutRolledBack(s.targetTag, to)) && Stored(s') == s'
  {
  }

  lemma StartedFollows(w: World, p: Pass, tag: string)
    requires Coherent(w.status) && w.status.targetTag == "" && tag != ""
    requires p.world == w && p.mem == w.status.(lastCheckTime := p.mem.lastCheckTime)
    requires tag != w.status.lastFailedTag && tag != CurrentRunningTag(w, w.status)
    ensures var s' := Stored(Started(p, tag));
            Coherent(s') && RecordOf(s') == Extend(RecordOf(w.status), RolloutStarted(tag, w.clock))
  {
    TruncatedIsStable(w.clock);
    TruncatedIsStable(w.clock + ROLLOUT_WINDOW);
    if p.mem.lastCheckTime.Some? {
      TruncatedIsStable(p.mem.lastCheckTime.value);
    }
  }

  /** A phase ends with the stored status untouched or equal to the in-memory one. */
  predicate Wrote(before: Pass, after: Pass) {
    after.world.status == before.world.status || after.world.status == Stored(after.mem)
  }

  lemma RollBackWrites(p: Pass, c: Call)
    ensures var q := RollBack(p, c).0;
            && Wrote(p, q)
            && (q.mem == p.mem || (q.mem == RolledBack(p.mem, RollbackTag(p.world, p.mem)) &&
                                   p.world.sts.Some? && p.world.sts.value.images != []))
  {
  }

  lemma RollForwardWrites(p: Pass, c: Call, tag: string)
    ensures var q := RollForward(p, c, tag).0;
            && Wrote(p, q)
            && ((q.mem == p.mem && q.world.status == p.world.status) ||
                (q.mem == Started(p, tag) && p.world.sts.Some? && p.world.sts.value.images != []))
  {
  }

  lemma DriveFollows(w: World, c: Call)
    requires Coherent(w.status) && w.status.targetTag != "" && w.spec.enabled && c.hasRegistry
    ensures var p := DriveRollout(Pass(w, w.status), c).0;
            Follows(w, c, p.world.status) && Follows(w, c, Stored(p.mem))
  {
    var s := w.status;
    if c.api.getSts && w.sts.Some? {
      if Ready(w.sts.value) {
        ConfirmedFollows(s);
      } else {
        DriveUnreadyFollows(w, c);
      }
    }
  }

  lemma DriveUnreadyFollows(w: World, c: Call)
    requires Coherent(w.status) && w.status.targetTag != "" && w.spec.enabled && c.hasRegistry
    requires w.sts.Some? && !Ready(w.sts.value)
    ensures var p := DriveUnready(Pass(w, w.status), c).0;
            Follows(w, c, p.world.status) && Follows(w, c, Stored(p.mem))
  {
    var s := w.status;
    var counted := Pass(w, s.(probeFailures := CountedFailures(w, s)));
    assert Stored(counted.mem) == counted.mem;
    if MustRollBack(w, s) {
      RollBackWrites(counted, c);
      RolledBackFollows(s, CountedFailures(w, s), RollbackTag(w, s));
    }
  }

  lemma StartFollows(w: World, p: Pass, c: Call, tag: string)
    requires Coherent(w.status) && w.status.targetTag == "" && tag != ""
    requires p.world == w && p.mem == w.status.(lastCheckTime := p.mem.lastCheckTime)
    requires tag != w.status.lastFailedTag && tag != CurrentRunningTag(w, w.status)
    requires w.spec.enabled && c.hasRegistry && !TooSoon(Pass(w, w.status)) && c.poll == Picked(Best(tag))
    ensures var (q, _) := StartRollout(p, c, tag);
            Follows(w, c, q.world.status) && Follows(w, c, Stored(q.mem))
  {
    TruncatedIsStable(w.clock);
    if p.mem.lastCheckTime.Some? {
      TruncatedIsStable(p.mem.lastCheckTime.value);
    }
    var q, r := StartRollout(p, c, tag).0, StartRollout(p, c, tag).1;
    if NeedsBackup(w.spec, c) {
      GateFollows(w, p, c);
      var gate := OneShot(p, c).1;
      if gate.Open? {
        assert q == RollForward(p, c, tag).0;
        RollFollows(w, p, c, tag);
      }
    } else {
      RollFollows(w, p, c, tag);
    }
  }

  /** The gate changes no more than the check time and the snapshot key of a status. */
  predicate KeepsRecord(s: Status, s': Status) {
    s' == s.(lastCheckTime := s'.lastCheckTime, preUpdateSnapshot := s'.preUpdateSnapshot)
  }

  lemma KeptRecordFollows(w: World, c: Call, s: Status)
    requires Coherent(w.status) && KeepsRecord(w.status, s) && Stored(s) == s
    ensures Follows(w, c, s)
  {
  }

  lemma GateKeepsRecord(w: World, p: Pass, c: Call)
    requires Coherent(w.status) && p.world == w && p.mem == w.status.(lastCheckTime := p.mem.lastCheckTime)
    ensures var q := OneShot(p, c).0;
      && KeepsRecord(w.status, q.world.status) && Stored(q.world.status) == q.world.status
      && KeepsRecord(w.status, Stored(q.mem)) && Stored(Stored(q.mem)) == Stored(q.mem)
      && q.world == w.(status := q.world.status, job := q.world.job)
  {
    if p.mem.lastCheckTime.Some? {
      TruncatedIsStable(p.mem.lastCheckTime.value);
    }
  }

  lemma GateFollows(w: World, p: Pass, c: Call)
    requires Coherent(w.status) && w.status.targetTag == ""
    requires p.world == w && p.mem == w.status.(lastCheckTime := p.mem.lastCheckTime)
    ensures var (q, gate) := OneShot(p, c);
            && Follows(w, c, q.world.status) && Follows(w, c, Stored(q.mem))
            && (gate.Open? ==> q == p && w.job.Some? && Verdict(w.job.value.conditions) == Some(Complete))
            && q.world == w.(status := q.world.status, job := q.world.job)
  {
    var q := OneShot(p, c).0;
    GateKeepsRecord(w, p, c);
    KeptRecordFollows(w, c, q.world.status);
    KeptRecordFollows(w, c, Stored(q.mem));
  }

  lemma RollFollows(w: World, p: Pass, c: Call, tag: string)
    requires Coherent(w.status) && w.status.targetTag == "" && tag != ""
    requires p.world == w && p.mem == w.status.(lastCheckTime := p.mem.lastCheckTime)
    requires tag != w.status.lastFailedTag && tag != CurrentRunningTag(w, w.status)
    requires w.spec.enabled && c.hasRegistry && !TooSoon(Pass(w, w.status)) && c.poll == Picked(Best(tag)) && GateOpen(w, c)
    ensures var q := RollForward(p, c, tag).0;
            Follows(w, c, q.world.status) && Follows(w, c, Stored(q.mem))
  {
    if p.mem.lastCheckTime.Some? {
      TruncatedIsStable(p.mem.lastCheckTime.value);
    }
    StartedFollows(w, p, tag);
    RollForwardWrites(p, c, tag);
  }

  lemma PollFollows(w: World, c: Call)
    requires Coherent(w.status) && w.status.targetTag == "" && c.poll != Picked(Best(""))
    requires w.spec.enabled && c.hasRegistry && !TooSoon(Pass(w, w.status))
    ensures var q := ActOnPoll(Pass(w, w.status), c).0;
            Follows(w, c, q.world.status) && Follows(w, c, Stored(q.mem))
  {
    TruncatedIsStable(w.clock);
    var checked := Pass(w, w.status.(lastCheckTime := Some(w.clock)));
    match c.poll
    case Picked(Best(tag)) =>
      if tag != w.status.lastFailedTag && tag != CurrentRunningTag(w, w.status) {
        StartFollows(w, checked, c, tag);
      }
    case _ =>
  }

  lemma ReconcileFollows(w: World, c: Call)
    requires Coherent(w.status) && c.poll != Picked(Best(""))
    ensures var q := AutoUpdate.Reconcile(Pass(w, w.status), c).0;
            Follows(w, c, q.world.status) && Follows(w, c, Stored(q.mem))
  {
    if w.spec.enabled && c.hasRegistry {
      if w.status.targetTag != "" {
        DriveFollows(w, c);
      } else if !TooSoon(Pass(w, w.status)) {
        PollFollows(w, c);
      }
    }
  }

  lemma ReconcileKeeps(w: World, c: Call)
    ensures var q := AutoUpdate.Reconcile(Pass(w, w.status), c).0;
            q.world.clock == w.clock && q.world.spec == w.spec
  {
  }

  /** A pass, whatever fails in it, leaves the record alone or applies exactly the due event. */
  lemma PassFollows(w: World, c: Call)
    requires Coherent(w.status) && c.poll != Picked(Best(""))
    ensures Follows(w, c, InstancePass(w, c).status)
    ensures InstancePass(w, c).clock == w.clock && InstancePass(w, c).spec == w.spec
  {
    ReconcileFollows(w, c);
    ReconcileKeeps(w, c);
  }

  // ---------- the record is the replay of the log ----------

  lemma DuePermitted(w: World, c: Call)
    requires Coherent(w.status) && c.poll != Picked(Best("")) && Due(w, c).Some?
    ensures Permits(RecordOf(w.status), Due(w, c).value)
  {
  }

  lemma ObserveFollows(w: World, c: Call, s: Status)
    requires Coherent(w.status) && Follows(w, c, s) && c.poll != Picked(Best(""))
    ensures var seen := Observe(w.status, s, w.clock);
            if RecordOf(s) == RecordOf(w.status) then seen == []
            else Due(w, c).Some? && seen == [Due(w, c).value] && RecordOf(s) == Extend(RecordOf(w.status), Due(w, c).value)
  {
    if RecordOf(s) != RecordOf(w.status) {
      DuePermitted(w, c);
    }
  }

  /** One move adds nothing to the log and leaves the record, or is a pass that adds its due
      event to both. */
  predicate Grows(v: World, m: Move, seen: seq<RolloutEvent>, after: Status) {
    || (seen == [] && RecordOf(after) == RecordOf(v.status))
    || (m.Reconcile? && Due(v, m.call).Some? && seen == [Due(v, m.call).value] &&
        Permits(RecordOf(v.status), seen[0]) && RecordOf(after) == Extend(RecordOf(v.status), seen[0]))
  }

  lemma MoveObserved(v: World, m: Move)
    requires Coherent(v.status) && NamesTags([m])
    ensures var v' := Apply(v, m);
            Coherent(v'.status) && Grows(v, m, Observe(v.status, v'.status, v.clock), v'.status)
  {
    assert [m][0] == m;
    if m.Reconcile? {
      PassFollows(v, m.call);
      ObserveFollows(v, m.call, InstancePass(v, m.call).status);
      if Due(v, m.call).Some? {
        DuePermitted(v, m.call);
      }
    }
  }

  lemma DisciplinedSnoc(log: seq<RolloutEvent>, e: RolloutEvent)
    requires Disciplined(log) && Permits(Replay(log), e)
    ensures Disciplined(log + [e]) && Replay(log + [e]) == Extend(Replay(log), e)
  {
    var longer := log + [e];
    assert longer[..|log|] == log;
    forall i | 0 <= i < |longer| ensures Permits(Replay(longer[..i]), longer[i]) {
      if i < |log| {
        assert longer[..i] == log[..i];
      }
    }
  }

  lemma DisciplinedPrefix(log: seq<RolloutEvent>, n: nat)
    requires Disciplined(log) && n <= |log|
    ensures Disciplined(log[..n])
  {
    forall i | 0 <= i < n ensures Permits(Replay(log[..n][..i]), log[..n][i]) {
      assert log[..n][..i] == log[..i];
    }
  }

  lemma NamesTagsPrefix(ms: seq<Move>)
    requires NamesTags(ms) && ms != []
    ensures NamesTags(ms[..|ms| - 1])
  {
  }

  lemma NamesLast(ms: seq<Move>)
    requires NamesTags(ms) && ms != []
    ensures NamesTags([ms[|ms| - 1]])
  {
  }

  /** In every run the stored record is exactly the replay of the observed log, every event
      was permitted when it happened, and the stored status is coherent. */
  lemma {:induction false} RecordIsReplay(w: World, ms: seq<Move>)
    requires w.status == EMPTY_STATUS && NamesTags(ms)
    ensures Coherent(After(w, ms).status)
    ensures RecordOf(After(w, ms).status) == Replay(Log(w, ms))
    ensures Disciplined(Log(w, ms))
  {
    if ms != [] {
      var prefix, m := ms[..|ms| - 1], ms[|ms| - 1];
      NamesTagsPrefix(ms);
      RecordIsReplay(w, prefix);
      var v := After(w, prefix);
      NamesLast(ms);
      MoveObserved(v, m);
      var seen := Observe(v.status, After(w, ms).status, v.clock);
      assert Grows(v, m, seen, After(w, ms).status);
      if seen != [] {
        DisciplinedSnoc(Log(w, prefix), seen[0]);
      } else {
        assert Log(w, ms) == Log(w, prefix);
      }
    }
  }

  // ---------- what a disciplined log cannot do ----------

  /** An open rollout is the last event of the log; otherwise the last event closed one. */
  lemma {:induction false} LastEventDecides(log: seq<RolloutEvent>)
    requires Disciplined(log) && log != []
    ensures var e, r := log[|log| - 1], Replay(log);
            && (r.target != "" <==> e.RolloutStarted?)
            && (e.RolloutStarted? ==> r.target == e.tag && r.deadline == Some(Truncated(e.at) + ROLLOUT_WINDOW))
            && (e.RolloutConfirmed? ==> r.current == e.tag && r.success == e.tag)
            && (e.RolloutRolledBack? ==> r.failed == e.tag && r.current == e.to)
  {
    assert Permits(Replay(log[..|log| - 1]), log[|log| - 1]);
  }

  /** Starts and outcomes alternate, an outcome concerns the rollout before it, and two
      consecutive rollouts never have the same target. */
  lemma RolloutsAlternate(log: seq<RolloutEvent>, i: nat)
    requires Disciplined(log) && i < |log|
    ensures i == 0 ==> log[0].RolloutStarted?
    ensures i + 1 < |log| ==> (log[i].RolloutStarted? <==> !log[i + 1].RolloutStarted?)
    ensures i + 1 < |log| && log[i].RolloutStarted? ==> log[i + 1].tag == log[i].tag
    ensures i + 2 < |log| && log[i].RolloutStarted? ==> log[i + 2].RolloutStarted? && log[i + 2].tag != log[i].tag
  {
    assert Permits(Replay(log[..i]), log[i]);
    if i + 1 < |log| {
      LastEventOfPrefix(log, i);
      if i + 2 < |log| {
        LastEventOfPrefix(log, i + 1);
      }
    }
  }

  lemma LastEventOfPrefix(log: seq<RolloutEvent>, i: nat)
    requires Disciplined(log) && i + 1 < |log|
    ensures Permits(Replay(log[..i + 1]), log[i + 1])
    ensures var e, r := log[i], Replay(log[..i + 1]);
            && (r.target != "" <==> e.RolloutStarted?)
            && (e.RolloutStarted? ==> r.target == e.tag)
            && (e.RolloutConfirmed? ==> r.current == e.tag && r.success == e.tag)
            && (e.RolloutRolledBack? ==> r.failed == e.tag && r.current == e.to)
  {
    DisciplinedPrefix(log, i + 1);
    LastEventDecides(log[..i + 1]);
    assert log[..i + 1][i] == log[i];
  }

  /** A tag that failed is started again only after a different tag has failed. */
  lemma RetryNeedsAnotherFailure(log: seq<RolloutEvent>, i: nat, j: nat)
    requires Disciplined(log) && i < j < |log|
    requires log[i].RolloutRolledBack? && log[j].RolloutStarted? && log[i].tag == log[j].tag
    ensures exists k :: i < k < j && log[k].RolloutRolledBack? && log[k].tag != log[i].tag
  {
    assert Permits(Replay(log[..j]), log[j]);
    if forall k :: i < k < j && log[k].RolloutRolledBack? ==> log[k].tag == log[i].tag {
      FailedTagStays(log, i, j);
    }
  }

  lemma {:induction false} FailedTagStays(log: seq<RolloutEvent>, i: nat, j: nat)
    requires i < j <= |log| && log[i].RolloutRolledBack?
    requires forall k :: i < k < j && log[k].RolloutRolledBack? ==> log[k].tag == log[i].tag
    ensures Replay(log[..j]).failed == log[i].tag
  {
    assert log[..j][..j - 1] == log[..j - 1];
    if i + 1 < j {
      FailedTagStays(log, i, j - 1);
    }
  }

  /** Until the next confirmation, rollbacks return to the last confirmed tag, which is
      never the tag being left, and that tag is not rolled out again. */
  lemma ConfirmedTagIsTheFallback(log: seq<RolloutEvent>, i: nat, j: nat)
    requires Disciplined(log) && i < j < |log| && log[i].RolloutConfirmed?
    requires forall k :: i < k < j ==> !log[k].RolloutConfirmed?
    ensures log[j].RolloutRolledBack? ==> log[j].to == log[i].tag && log[j].tag != log[i].tag
    ensures !log[j].RolloutRolledBack? ==> log[j].tag != log[i].tag
  {
    ConfirmedTagStays(log, i, j);
    assert Permits(Replay(log[..j]), log[j]);
  }

  ghost predicate RestsOn(r: Record, tag: string) {
    r.success == tag && r.current == tag && r.target != tag
  }

  lemma ExtendKeepsRest(r: Record, e: RolloutEvent, tag: string)
    requires tag != "" && RestsOn(r, tag) && Permits(r, e) && !e.RolloutConfirmed?
    ensures RestsOn(Extend(r, e), tag)
  {
  }

  lemma ConfirmationRests(r: Record, e: RolloutEvent)
    requires Permits(r, e) && e.RolloutConfirmed?
    ensures e.tag != "" && RestsOn(Extend(r, e), e.tag)
  {
  }

  lemma ReplayStep(log: seq<RolloutEvent>, j: nat)
    requires Disciplined(log) && j < |log|
    ensures Permits(Replay(log[..j]), log[j]) && Replay(log[..j + 1]) == Extend(Replay(log[..j]), log[j])
  {
    assert log[..j + 1][..j] == log[..j];
  }

  lemma {:induction false} ConfirmedTagStays(log: seq<RolloutEvent>, i: nat, j: nat)
    requires Disciplined(log) && i < j <= |log| && log[i].RolloutConfirmed?
    requires forall k :: i < k < j ==> !log[k].RolloutConfirmed?
    ensures log[i].tag != "" && RestsOn(Replay(log[..j]), log[i].tag)
  {
    ReplayStep(log, j - 1);
    if i + 1 < j {
      ConfirmedTagStays(log, i, j - 1);
      ExtendKeepsRest(Replay(log[..j - 1]), log[j - 1], log[i].tag);
    } else {
      ConfirmationRests(Replay(log[..i]), log[i]);
    }
  }

  // ---------- how many rollouts there can be ----------

  function Starts(log: seq<RolloutEvent>): seq<string> {
    if log == [] then []
    else
      var e := log[|log| - 1];
      Starts(log[..|log| - 1]) + (if e.RolloutStarted? then [e.tag] else [])
  }

  /** The tags the registry answered with, one for each pass that got a tag. */
  function BestTags(ms: seq<Move>): seq<string> {
    if ms == [] then []
    else
      var m := ms[|ms| - 1];
      BestTags(ms[..|ms| - 1]) +
        (if m.Reconcile? && m.call.poll.Picked? && m.call.poll.pick.Best? then [m.call.poll.pick.tag] else [])
  }

  /** The number of maximal stretches of equal tags. */
  function Stretches(tags: seq<string>): (n: nat)
    ensures tags != [] ==> n > 0
  {
    if tags == [] then 0
    else if |tags| == 1 then 1
    else Stretches(tags[..|tags| - 1]) + (if tags[|tags| - 1] == tags[|tags| - 2] then 0 else 1)
  }

  function Last(tags: seq<string>): string
    requires tags != []
  {
    tags[|tags| - 1]
  }

  lemma {:induction false} LastStartIsLastTag(log: seq<RolloutEvent>)
    requires Disciplined(log) && log != []
    ensures Starts(log) != [] && Last(Starts(log)) == log[|log| - 1].tag
  {
    var n := |log| - 1;
    DisciplinedPrefix(log, n);
    assert Permits(Replay(log[..n]), log[n]);
    if !log[n].RolloutStarted? {
      LastStartIsLastTag(log[..n]);
      LastEventDecides(log[..n]);
    }
  }

  /** The started tags, and the tags the registry answered with so far. */
  ghost predicate Bounded(starts: seq<string>, tags: seq<string>) {
    && |starts| <= Stretches(tags)
    && (starts != [] ==> tags != [] && (Last(starts) != Last(tags) ==> |starts| < Stretches(tags)))
  }

  lemma BoundedSnoc(starts: seq<string>, tags: seq<string>, tag: string)
    requires Bounded(starts, tags)
    ensures Bounded(starts, tags + [tag])
    ensures starts == [] || Last(starts) != tag ==> Bounded(starts + [tag], tags + [tag])
  {
    var longer := tags + [tag];
    assert longer[..|longer| - 1] == tags && Last(longer) == tag;
    if tags != [] {
      assert longer[|longer| - 2] == Last(tags);
      assert Stretches(longer) == Stretches(tags) + (if tag == Last(tags) then 0 else 1);
    }
    assert starts != [] ==> Last(starts + [tag]) == tag;
  }

  /** A start names the tag the registry just answered with, and not the tag started last. */
  lemma StartNamesAnswer(v: World, m: Move, log: seq<RolloutEvent>, seen: seq<RolloutEvent>, after: Status)
    requires Disciplined(log) && RecordOf(v.status) == Replay(log)
    requires Grows(v, m, seen, after)
    ensures Starts(log + seen) == Starts(log) ||
            (m.Reconcile? && m.call.poll.Picked? && m.call.poll.pick.Best? &&
             Starts(log + seen) == Starts(log) + [m.call.poll.pick.tag] &&
             (Starts(log) != [] ==> Last(Starts(log)) != m.call.poll.pick.tag))
  {
    if seen == [] {
      assert log + seen == log;
    } else {
      assert (log + seen)[..|log|] == log;
      if seen[0].RolloutStarted? && log != [] {
        LastStartIsLastTag(log);
        LastEventDecides(log);
      }
    }
  }

  /** In every run the number of rollouts is at most the number of stretches of equal
      answers the registry gave, whatever readiness, failures, crashes and edits do. */
  lemma {:induction false} RolloutsBoundedByRegistry(w: World, ms: seq<Move>)
    requires w.status == EMPTY_STATUS && NamesTags(ms)
    ensures |Starts(Log(w, ms))| <= Stretches(BestTags(ms))
    ensures Bounded(Starts(Log(w, ms)), BestTags(ms))
  {
    if ms != [] {
      var prefix, m := ms[..|ms| - 1], ms[|ms| - 1];
      NamesTagsPrefix(ms);
      RolloutsBoundedByRegistry(w, prefix);
      RecordIsReplay(w, prefix);
      NamesLast(ms);
      var v := After(w, prefix);
      MoveObserved(v, m);
      var seen := Observe(v.status, After(w, ms).status, v.clock);
      StartNamesAnswer(v, m, Log(w, prefix), seen, After(w, ms).status);
      var starts, tags := Starts(Log(w, prefix)), BestTags(prefix);
      if m.Reconcile? && m.call.poll.Picked? && m.call.poll.pick.Best? {
        BoundedSnoc(starts, tags, m.call.poll.pick.tag);
      } else {
        assert BestTags(ms) == tags;
      }
    }
  }

  lemma {:induction false} OneStretch(tags: seq<string>)
    requires forall i, j :: 0 <= i < |tags| && 0 <= j < |tags| ==> tags[i] == tags[j]
    ensures Stretches(tags) <= 1
  {
    if |tags| > 1 {
      OneStretch(tags[..|tags| - 1]);
    }
  }

  /** If the registry's answer never changes, at most one rollout is ever started. */
  lemma ConstantAnswerOneRollout(w: World, ms: seq<Move>)
    requires w.status == EMPTY_STATUS && NamesTags(ms)
    requires forall i, j :: 0 <= i < |BestTags(ms)| && 0 <= j < |BestTags(ms)| ==> BestTags(ms)[i] == BestTags(ms)[j]
    ensures |Starts(Log(w, ms))| <= 1
  {
    RolloutsBoundedByRegistry(w, ms);
    OneStretch(BestTags(ms));
  }
}
