/** Runs that show which stronger claims about auto-update are false. The exact conditions
    under which those claims hold are in AutoUpdateImages, AutoUpdateGuarantees and
    AutoUpdateRuns. */
module AutoUpdateCounterexamples {
  import opened Wrappers
  import opened Clock
  import opened Jobs
  import opened Oci
  import opened AutoUpdate
  import opened AutoUpdateRuns
  import opened AutoUpdateGuarantees
  import opened AutoUpdateImages

  // ---------- the pieces of the runs ----------

  const WORKING := Api(true, true, true, true, true, true, true, true, true, true, true, true)

  /** A call in which the registry answers with the tag. */
  function CallFor(tag: string, api: Api): Call {
    Call(true, true, api, Picked(Best(tag)), "now")
  }

  /** The instance controller's pass: the pod template first, then auto-update. */
  function Controller(tag: string, api: Api): seq<Move> {
    [RewriteStatefulSet([]), Reconcile(CallFor(tag, api))]
  }

  const WINDOW_PASSES := Tick(ROLLOUT_WINDOW + SECOND)

  /** A rollout of the tag that runs out of time, and the wait for the next poll. */
  function Attempt(spec: Spec, tag: string): seq<Move> {
    (Controller(tag, WORKING) + [WINDOW_PASSES]) + (Controller(tag, WORKING) + [Tick(ParsePollInterval(spec.pollInterval))])
  }

  /** A run as the controller makes it, with answers that name tags. */
  ghost predicate Proper(ms: seq<Move>) {
    NamesTags(ms) && Controlled(ms)
  }

  lemma ControllerIsProper(tag: string, api: Api)
    requires tag != ""
    ensures Proper(Controller(tag, api))
  {
  }

  lemma ProperConcat(ms: seq<Move>, more: seq<Move>)
    requires Proper(ms) && Proper(more)
    ensures Proper(ms + more)
  {
    var all := ms + more;
    forall n | 0 <= n < |all| && all[n].Reconcile? ensures n > 0 && all[n - 1].RewriteStatefulSet? {
      if n >= |ms| {
        assert all[n] == more[n - |ms|] && more[n - |ms|].Reconcile?;
        assert all[n - 1] == more[n - |ms| - 1];
      }
    }
  }

  lemma OtherMoveIsProper(m: Move)
    requires !m.Reconcile?
    ensures Proper([m])
  {
  }

  lemma AttemptIsProper(spec: Spec, tag: string)
    requires tag != ""
    ensures Proper(Attempt(spec, tag))
  {
    var wait := [Tick(ParsePollInterval(spec.pollInterval))];
    ControllerIsProper(tag, WORKING);
    OtherMoveIsProper(WINDOW_PASSES);
    OtherMoveIsProper(wait[0]);
    ProperConcat(Controller(tag, WORKING), [WINDOW_PASSES]);
    ProperConcat(Controller(tag, WORKING), wait);
    ProperConcat(Controller(tag, WORKING) + [WINDOW_PASSES], Controller(tag, WORKING) + wait);
  }

  lemma {:induction false} AfterConcat(w: World, ms: seq<Move>, more: seq<Move>)
    ensures After(w, ms + more) == After(After(w, ms), more)
  {
    if more == [] {
      assert ms + more == ms;
    } else {
      var n := |more| - 1;
      assert (ms + more)[..|ms + more| - 1] == ms + more[..n];
      AfterConcat(w, ms, more[..n]);
    }
  }

  lemma {:induction false} LogConcat(w: World, ms: seq<Move>, more: seq<Move>)
    ensures Log(w, ms + more) == Log(w, ms) + Log(After(w, ms), more)
  {
    if more == [] {
      assert ms + more == ms;
    } else {
      var n := |more| - 1;
      assert (ms + more)[..|ms + more| - 1] == ms + more[..n];
      AfterConcat(w, ms, more[..n]);
      AfterConcat(w, ms, more);
      LogConcat(w, ms, more[..n]);
    }
  }

  lemma RunsConcat(w: World, ms: seq<Move>, more: seq<Move>)
    ensures After(w, ms + more) == After(After(w, ms), more)
    ensures Log(w, ms + more) == Log(w, ms) + Log(After(w, ms), more)
  {
    AfterConcat(w, ms, more);
    LogConcat(w, ms, more);
  }

  lemma OneMove(w: World, m: Move)
    ensures After(w, [m]) == Apply(w, m)
    ensures Log(w, [m]) == Observe(w.status, Apply(w, m).status, w.clock)
  {
    assert [] + [m] == [m];
    LogSnoc(w, [], m);
  }

  /** The run leads from w to v and shows these events. */
  ghost predicate Leads(w: World, ms: seq<Move>, v: World, log: seq<RolloutEvent>) {
    After(w, ms) == v && Log(w, ms) == log
  }

  lemma LeadsConcat(w: World, ms: seq<Move>, v: World, log: seq<RolloutEvent>, more: seq<Move>, u: World, events: seq<RolloutEvent>)
    ensures Leads(w, ms, v, log) && Leads(v, more, u, events) ==> Leads(w, ms + more, u, log + events)
  {
    RunsConcat(w, ms, more);
  }

  lemma LeadsOne(w: World, m: Move, v: World)
    requires v == Apply(w, m) && Observe(w.status, v.status, w.clock) == []
    ensures Leads(w, [m], v, [])
  {
    OneMove(w, m);
  }

  lemma ControllerMoves(w: World, tag: string, api: Api)
    ensures var v := WithSpecImage(w, []);
      && After(w, Controller(tag, api)) == InstancePass(v, CallFor(tag, api))
      && Log(w, Controller(tag, api)) == Observe(v.status, InstancePass(v, CallFor(tag, api)).status, v.clock)
  {
    var rewrite, pass := RewriteStatefulSet([]), Reconcile(CallFor(tag, api));
    OneMove(w, rewrite);
    LogSnoc(w, [rewrite], pass);
    assert [rewrite] + [pass] == Controller(tag, api);
  }

  // ---------- the states of the runs ----------

  /** Auto-update and rollback are on, backups are off, nothing was ever confirmed, and the pod
      is not ready. */
  predicate Struggling(w: World) {
    && Coherent(w.status) && w.status.lastSuccessTag == ""
    && w.spec.enabled && w.spec.rollbackEnabled.GetOr(true) && w.spec.backupBeforeUpdate == Some(false)
    && w.sts.Some? && w.sts.value.images != [] && !Ready(w.sts.value)
  }

  /** Nothing is in flight, and the interval passed. */
  predicate AtRest(w: World) {
    Struggling(w) && w.status.targetTag == "" && !TooSoon(Pass(w, w.status))
  }

  /** At rest, and the tag would be rolled out. */
  predicate Fresh(w: World, tag: string) {
    AtRest(w) && tag != "" && tag != w.status.lastFailedTag && tag != CurrentRunningTag(w, w.status)
  }

  /** The tag is in flight, and its window is over. */
  predicate Overdue(w: World, tag: string) {
    Struggling(w) && w.status.targetTag == tag && tag != "" && PastDeadline(w, w.status)
  }

  const SPEC := Spec(true, "repo", "1.0.0", "", Unset, "", "*", Some(false), None, None, 0)
  const WORLD := World(0, Identity("ns", "demo"), SPEC, EMPTY_STATUS, "", Some(StatefulSet(["repo:1.0.0"], 0, 0, "rev")), None, [])

  /** There is such a state with an empty status, and every tag but the spec's is fresh in it. */
  lemma SomeWorldIsAtRest(tag: string)
    requires tag != "" && tag != "1.0.0"
    ensures WORLD.status == EMPTY_STATUS && Fresh(WORLD, tag)
  {
  }

  lemma RewriteKeepsState(w: World, tag: string)
    ensures Struggling(w) ==> Struggling(WithSpecImage(w, []))
    ensures Fresh(w, tag) ==> Fresh(WithSpecImage(w, []), tag)
    ensures Overdue(w, tag) ==> Overdue(WithSpecImage(w, []), tag)
  {
  }

  lemma StartPass(w: World, tag: string)
    requires Fresh(w, tag)
    ensures var v := InstancePass(w, CallFor(tag, WORKING));
      && Observe(w.status, v.status, w.clock) == [RolloutStarted(tag, w.clock)]
      && Struggling(v) && v.status.targetTag == tag
      && v.status.rolloutDeadline == Some(Truncated(w.clock) + ROLLOUT_WINDOW)
      && v.status.lastCheckTime == Some(Truncated(w.clock)) && v.spec == w.spec && v.clock == w.clock
  {
    var c := CallFor(tag, WORKING);
    StartVerdict(w, c);
    PassFollows(w, c);
    ObserveFollows(w, c, InstancePass(w, c).status);
    PassSets(w, c);
    var checked := Pass(w, w.status.(lastCheckTime := Some(w.clock)));
    assert AutoUpdate.Reconcile(Pass(w, w.status), c).0 == RollForward(checked, c, tag).0;
  }

  lemma EndPass(w: World, tag: string)
    requires Overdue(w, tag)
    ensures var v := InstancePass(w, CallFor(tag, WORKING));
      && Observe(w.status, v.status, w.clock) == [RolloutRolledBack(tag, w.spec.tag)]
      && Struggling(v) && v.status.targetTag == "" && v.status.lastFailedTag == tag && v.status.currentTag == w.spec.tag
      && v.status.lastCheckTime == w.status.lastCheckTime && v.spec == w.spec && v.clock == w.clock
      && Runs(v, w.spec.tag)
  {
    var c := CallFor(tag, WORKING);
    var counted := Pass(w, w.status.(probeFailures := CountedFailures(w, w.status)));
    RolledBackFollows(w.status, CountedFailures(w, w.status), w.spec.tag);
    assert MustRollBack(w, w.status);
    assert AutoUpdate.Reconcile(Pass(w, w.status), c).0 == RollBack(counted, c).0;
    PassSets(w, c);
  }

  lemma FreshStarts(w: World, tag: string) returns (v: World)
    requires Fresh(w, tag)
    ensures Leads(w, Controller(tag, WORKING), v, [RolloutStarted(tag, w.clock)])
    ensures Struggling(v) && v.status.targetTag == tag && v.spec == w.spec && v.clock == w.clock
    ensures v.status.rolloutDeadline == Some(Truncated(w.clock) + ROLLOUT_WINDOW)
    ensures v.status.lastCheckTime == Some(Truncated(w.clock))
  {
    RewriteKeepsState(w, tag);
    ControllerMoves(w, tag, WORKING);
    StartPass(WithSpecImage(w, []), tag);
    v := After(w, Controller(tag, WORKING));
  }

  /** The first half of an attempt. */
  lemma AttemptRunsOut(w: World, tag: string) returns (v: World)
    requires Fresh(w, tag)
    ensures Leads(w, Controller(tag, WORKING) + [WINDOW_PASSES], v, [RolloutStarted(tag, w.clock)])
    ensures Overdue(v, tag) && v.spec == w.spec
    ensures v.status.lastCheckTime.Some? && v.status.lastCheckTime.value <= v.clock
  {
    var u := FreshStarts(w, tag);
    TruncatedBounds(w.clock);
    v := Apply(u, WINDOW_PASSES);
    LeadsOne(u, WINDOW_PASSES, v);
    LeadsConcat(w, Controller(tag, WORKING), u, [RolloutStarted(tag, w.clock)], [WINDOW_PASSES], v, []);
    assert [RolloutStarted(tag, w.clock)] + [] == [RolloutStarted(tag, w.clock)];
  }

  /** The second half, without and with the wait. */
  lemma OverdueIsRolledBack(w: World, tag: string) returns (v: World)
    requires Overdue(w, tag)
    ensures Leads(w, Controller(tag, WORKING), v, [RolloutRolledBack(tag, w.spec.tag)])
    ensures Struggling(v) && v.status.targetTag == "" && v.status.lastFailedTag == tag && v.status.currentTag == w.spec.tag
    ensures v.status.lastCheckTime == w.status.lastCheckTime && v.spec == w.spec && v.clock == w.clock
    ensures Runs(v, w.spec.tag)
  {
    RewriteKeepsState(w, tag);
    ControllerMoves(w, tag, WORKING);
    EndPass(WithSpecImage(w, []), tag);
    v := After(w, Controller(tag, WORKING));
  }

  lemma AttemptIsRolledBack(w: World, tag: string) returns (v: World)
    requires Overdue(w, tag) && w.status.lastCheckTime.Some? && w.status.lastCheckTime.value <= w.clock
    ensures Leads(w, Controller(tag, WORKING) + [Tick(ParsePollInterval(w.spec.pollInterval))], v, [RolloutRolledBack(tag, w.spec.tag)])
    ensures AtRest(v) && v.spec == w.spec && v.status.lastFailedTag == tag && v.status.currentTag == w.spec.tag
    ensures Runs(v, w.spec.tag)
  {
    var u := OverdueIsRolledBack(w, tag);
    var wait := Tick(ParsePollInterval(w.spec.pollInterval));
    v := Apply(u, wait);
    LeadsOne(u, wait, v);
    LeadsConcat(w, Controller(tag, WORKING), u, [RolloutRolledBack(tag, w.spec.tag)], [wait], v, []);
    assert [RolloutRolledBack(tag, w.spec.tag)] + [] == [RolloutRolledBack(tag, w.spec.tag)];
  }

  lemma AttemptFails(w: World, tag: string) returns (v: World)
    requires Fresh(w, tag)
    ensures Leads(w, Attempt(w.spec, tag), v, [RolloutStarted(tag, w.clock), RolloutRolledBack(tag, w.spec.tag)])
    ensures AtRest(v) && v.spec == w.spec && v.status.lastFailedTag == tag && v.status.currentTag == w.spec.tag
    ensures Runs(v, w.spec.tag)
  {
    var u := AttemptRunsOut(w, tag);
    v := AttemptIsRolledBack(u, tag);
    LeadsConcat(w, Controller(tag, WORKING) + [WINDOW_PASSES], u, [RolloutStarted(tag, w.clock)],
      Controller(tag, WORKING) + [Tick(ParsePollInterval(w.spec.pollInterval))], v, [RolloutRolledBack(tag, w.spec.tag)]);
  }

  // ---------- a failed tag is tried again ----------

  /** "A failed tag is not retried" is false: for any two tags, a can fail, then b, and then a
      is rolled out again. */
  lemma FailedTagIsRetried(w: World, a: string, b: string) returns (ms: seq<Move>, later: int, last: int)
    requires Fresh(w, a) && a != b && b != "" && w.spec.tag != a && w.spec.tag != b
    ensures Proper(ms)
    ensures Log(w, ms) == [
      RolloutStarted(a, w.clock), RolloutRolledBack(a, w.spec.tag),
      RolloutStarted(b, later), RolloutRolledBack(b, w.spec.tag),
      RolloutStarted(a, last)]
  {
    var v := AttemptFails(w, a);
    var more, t;
    later := v.clock;
    more, t, last := RetryAfterAnother(v, a, b);
    ms := Attempt(w.spec, a) + more;
    LeadsConcat(w, Attempt(w.spec, a), v, [RolloutStarted(a, w.clock), RolloutRolledBack(a, w.spec.tag)],
      more, t, [RolloutStarted(b, later), RolloutRolledBack(b, w.spec.tag), RolloutStarted(a, last)]);
    AttemptIsProper(w.spec, a);
    ProperConcat(Attempt(w.spec, a), more);
  }

  lemma RetryAfterAnother(v: World, a: string, b: string) returns (ms: seq<Move>, t: World, last: int)
    requires AtRest(v) && v.status.lastFailedTag == a && v.status.currentTag == v.spec.tag
    requires a != b && a != "" && b != "" && v.spec.tag != a && v.spec.tag != b
    ensures Proper(ms)
    ensures Leads(v, ms, t, [RolloutStarted(b, v.clock), RolloutRolledBack(b, v.spec.tag), RolloutStarted(a, last)])
  {
    var u := AttemptFails(v, b);
    t := FreshStarts(u, a);
    last := u.clock;
    ms := Attempt(v.spec, b) + Controller(a, WORKING);
    LeadsConcat(v, Attempt(v.spec, b), u, [RolloutStarted(b, v.clock), RolloutRolledBack(b, v.spec.tag)],
      Controller(a, WORKING), t, [RolloutStarted(a, last)]);
    AttemptIsProper(v.spec, b);
    ControllerIsProper(a, WORKING);
    ProperConcat(Attempt(v.spec, b), Controller(a, WORKING));
  }

  // ---------- where a rollback leads ----------

  /** "A rollback restores the image of the spec" is false: when the spec names no tag, a failed
      first rollout leads to an image reference without a tag. */
  lemma RollbackLosesTag(w: World, tag: string)
    requires Fresh(w, tag) && w.spec.tag == ""
    ensures Proper(Attempt(w.spec, tag))
    ensures Log(w, Attempt(w.spec, tag)) == [RolloutStarted(tag, w.clock), RolloutRolledBack(tag, "")]
    ensures Runs(After(w, Attempt(w.spec, tag)), "") && ImageOf(w.spec, "") != SpecImage(w.spec)
  {
    AttemptIsProper(w.spec, tag);
    var _ := AttemptFails(w, tag);
    assert RollbackTag(w, w.status) == "";
    RollbackRestoresSpecImage(w);
  }

  /** "A rollback never lands on the tag it leaves" is false when the instance's tag is
      edited to the target of a first rollout while it is in flight. */
  lemma EditedTagRollsBackToItself(w: World, tag: string) returns (ms: seq<Move>)
    requires Fresh(w, tag)
    ensures Proper(ms) && Log(w, ms) == [RolloutStarted(tag, w.clock), RolloutRolledBack(tag, tag)]
  {
    var first, edit := Controller(tag, WORKING) + [WINDOW_PASSES], EditSpec(w.spec.(tag := tag));
    var v := AttemptRunsOut(w, tag);
    var u := Apply(v, edit);
    LeadsOne(v, edit, u);
    var t := OverdueIsRolledBack(u, tag);
    ms := first + ([edit] + Controller(tag, WORKING));
    LeadsConcat(v, [edit], u, [], Controller(tag, WORKING), t, [RolloutRolledBack(tag, tag)]);
    LeadsConcat(w, first, v, [RolloutStarted(tag, w.clock)], [edit] + Controller(tag, WORKING), t, [] + [RolloutRolledBack(tag, tag)]);
    ControllerIsProper(tag, WORKING);
    OtherMoveIsProper(WINDOW_PASSES);
    OtherMoveIsProper(edit);
    ProperConcat(Controller(tag, WORKING), [WINDOW_PASSES]);
    ProperConcat([edit], Controller(tag, WORKING));
    ProperConcat(first, [edit] + Controller(tag, WORKING));
  }

  // ---------- the current tag does not run ----------

  /** The pass dies after its image patch: the annotation patch is the next write. */
  const DYING := WORKING.(patchAnnotation := false)

  /** "The current tag is the one that runs" fails when a start dies between its image patch and
      its record, although the spec asks for the current tag and nothing is in flight. */
  lemma DyingStartLosesCurrentTag(w: World, a: string, b: string) returns (ms: seq<Move>)
    requires Fresh(w, a) && a != b && b != "" && w.spec.tag != "" && w.spec.tag != b && w.spec.digest == ""
    ensures Proper(ms)
    ensures var v := After(w, ms);
      && v.status.targetTag == "" && v.status.currentTag == w.spec.tag && SpecAsksFor(v.spec, v.status.currentTag)
      && !Runs(v, v.status.currentTag) && Runs(v, b)
  {
    var v := AttemptFails(w, a);
    DyingStart(v, b);
    ms := Attempt(w.spec, a) + Controller(b, DYING);
    RunsConcat(w, Attempt(w.spec, a), Controller(b, DYING));
    AttemptIsProper(w.spec, a);
    ControllerIsProper(b, DYING);
    ProperConcat(Attempt(w.spec, a), Controller(b, DYING));
  }

  lemma DyingStart(w: World, tag: string)
    requires Fresh(w, tag) && w.status.currentTag != "" && w.spec.tag == w.status.currentTag
    ensures var v := After(w, Controller(tag, DYING));
      && v.status.targetTag == "" && v.status.currentTag == w.status.currentTag && v.spec == w.spec
      && !Runs(v, v.status.currentTag) && Runs(v, tag)
  {
    ControllerMoves(w, tag, DYING);
    var v, c := WithSpecImage(w, []), CallFor(tag, DYING);
    RewriteKeepsState(w, tag);
    assert PatchesForward(v, c) && Wanted(v, c) == Some(tag);
    PassTargets(v, c);
    PassSets(v, c);
    CurrentTagAfter(v, c);
    SameImageSameTag(w.spec, tag, w.status.currentTag);
  }

  // ---------- a confirmed tag does not run ----------

  lemma ReadyIsConfirmed(v: World, tag: string)
    requires Coherent(v.status) && v.status.targetTag == tag && tag != ""
    requires v.spec.enabled && v.sts.Some? && Ready(v.sts.value)
    ensures var u := InstancePass(v, CallFor(tag, WORKING));
      && Observe(v.status, u.status, v.clock) == [RolloutConfirmed(tag)]
      && u.status.currentTag == tag && u.status.lastSuccessTag == tag && u.sts == v.sts && u.spec == v.spec
  {
    var c := CallFor(tag, WORKING);
    ConfirmedFollows(v.status);
    assert AutoUpdate.Reconcile(Pass(v, v.status), c).0 == Settled(Pass(v, Confirmed(v.status)), c).0;
  }

  /** "A confirmed tag is the one that runs" fails although nothing else does: for every tag the
      spec does not ask for, the pod becomes ready with it, the next pass writes the spec's
      image back, and then confirms the tag that no longer runs. */
  lemma OverwrittenImageIsConfirmed(w: World, tag: string, ready: StatefulSet) returns (ms: seq<Move>)
    requires Fresh(w, tag) && Ready(ready) && !SpecAsksFor(w.spec, tag)
    ensures ms == Controller(tag, WORKING) + ([ReplaceStatefulSet(Some(ready))] + Controller(tag, WORKING)) && Proper(ms)
    ensures var v := After(w, ms);
            v.status.currentTag == tag && v.status.lastSuccessTag == tag && !Runs(v, tag)
  {
    var replace := ReplaceStatefulSet(Some(ready));
    ms := Controller(tag, WORKING) + ([replace] + Controller(tag, WORKING));
    ControllerIsProper(tag, WORKING);
    OtherMoveIsProper(replace);
    ProperConcat([replace], Controller(tag, WORKING));
    ProperConcat(Controller(tag, WORKING), [replace] + Controller(tag, WORKING));
    var begun := FreshStarts(w, tag);
    RunsConcat(w, Controller(tag, WORKING), [replace] + Controller(tag, WORKING));
    RunsConcat(begun, [replace], Controller(tag, WORKING));
    OneMove(begun, replace);
    OverwrittenLast(begun.(sts := Some(ready)), tag);
  }

  lemma OverwrittenLast(w: World, tag: string)
    requires Coherent(w.status) && w.status.targetTag == tag && tag != "" && w.spec.enabled
    requires w.sts.Some? && Ready(w.sts.value) && !SpecAsksFor(w.spec, tag)
    ensures var v := After(w, Controller(tag, WORKING));
            v.status.currentTag == tag && v.status.lastSuccessTag == tag && !Runs(v, tag)
  {
    ControllerMoves(w, tag, WORKING);
    ReadyIsConfirmed(WithSpecImage(w, []), tag);
    ConfirmedTagRunsIff(w, [], CallFor(tag, WORKING), tag);
  }

  /** The pass dies after the image patch of a rollback: no status write works. */
  const UNRECORDED := WORKING.(writeStatus := false, finalStatus := false)

  /** It fails even without the rewriting of the pod template, when a rollback dies between its
      image patch and its status write and the next ready pod confirms it. */
  lemma CrashedRollbackIsConfirmed(w: World, tag: string) returns (ms: seq<Move>)
    requires Fresh(w, tag) && tag != w.spec.tag
    ensures NamesTags(ms)
    ensures var v := After(w, ms);
            v.status.currentTag == tag && v.status.lastSuccessTag == tag && !Runs(v, tag) && Runs(v, w.spec.tag)
  {
    var first, crash := Controller(tag, WORKING) + [WINDOW_PASSES], Controller(tag, UNRECORDED);
    var v := AttemptRunsOut(w, tag);
    CrashedRollback(v, tag);
    var last := CrashConfirmed(After(v, crash), tag);
    ms := first + (crash + last);
    RunsConcat(v, crash, last);
    RunsConcat(w, first, crash + last);
    CrashNames(tag, last);
  }

  lemma CrashNames(tag: string, last: seq<Move>)
    requires tag != "" && NamesTags(last)
    ensures NamesTags((Controller(tag, WORKING) + [WINDOW_PASSES]) + (Controller(tag, UNRECORDED) + last))
  {
  }

  lemma CrashConfirmed(u: World, tag: string) returns (last: seq<Move>)
    requires Coherent(u.status) && u.status.targetTag == tag && tag != "" && u.spec.enabled
    requires Runs(u, u.spec.tag) && tag != u.spec.tag
    ensures NamesTags(last)
    ensures var v := After(u, last);
            v.status.currentTag == tag && v.status.lastSuccessTag == tag && !Runs(v, tag) && Runs(v, u.spec.tag)
  {
    var ready := ReplaceStatefulSet(Some(u.sts.value.(readyReplicas := 1, updatedReplicas := 1, currentRevision := "rev")));
    var pass := Reconcile(CallFor(tag, WORKING));
    last := [ready] + [pass];
    RunsConcat(u, [ready], [pass]);
    OneMove(u, ready);
    OneMove(Apply(u, ready), pass);
    ReadyConfirmsOther(Apply(u, ready), tag);
  }

  lemma ReadyConfirmsOther(v: World, tag: string)
    requires Coherent(v.status) && v.status.targetTag == tag && tag != "" && v.spec.enabled
    requires v.sts.Some? && Ready(v.sts.value) && Runs(v, v.spec.tag) && tag != v.spec.tag
    ensures var u := InstancePass(v, CallFor(tag, WORKING));
            u.status.currentTag == tag && u.status.lastSuccessTag == tag && !Runs(u, tag) && Runs(u, v.spec.tag)
  {
    ReadyIsConfirmed(v, tag);
    SameImageSameTag(v.spec, tag, v.spec.tag);
  }

  lemma CrashedRollback(w: World, tag: string)
    requires Overdue(w, tag)
    ensures var v := After(w, Controller(tag, UNRECORDED));
            Coherent(v.status) && v.status.targetTag == tag && v.spec == w.spec && Runs(v, w.spec.tag)
  {
    ControllerMoves(w, tag, UNRECORDED);
    var v, c := WithSpecImage(w, []), CallFor(tag, UNRECORDED);
    RewriteKeepsState(w, tag);
    PassFollows(v, c);
    PassEnds(v, c);
    ObserveFollows(v, c, InstancePass(v, c).status);
    PassSets(v, c);
  }
}
