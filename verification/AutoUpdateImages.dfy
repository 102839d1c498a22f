/** Which image runs: what a recorded event says about the pod template, and when the tag in
    the record is the one the instance controller leaves in place. */
module AutoUpdateImages {
  import opened Wrappers
  import opened Oci
  import opened AutoUpdate
  import opened AutoUpdateRuns
  import opened AutoUpdateGuarantees

  // ---------- the cluster comes before the record ----------

  predicate RunsTag(w: World, w': World, tag: string) {
    && w.sts.Some? && w.sts.value.images != []
    && w'.sts == Some(w.sts.value.(images := w.sts.value.images[0 := ImageOf(w.spec, tag)]))
  }

  /** What must be found in the cluster once the event is recorded. */
  predicate InPlace(w: World, w': World, e: RolloutEvent) {
    match e
    case RolloutStarted(t, _) => RunsTag(w, w', t) && w'.annotation == t && w'.status.probeFailures == 0
    case RolloutConfirmed(_) => w'.sts == w.sts && w'.status.preUpdateSnapshot == "" && w'.status.probeFailures == 0
    case RolloutRolledBack(_, to) =>
      RunsTag(w, w', to) && w'.status.preUpdateSnapshot == w.status.preUpdateSnapshot &&
      w'.status.probeFailures == CountedFailures(w, w.status)
  }

  /** If s is stored in w', every event it shows is in place there. */
  predicate ShownInPlace(w: World, w': World, s: Status) {
    var seen := Observe(w.status, s, w.clock);
    seen != [] ==> InPlace(w, w'.(status := s), seen[0])
  }

  lemma RollBackInPlace(w: World, p: Pass, c: Call)
    requires Coherent(w.status) && w.status.targetTag != "" && p.world == w
    requires p.mem == w.status.(probeFailures := CountedFailures(w, w.status))
    ensures var q := RollBack(p, c).0;
            ShownInPlace(w, q.world, q.world.status) && ShownInPlace(w, q.world, Stored(q.mem))
  {
  }

  lemma ConfirmInPlace(w: World, c: Call)
    requires Coherent(w.status) && w.status.targetTag != ""
    ensures var q := Settled(Pass(w, Confirmed(w.status)), c).0;
            ShownInPlace(w, q.world, q.world.status) && ShownInPlace(w, q.world, Stored(q.mem))
  {
  }

  lemma UnreadyInPlace(w: World, c: Call)
    requires Coherent(w.status) && w.status.targetTag != ""
    ensures var q := DriveUnready(Pass(w, w.status), c).0;
            ShownInPlace(w, q.world, q.world.status) && ShownInPlace(w, q.world, Stored(q.mem))
  {
    RollBackInPlace(w, Pass(w, w.status.(probeFailures := CountedFailures(w, w.status))), c);
  }

  lemma DriveInPlace(w: World, c: Call)
    requires Coherent(w.status) && w.status.targetTag != ""
    ensures var q := DriveRollout(Pass(w, w.status), c).0;
            ShownInPlace(w, q.world, q.world.status) && ShownInPlace(w, q.world, Stored(q.mem))
  {
    ConfirmInPlace(w, c);
    UnreadyInPlace(w, c);
  }

  lemma RollForwardInPlace(w: World, p: Pass, c: Call, tag: string)
    requires w.status.targetTag == "" && p.mem.targetTag == "" && p.world.status.targetTag == ""
    requires p.world == w.(status := p.world.status, job := p.world.job)
    ensures var q := RollForward(p, c, tag).0;
            ShownInPlace(w, q.world, q.world.status) && ShownInPlace(w, q.world, Stored(q.mem))
  {
  }

  lemma StartInPlace(w: World, p: Pass, c: Call, tag: string)
    requires w.status.targetTag == "" && p.mem.targetTag == "" && p.world == w
    ensures var q := StartRollout(p, c, tag).0;
            ShownInPlace(w, q.world, q.world.status) && ShownInPlace(w, q.world, Stored(q.mem))
  {
    if NeedsBackup(w.spec, c) {
      RollForwardInPlace(w, OneShot(p, c).0, c, tag);
    } else {
      RollForwardInPlace(w, p, c, tag);
    }
  }

  lemma PollInPlace(w: World, c: Call)
    requires w.status.targetTag == ""
    ensures var q := ActOnPoll(Pass(w, w.status), c).0;
            ShownInPlace(w, q.world, q.world.status) && ShownInPlace(w, q.world, Stored(q.mem))
  {
    if c.poll.Picked? && c.poll.pick.Best? {
      StartInPlace(w, Pass(w, w.status.(lastCheckTime := Some(w.clock))), c, c.poll.pick.tag);
    }
  }

  lemma ReconcileInPlace(w: World, c: Call)
    requires Coherent(w.status)
    ensures var q := AutoUpdate.Reconcile(Pass(w, w.status), c).0;
            ShownInPlace(w, q.world, q.world.status) && ShownInPlace(w, q.world, Stored(q.mem))
  {
    if w.status.targetTag != "" {
      DriveInPlace(w, c);
    } else {
      PollInPlace(w, c);
    }
  }

  /** Whatever fails in a pass, an event it records is already true of the cluster: a start
      and a rollback are recorded only after the image was patched, a confirmation leaves the
      pod template alone and gives up the snapshot key. */
  lemma RecordedEventIsInPlace(w: World, c: Call)
    requires Coherent(w.status)
    ensures ShownInPlace(w, InstancePass(w, c), InstancePass(w, c).status)
  {
    ReconcileInPlace(w, c);
  }

  // ---------- the confirmed tag and the image ----------

  /** The first container's image is that of the tag. */
  predicate Runs(w: World, tag: string) {
    w.sts.Some? && w.sts.value.images != [] && w.sts.value.images[0] == ImageOf(w.spec, tag)
  }

  /** The spec itself asks for the tag: by name, or by leaving out both tag and digest. */
  predicate SpecAsksFor(spec: Spec, tag: string) {
    spec.digest == "" && (spec.tag == tag || (spec.tag == "" && tag == "latest"))
  }

  lemma SameImageSameTag(spec: Spec, a: string, b: string)
    ensures ImageOf(spec, a) == ImageOf(spec, b) <==> a == b
  {
    var r := Repository(spec);
    assert ImageOf(spec, a) == r + (":" + a) && ImageOf(spec, b) == r + (":" + b);
    assert ImageOf(spec, a)[|r| + 1..] == a && ImageOf(spec, b)[|r| + 1..] == b;
  }

  lemma SpecImageNamesTag(spec: Spec, tag: string)
    requires tag != ""
    ensures SpecImage(spec) == ImageOf(spec, tag) <==> SpecAsksFor(spec, tag)
  {
    var r := Repository(spec);
    if spec.digest != "" {
      assert SpecImage(spec)[|r|] == '@';
      assert (r + ":")[|r|] == ':' && ImageOf(spec, tag)[|r|] == ':';
    } else {
      SameImageSameTag(spec, if spec.tag == "" then "latest" else spec.tag, tag);
    }
  }

  /** A pass confirms a tag that runs exactly when it ran already when the pass began. */
  lemma ConfirmationKeepsImage(w: World, c: Call, t: string)
    requires Coherent(w.status)
    requires Observe(w.status, InstancePass(w, c).status, w.clock) == [RolloutConfirmed(t)]
    ensures Runs(InstancePass(w, c), t) <==> Runs(w, t)
    ensures w.status.targetTag == t
  {
    RecordedEventIsInPlace(w, c);
    assert AutoUpdate.Reconcile(Pass(w, w.status), c).0.world.spec == w.spec;
  }

  /** The instance controller writes the spec's image before it comes to auto-update, so the
      tag it confirms then is the one that runs exactly when the spec asks for that tag. */
  lemma ConfirmedTagRunsIff(w: World, sidecars: seq<string>, c: Call, t: string)
    requires Coherent(w.status)
    requires Observe(w.status, InstancePass(WithSpecImage(w, sidecars), c).status, w.clock) == [RolloutConfirmed(t)]
    ensures Runs(InstancePass(WithSpecImage(w, sidecars), c), t) <==> SpecAsksFor(w.spec, t)
  {
    ConfirmationKeepsImage(WithSpecImage(w, sidecars), c, t);
    SpecImageNamesTag(w.spec, t);
  }

  /** Every pass comes right after the instance controller wrote the pod template. */
  ghost predicate Controlled(ms: seq<Move>) {
    forall n :: 0 <= n < |ms| && ms[n].Reconcile? ==> n > 0 && ms[n - 1].RewriteStatefulSet?
  }

  /** What move n of a run shows to an observer of the stored status. */
  function Shown(w: World, ms: seq<Move>, n: nat): seq<RolloutEvent>
    requires n < |ms|
  {
    Observe(After(w, ms[..n]).status, After(w, ms[..n + 1]).status, After(w, ms[..n]).clock)
  }

  lemma MoveOf(w: World, ms: seq<Move>, n: nat)
    requires n < |ms|
    ensures After(w, ms[..n + 1]) == Apply(After(w, ms[..n]), ms[n])
  {
    assert ms[..n + 1][..n] == ms[..n];
  }

  lemma NamesTagsUpTo(ms: seq<Move>, n: nat)
    requires NamesTags(ms) && n <= |ms|
    ensures NamesTags(ms[..n])
  {
    forall i | 0 <= i < n && ms[..n][i].Reconcile? ensures ms[..n][i].call.poll != Picked(Best("")) {
      assert ms[..n][i] == ms[i];
    }
  }

  /** A pass of a controlled run begins with the spec's image. */
  lemma ControlledPass(w: World, ms: seq<Move>, n: nat)
    requires w.status == EMPTY_STATUS && NamesTags(ms) && Controlled(ms) && n < |ms| && ms[n].Reconcile?
    ensures n > 0 && ms[n - 1].RewriteStatefulSet? && ms[n].call.poll != Picked(Best(""))
    ensures Coherent(After(w, ms[..n - 1]).status)
    ensures After(w, ms[..n]) == WithSpecImage(After(w, ms[..n - 1]), ms[n - 1].sidecars)
    ensures After(w, ms[..n + 1]) == InstancePass(After(w, ms[..n]), ms[n].call)
  {
    MoveOf(w, ms, n);
    MoveOf(w, ms, n - 1);
    NamesTagsUpTo(ms, n - 1);
    StaysCoherent(w, ms[..n - 1]);
  }

  lemma ShownByPass(w: World, ms: seq<Move>, n: nat)
    requires n < |ms| && Shown(w, ms, n) != []
    ensures ms[n].Reconcile?
  {
    MoveOf(w, ms, n);
  }

  /** In every controlled run, whatever the pods, the events, the users and the API server do:
      the tag that a move confirms is the one that runs exactly when the spec asks for it. */
  lemma ConfirmedTagRuns(w: World, ms: seq<Move>, n: nat, t: string)
    requires w.status == EMPTY_STATUS && NamesTags(ms) && Controlled(ms) && n < |ms|
    requires Shown(w, ms, n) == [RolloutConfirmed(t)]
    ensures Runs(After(w, ms[..n + 1]), t) <==> SpecAsksFor(After(w, ms[..n]).spec, t)
  {
    ShownByPass(w, ms, n);
    ControlledPass(w, ms, n);
    ConfirmedTagRunsIff(After(w, ms[..n - 1]), ms[n - 1].sidecars, ms[n].call, t);
  }

  // ---------- the image after any pass ----------

  /** The pass brings in the wanted image, whether or not it comes to record the start. */
  predicate PatchesForward(w: World, c: Call) {
    w.status.targetTag == "" && Wanted(w, c).Some? && GateOpen(w, c) && CanPatchForward(w, c, Wanted(w, c).value)
  }

  /** The pass puts an earlier image back, whether or not it comes to record the rollback. */
  predicate PatchesBack(w: World, c: Call) {
    && w.status.targetTag != "" && w.spec.enabled && c.hasRegistry
    && w.sts.Some? && w.sts.value.images != [] && !Ready(w.sts.value)
    && MustRollBack(w, w.status) && CanPatchBack(c)
  }

  function Patched(w: World, tag: string): Option<StatefulSet>
    requires w.sts.Some? && w.sts.value.images != []
  {
    Some(w.sts.value.(images := w.sts.value.images[0 := ImageOf(w.spec, tag)]))
  }

  function SetAfter(w: World, c: Call): Option<StatefulSet> {
    if PatchesForward(w, c) then Patched(w, Wanted(w, c).value)
    else if PatchesBack(w, c) then Patched(w, RollbackTag(w, w.status))
    else w.sts
  }

  lemma RollForwardSets(p: Pass, c: Call, tag: string)
    ensures RollForward(p, c, tag).0.world.sts ==
      if c.api.getSts && p.world.sts.Some? && p.world.sts.value.images != [] &&
         (p.world.sts.value.images[0] != ImageOf(p.world.spec, tag) ==> c.api.patchSts)
      then Patched(p.world, tag) else p.world.sts
  {
  }

  lemma StartSets(p: Pass, c: Call, tag: string)
    ensures StartRollout(p, c, tag).0.world.sts ==
      if GateOpen(p.world, c) && CanPatchForward(p.world, c, tag) then Patched(p.world, tag) else p.world.sts
  {
    if NeedsBackup(p.world.spec, c) {
      GateOpens(p, c);
    }
    RollForwardSets(p, c, tag);
  }

  lemma DriveSets(w: World, c: Call)
    requires w.status.targetTag != "" && w.spec.enabled && c.hasRegistry
    ensures DriveRollout(Pass(w, w.status), c).0.world.sts ==
      if PatchesBack(w, c) then Patched(w, RollbackTag(w, w.status)) else w.sts
  {
    var counted := Pass(w, w.status.(probeFailures := CountedFailures(w, w.status)));
    assert RollBack(counted, c).0.world.sts ==
      if c.api.getStsAgain && w.sts.Some? && w.sts.value.images != [] && c.api.patchSts
      then Patched(w, RollbackTag(w, w.status)) else w.sts;
  }

  /** What any pass makes of the StatefulSet, whatever fails in it and whatever it records. */
  lemma PassSets(w: World, c: Call)
    ensures InstancePass(w, c).sts == SetAfter(w, c) && InstancePass(w, c).spec == w.spec
  {
    assert AutoUpdate.Reconcile(Pass(w, w.status), c).0.world.spec == w.spec;
    if w.spec.enabled && c.hasRegistry {
      if w.status.targetTag != "" {
        DriveSets(w, c);
      } else if !TooSoon(Pass(w, w.status)) && c.poll.Picked? && c.poll.pick.Best? {
        StartSets(Pass(w, w.status.(lastCheckTime := Some(w.clock))), c, c.poll.pick.tag);
      }
    }
  }

  /** Which tag runs after a pass that began with the spec's image: the wanted one if the pass
      brought it in, the fallback if it put that back, and else the one the spec asks for. */
  predicate RunsNext(v: World, c: Call, t: string) {
    if PatchesForward(v, c) then t == Wanted(v, c).value
    else if PatchesBack(v, c) then t == RollbackTag(v, v.status)
    else SpecAsksFor(v.spec, t)
  }

  lemma TagRunsIff(w: World, sidecars: seq<string>, c: Call, t: string)
    requires t != ""
    ensures var v := WithSpecImage(w, sidecars);
            Runs(InstancePass(v, c), t) <==> RunsNext(v, c, t)
  {
    var v := WithSpecImage(w, sidecars);
    PassSets(v, c);
    SpecImageNamesTag(w.spec, t);
    if PatchesForward(v, c) {
      SameImageSameTag(w.spec, Wanted(v, c).value, t);
    } else if PatchesBack(v, c) {
      SameImageSameTag(w.spec, RollbackTag(v, v.status), t);
    }
  }

  // ---------- the current tag and the image ----------

  /** The current tag that a pass leaves. */
  function NextCurrentTag(w: World, c: Call): string {
    if w.status.targetTag != "" && w.spec.enabled && c.hasRegistry && w.sts.Some? && Ready(w.sts.value) && CanConfirm(c)
    then w.status.targetTag
    else if PatchesBack(w, c) && Records(c) then RollbackTag(w, w.status)
    else w.status.currentTag
  }

  lemma CurrentTagAfter(w: World, c: Call)
    requires Coherent(w.status) && c.poll != Picked(Best(""))
    ensures InstancePass(w, c).status.currentTag == NextCurrentTag(w, c)
  {
    PassFollows(w, c);
    ObserveFollows(w, c, InstancePass(w, c).status);
    if w.status.targetTag != "" {
      PassEnds(w, c);
    }
  }

  /** When the current tag that a pass leaves is the one that runs: the pass brings no other
      image in, and it either puts that tag's image back or leaves the spec's image, which is
      that of the tag. */
  predicate CurrentTagIsRight(v: World, c: Call) {
    var t := NextCurrentTag(v, c);
    !PatchesForward(v, c) && if PatchesBack(v, c) then t == RollbackTag(v, v.status) else SpecAsksFor(v.spec, t)
  }

  /** "The current tag is the one that runs" after a pass that began with the spec's image, for
      every status, every answer and every set of failing operations. */
  lemma CurrentTagRunsIff(w: World, sidecars: seq<string>, c: Call)
    requires Coherent(w.status) && c.poll != Picked(Best(""))
    ensures var v := WithSpecImage(w, sidecars);
      var t := InstancePass(v, c).status.currentTag;
      t != "" ==> (Runs(InstancePass(v, c), t) <==> CurrentTagIsRight(v, c))
  {
    var v := WithSpecImage(w, sidecars);
    CurrentTagAfter(v, c);
    if NextCurrentTag(v, c) != "" {
      TagRunsIff(w, sidecars, c, NextCurrentTag(v, c));
    }
  }

  /** The same in every controlled run, after each of its passes. */
  lemma CurrentTagRuns(w: World, ms: seq<Move>, n: nat)
    requires w.status == EMPTY_STATUS && NamesTags(ms) && Controlled(ms) && n < |ms| && ms[n].Reconcile?
    ensures var after := After(w, ms[..n + 1]);
      after.status.currentTag != "" ==>
        (Runs(after, after.status.currentTag) <==> CurrentTagIsRight(After(w, ms[..n]), ms[n].call))
  {
    ControlledPass(w, ms, n);
    CurrentTagRunsIff(After(w, ms[..n - 1]), ms[n - 1].sidecars, ms[n].call);
  }

  // ---------- where a rollback leads ----------

  /** A rollback restores the image the spec asks for exactly when there is no digest and the
      last confirmed tag, if any, is the one the spec asks for. With nothing confirmed and no
      tag in the spec it leads to an image without a tag. */
  lemma RollbackRestoresSpecImage(w: World)
    ensures ImageOf(w.spec, RollbackTag(w, w.status)) == SpecImage(w.spec) <==>
      if w.status.lastSuccessTag != "" then SpecAsksFor(w.spec, w.status.lastSuccessTag)
      else w.spec.digest == "" && w.spec.tag != ""
  {
    var t := RollbackTag(w, w.status);
    if t != "" {
      SpecImageNamesTag(w.spec, t);
    } else if w.spec.digest != "" {
      var r := Repository(w.spec);
      assert SpecImage(w.spec)[|r|] == '@';
      assert (r + ":")[|r|] == ':' && ImageOf(w.spec, t)[|r|] == ':';
    } else {
      SameImageSameTag(w.spec, "latest", "");
    }
  }
}
