/** The auto-update rollout machine (internal/controller/autoupdate.go) and its pre-update
    backup gate (RunOneShot in internal/controller/backup.go): the state it works on and
    what one call of each phase leaves behind. */
module AutoUpdate {
  import opened Wrappers
  import opened Clock
  import opened Jobs
  import opened Oci

  const ROLLOUT_WINDOW: nat := 5 * MINUTE
  const DEFAULT_REPOSITORY := "ghcr.io/paperclipinc/hermes-agent"

  // ---------- state ----------

  /** spec.autoUpdate.pollInterval after time.ParseDuration. */
  datatype Interval = Unset | Malformed | Duration(ns: int)

  datatype Spec = Spec(
    enabled: bool,
    repository: string,
    tag: string,
    digest: string,
    pollInterval: Interval,
    sourceRegistry: string,
    channel: string,
    backupBeforeUpdate: Option<bool>,
    s3Prefix: Option<string>,
    rollbackEnabled: Option<bool>,
    probeFailureThreshold: int)

  /** The reason of the AutoUpdated condition; its status is True for UpToDate and Confirmed. */
  datatype Reason = NoMatchingTag | SuppressedKnownFailure | UpToDate | RolloutInFlight | ReasonConfirmed | ReasonRolledBack

  datatype Status = Status(
    lastCheckTime: Option<int>,
    currentTag: string,
    targetTag: string,
    lastSuccessTag: string,
    lastFailedTag: string,
    preUpdateSnapshot: string,
    probeFailures: int,
    rolloutDeadline: Option<int>,
    autoUpdated: Option<Reason>,
    rolledBackFrom: Option<string>)

  const EMPTY_STATUS := Status(None, "", "", "", "", "", 0, None, None, None)

  /** The images of the pod template's containers, and the rollout counters. */
  datatype StatefulSet = StatefulSet(images: seq<string>, readyReplicas: int, updatedReplicas: int, currentRevision: string)

  datatype Job = Job(snapshotKey: string, conditions: seq<JobCondition>)

  datatype Event = Event(kind: string, name: string, reason: string, lastSeen: int)

  /** What the API server holds, and the clock. */
  datatype World = World(
    clock: int,
    id: Identity,
    spec: Spec,
    status: Status,
    annotation: string,
    sts: Option<StatefulSet>,
    job: Option<Job>,
    events: seq<Event>)

  /** Which API operations of a call succeed; a crash makes all later ones fail. */
  datatype Api = Api(
    getJob: bool, writeSnapshot: bool, createJob: bool,
    getSts: bool, patchSts: bool, patchAnnotation: bool,
    listEvents: bool, getStsAgain: bool, writeStatus: bool, clearAnnotation: bool,
    readForStatus: bool, finalStatus: bool)

  datatype Poll = ListFailed | Picked(pick: Pick)

  /** Everything a call gets from outside: wiring of the optional parts, failures, the
      registry's answer and the clock formatted for a snapshot key. */
  datatype Call = Call(hasRegistry: bool, hasBackup: bool, api: Api, poll: Poll, stamp: string)

  /** The stored world together with the status copy the running call works on. */
  datatype Pass = Pass(world: World, mem: Status)

  datatype Result = Requeue(after: int) | Done | Error

  function Stored(s: Status): Status {
    s.(lastCheckTime := TruncatedTime(s.lastCheckTime), rolloutDeadline := TruncatedTime(s.rolloutDeadline))
  }

  // ---------- small decisions ----------

  const MIN_INTERVAL: nat := 15 * MINUTE
  const MAX_INTERVAL: nat := 168 * 60 * MINUTE

  /** Whatever is configured, polls are at least a quarter of an hour and at most a week apart. */
  function ParsePollInterval(i: Interval): (d: int)
    ensures MIN_INTERVAL <= d <= MAX_INTERVAL
  {
    match i
    case Unset => 60 * MINUTE
    case Malformed => 60 * MINUTE
    case Duration(d) => if d < MIN_INTERVAL then MIN_INTERVAL else if d > MAX_INTERVAL then MAX_INTERVAL else d
  }

  function CurrentRunningTag(w: World, s: Status): string {
    if s.currentTag != "" then s.currentTag else w.spec.tag
  }

  function Repository(spec: Spec): string {
    if spec.repository == "" then DEFAULT_REPOSITORY else spec.repository
  }

  function ImageOf(spec: Spec, tag: string): string {
    Repository(spec) + ":" + tag
  }

  /** The image the StatefulSet builder gives the first container (imageRef in
      internal/resources/statefulset.go). */
  function SpecImage(spec: Spec): string {
    if spec.digest != "" then Repository(spec) + "@" + spec.digest
    else ImageOf(spec, if spec.tag == "" then "latest" else spec.tag)
  }

  /** reconcileStatefulSet: every instance pass writes the pod template from the spec before
      it comes to auto-update. */
  function WithSpecImage(w: World, sidecars: seq<string>): World {
    var images := [SpecImage(w.spec)] + sidecars;
    w.(sts := Some(
      match w.sts
      case None => StatefulSet(images, 0, 0, "")
      case Some(sts) => sts.(images := images)))
  }

  predicate NeedsBackup(spec: Spec, c: Call) {
    spec.backupBeforeUpdate.GetOr(true) && spec.s3Prefix.Some? && c.hasBackup
  }

  predicate Ready(sts: StatefulSet) {
    sts.readyReplicas == 1 && sts.updatedReplicas == 1 && sts.currentRevision != ""
  }

  function Threshold(spec: Spec): int {
    if spec.probeFailureThreshold > 0 then spec.probeFailureThreshold else 3
  }

  /** An Unhealthy or FailedMount event of the instance's pod, not older than `since`. */
  predicate IsProbeFailure(e: Event, pod: string, since: Option<int>) {
    && e.name == pod && e.kind == "Pod"
    && (e.reason == "Unhealthy" || e.reason == "FailedMount")
    && (since.Some? ==> e.lastSeen >= since.value)
  }

  function ProbeFailures(events: seq<Event>, pod: string, since: Option<int>): nat {
    if events == [] then 0
    else ProbeFailures(events[..|events| - 1], pod, since) + (if IsProbeFailure(events[|events| - 1], pod, since) then 1 else 0)
  }

  function WindowStart(s: Status): Option<int> {
    match s.rolloutDeadline
    case None => None
    case Some(d) => Some(d - ROLLOUT_WINDOW)
  }

  function PodName(id: Identity): string {
    id.name + "-0"
  }

  function CountedFailures(w: World, s: Status): nat {
    ProbeFailures(w.events, PodName(w.id), WindowStart(s))
  }

  predicate PastDeadline(w: World, s: Status) {
    s.rolloutDeadline.Some? && w.clock > s.rolloutDeadline.value
  }

  /** Rollback is enabled and either cause for it is present. */
  predicate MustRollBack(w: World, s: Status) {
    w.spec.rollbackEnabled.GetOr(true) && (CountedFailures(w, s) >= Threshold(w.spec) || PastDeadline(w, s))
  }

  /** The tag a rollback returns to. */
  function RollbackTag(w: World, s: Status): string {
    if s.lastSuccessTag != "" then s.lastSuccessTag else w.spec.tag
  }

  // ---------- what each phase leaves behind ----------

  function Write(p: Pass): Pass {
    p.(world := p.world.(status := Stored(p.mem)))
  }

  /** The status write that ends a phase. */
  function Saved(p: Pass, succeeds: bool, r: Result): (Pass, Result) {
    if succeeds then (Write(p), r) else (p, Error)
  }

  datatype Gate = GateError | Waiting | Open

  function OneShotKey(p: Pass, c: Call): string {
    if p.mem.preUpdateSnapshot != "" then p.mem.preUpdateSnapshot
    else SnapshotKey(p.world.spec.s3Prefix.GetOr(""), p.world.id, c.stamp)
  }

  function OneShot(p: Pass, c: Call): (Pass, Gate) {
    if !c.api.getJob then (p, GateError)
    else match p.world.job
    case None =>
      var first := p.mem.preUpdateSnapshot == "";
      var named := p.(mem := p.mem.(preUpdateSnapshot := OneShotKey(p, c)));
      if first && !c.api.writeSnapshot then (named, GateError)
      else
        var saved := if first then Write(named) else named;
        if !c.api.createJob then (saved, GateError)
        else (saved.(world := saved.world.(job := Some(Job(OneShotKey(p, c), [])))), Waiting)
    case Some(job) =>
      match Verdict(job.conditions)
      case None => (p, Waiting)
      case Some(k) => (p, if k == Failed then GateError else Open)
  }

  function Started(p: Pass, tag: string): Status {
    p.mem.(
      targetTag := tag,
      rolloutDeadline := Some(p.world.clock + ROLLOUT_WINDOW),
      probeFailures := 0,
      autoUpdated := Some(RolloutInFlight))
  }

  /** The image patch, the annotation patch and the status write, in that order. */
  function RollForward(p: Pass, c: Call, tag: string): (Pass, Result) {
    if !c.api.getSts then (p, Error)
    else if p.world.sts.None? then (p, Requeue(10 * SECOND))
    else
      var sts := p.world.sts.value;
      var image := ImageOf(p.world.spec, tag);
      if sts.images == [] || (sts.images[0] != image && !c.api.patchSts) then (p, Error)
      else
        var patched := p.(world := p.world.(sts := Some(sts.(images := sts.images[0 := image]))));
        if !c.api.patchAnnotation then (patched, Error)
        else Saved(patched.(world := patched.world.(annotation := tag), mem := Started(p, tag)), c.api.writeStatus, Requeue(15 * SECOND))
  }

  function StartRollout(p: Pass, c: Call, tag: string): (Pass, Result) {
    if !NeedsBackup(p.world.spec, c) then RollForward(p, c, tag)
    else
      var (gated, gate) := OneShot(p, c);
      match gate
      case GateError => (gated, Requeue(MINUTE))
      case Waiting => (gated, Requeue(10 * SECOND))
      case Open => RollForward(gated, c, tag)
  }

  /** The status write and the clean-up of the annotation that end a rollout. */
  function Settled(p: Pass, c: Call): (Pass, Result) {
    if !c.api.writeStatus then (p, Error)
    else if p.world.annotation == "" then (Write(p), Done)
    else if !c.api.clearAnnotation then (Write(p), Error)
    else (Write(p.(world := p.world.(annotation := ""))), Done)
  }

  function Confirmed(s: Status): Status {
    s.(
      lastSuccessTag := s.targetTag,
      currentTag := s.targetTag,
      targetTag := "",
      rolloutDeadline := None,
      probeFailures := 0,
      preUpdateSnapshot := "",
      autoUpdated := Some(ReasonConfirmed),
      rolledBackFrom := None)
  }

  function RolledBack(s: Status, previous: string): Status {
    s.(
      lastFailedTag := s.targetTag,
      targetTag := "",
      rolloutDeadline := None,
      currentTag := previous,
      rolledBackFrom := Some(s.targetTag),
      autoUpdated := Some(ReasonRolledBack))
  }

  function RollBack(p: Pass, c: Call): (Pass, Result) {
    if !c.api.getStsAgain || p.world.sts.None? || p.world.sts.value.images == [] || !c.api.patchSts then (p, Error)
    else
      var previous := RollbackTag(p.world, p.mem);
      var sts := p.world.sts.value;
      var image := ImageOf(p.world.spec, previous);
      Settled(p.(world := p.world.(sts := Some(sts.(images := sts.images[0 := image]))), mem := RolledBack(p.mem, previous)), c)
  }

  /** A pod that is not ready: count its failures, then roll back or keep waiting. */
  function DriveUnready(p: Pass, c: Call): (Pass, Result) {
    if !c.api.listEvents then (p, Error)
    else
      var counted := p.(mem := p.mem.(probeFailures := CountedFailures(p.world, p.mem)));
      if MustRollBack(p.world, p.mem) then RollBack(counted, c)
      else Saved(counted, c.api.writeStatus, Requeue(15 * SECOND))
  }

  function DriveRollout(p: Pass, c: Call): (Pass, Result) {
    if !c.api.getSts || p.world.sts.None? then (p, Error)
    else if Ready(p.world.sts.value) then Settled(p.(mem := Confirmed(p.mem)), c)
    else DriveUnready(p, c)
  }

  /** The last check was less than one poll interval ago. */
  predicate TooSoon(p: Pass) {
    p.mem.lastCheckTime.Some? && p.world.clock - p.mem.lastCheckTime.value < ParsePollInterval(p.world.spec.pollInterval)
  }

  function ActOnPoll(p: Pass, c: Call): (Pass, Result) {
    var again := Requeue(ParsePollInterval(p.world.spec.pollInterval));
    var checked := p.(mem := p.mem.(lastCheckTime := Some(p.world.clock)));
    match c.poll
    case ListFailed => Saved(checked, c.api.writeStatus, again)
    case Picked(BadChannel) => (checked, Error)
    case Picked(NoMatch) => Saved(checked.(mem := checked.mem.(autoUpdated := Some(NoMatchingTag))), c.api.writeStatus, again)
    case Picked(Best(tag)) =>
      if tag == p.mem.lastFailedTag then
        Saved(checked.(mem := checked.mem.(autoUpdated := Some(SuppressedKnownFailure))), c.api.writeStatus, again)
      else if tag == CurrentRunningTag(p.world, p.mem) then
        Saved(checked.(mem := checked.mem.(autoUpdated := Some(UpToDate))), c.api.writeStatus, again)
      else StartRollout(checked, c, tag)
  }

  /** The registry is asked only when nothing is in flight and the interval has passed. */
  predicate Polls(p: Pass, c: Call) {
    p.world.spec.enabled && c.hasRegistry && p.mem.targetTag == "" && !TooSoon(p)
  }

  function Reconcile(p: Pass, c: Call): (Pass, Result) {
    if !p.world.spec.enabled || !c.hasRegistry then (p, Done)
    else if p.mem.targetTag != "" then DriveRollout(p, c)
    else if TooSoon(p) then (p, Requeue(ParsePollInterval(p.world.spec.pollInterval)))
    else ActOnPoll(p, c)
  }

  /** One pass of the instance controller as far as auto-update goes: read the instance,
      run the sub-controller, log its error, and write the status copy at the end. */
  function InstancePass(w: World, c: Call): World {
    var (p, _) := Reconcile(Pass(w, w.status), c);
    if c.api.readForStatus && p.world.sts.Some? && c.api.finalStatus then Write(p).world else p.world
  }
}
