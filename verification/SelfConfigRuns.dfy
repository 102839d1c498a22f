/** Runs of the self-configuration reconciler, and what its writes and reports say. */
module SelfConfigRuns {
  import opened Wrappers
  import opened WorkspacePath
  import opened SelfConfigPolicy
  import opened SelfConfig

  datatype Move = Reconcile(lookup: Lookup, api: Api) | EditSpec(request: Request)

  /** An edit of the spec gives the object its next generation. */
  ghost function Apply(s: State, lib: Library, m: Move): State {
    match m
    case Reconcile(lookup, api) => Effect(s, lookup, lib, api)
    case EditSpec(r) => s.(request := r.(generation := s.request.generation + 1))
  }

  ghost function After(s: State, lib: Library, ms: seq<Move>): State {
    if ms == [] then s else Apply(After(s, lib, ms[..|ms| - 1]), lib, ms[|ms| - 1])
  }

  // ---------- the gates, over the fields ----------

  predicate AsksForAnything(r: Request) {
    r.skills != [] || r.patch != "" || r.envVars != [] || r.files != [] || r.snapshotJob.Some?
  }

  predicate AllAllowed(r: Request, allowed: seq<Action>) {
    && (r.skills != [] ==> Skills in allowed)
    && (r.patch != "" ==> Config in allowed)
    && (r.envVars != [] ==> EnvVars in allowed)
    && (r.files != [] ==> WorkspaceFiles in allowed)
    && (r.snapshotJob.Some? ==> Profiles in allowed)
  }

  /** The patch is a document and every protected key is a pattern. */
  predicate PatchIsClear(r: Request, keys: seq<string>, lib: Library) {
    lib.decode(r.patch).Some? && forall i :: 0 <= i < |keys| ==> lib.compile(keys[i]).Some?
  }

  /** Some pattern matches the dotted path of some node of the patch. */
  ghost predicate PatchTouches(r: Request, keys: seq<string>, lib: Library)
    requires PatchIsClear(r, keys, lib)
  {
    exists path, i :: 0 <= i < |keys| && Reaches(lib.decode(r.patch).value, path) && PathText(path) != "" &&
      lib.compile(keys[i]).value(PathText(path))
  }

  /** A request is let through exactly when its parent exists, has self-configuration on, allows
      every category that is asked for, at least one is, and no protected key is touched. */
  lemma AdmissionVerdict(r: Request, lookup: Lookup, lib: Library)
    ensures Refusal(r, lookup, lib) == NoReason <==>
      && lookup.Found? && lookup.parent.enabled == Some(true)
      && AsksForAnything(r) && AllAllowed(r, lookup.parent.allowed)
      && (r.patch != "" && lookup.parent.protectedKeys != [] ==>
           PatchIsClear(r, lookup.parent.protectedKeys, lib) && !PatchTouches(r, lookup.parent.protectedKeys, lib))
  {
    RefusalReasons(r, lookup, lib);
  }

  lemma RequestsOverFields(r: Request, allowed: seq<Action>)
    ensures (exists a: Action :: Requests(r, a)) <==> AsksForAnything(r)
    ensures (exists a: Action :: Requests(r, a) && a !in allowed) <==> !AllAllowed(r, allowed)
  {
    assert Requests(r, Skills) <==> r.skills != [];
    assert Requests(r, Config) <==> r.patch != "";
    assert Requests(r, EnvVars) <==> r.envVars != [];
    assert Requests(r, WorkspaceFiles) <==> r.files != [];
    assert Requests(r, Profiles) <==> r.snapshotJob.Some?;
    forall a: Action | AllAllowed(r, allowed) && Requests(r, a) ensures a in allowed {
      match a
      case Skills =>
      case Config =>
      case EnvVars =>
      case WorkspaceFiles =>
      case Profiles =>
    }
    if !AllAllowed(r, allowed) {
      var a := if r.skills != [] && Skills !in allowed then Skills
        else if r.patch != "" && Config !in allowed then Config
        else if r.envVars != [] && EnvVars !in allowed then EnvVars
        else if r.files != [] && WorkspaceFiles !in allowed then WorkspaceFiles
        else Profiles;
      assert Requests(r, a) && a !in allowed;
    }
  }

  lemma TouchesOverFields(r: Request, keys: seq<string>, lib: Library)
    requires r.patch != "" && PatchIsClear(r, keys, lib)
    ensures TouchesProtected(lib, Decoded(lib, r.patch), keys) <==> PatchTouches(r, keys, lib)
  {
    var root := lib.decode(r.patch).value;
    if path :| ProtectedNode(root, lib.compile, keys, path) {
      var i :| 0 <= i < |keys| && lib.compile(keys[i]).Some? && lib.compile(keys[i]).value(PathText(path));
      assert Reaches(root, path) && PathText(path) != "";
    }
    if path, i :| 0 <= i < |keys| && Reaches(root, path) && PathText(path) != "" && lib.compile(keys[i]).value(PathText(path)) {
      assert ProtectedNode(root, lib.compile, keys, path);
    }
  }

  /** Which gate refuses: the first that has cause, in this order. */
  lemma RefusalReasons(r: Request, lookup: Lookup, lib: Library)
    ensures Refusal(r, lookup, lib) ==
      if !lookup.Found? then ParentMissing
      else if lookup.parent.enabled != Some(true) then Disabled
      else if !AsksForAnything(r) then NoMutations
      else if !AllAllowed(r, lookup.parent.allowed) then ActionNotAllowed
      else if r.patch == "" || lookup.parent.protectedKeys == [] then NoReason
      else if !PatchIsClear(r, lookup.parent.protectedKeys, lib) then PatchInvalid
      else if PatchTouches(r, lookup.parent.protectedKeys, lib) then PathProtected
      else NoReason
  {
    if lookup.Found? {
      RequestsOverFields(r, lookup.parent.allowed);
      if r.patch != "" && PatchIsClear(r, lookup.parent.protectedKeys, lib) {
        TouchesOverFields(r, lookup.parent.protectedKeys, lib);
      }
    }
  }

  /** What an admitted request writes: each category that is asked for in one write of exactly
      what was asked, patch and files in a common one, and nothing else. */
  lemma PlanVerdict(r: Request, w: Write)
    ensures w in Plan(r) <==>
      match w
      case WroteSkills(sources) => r.skills != [] && sources == r.skills
      case WroteEnvVars(vars) => r.envVars != [] && vars == r.envVars
      case WroteWorkspace(data) => (r.patch != "" || r.files != []) && data == WorkspacePatch(r)
      case CreatedJob(name) => r.snapshotJob == Some(name)
    ensures |Plan(r)| ==
      (if r.skills != [] then 1 else 0) + (if r.envVars != [] then 1 else 0) +
      (if r.patch != "" || r.files != [] then 1 else 0) + (if r.snapshotJob.Some? then 1 else 0)
  {
  }

  /** A completed reconcile of an admitted request applies it exactly when every write it needs is
      accepted; a snapshot needs Honcho to be on. */
  lemma AppliedVerdict(s: State, lookup: Lookup, lib: Library, api: Api)
    requires !Decided(s) && lookup.Found? && api.status && Refusal(s.request, lookup, lib) == NoReason
    ensures Effect(s, lookup, lib, api).status.phase == Applied <==>
      && (s.request.skills != [] ==> api.skills)
      && (s.request.envVars != [] ==> api.envVars)
      && (s.request.patch != "" || s.request.files != [] ==> api.workspace)
      && (s.request.snapshotJob.Some? ==> lookup.parent.honchoEnabled == Some(true) && api.job)
  {
    CompletedReconcileDecides(s, lookup, lib, api);
    PlanAccepted(s.request, lookup.parent, api);
  }

  lemma PlanAccepted(r: Request, p: Parent, api: Api)
    ensures Done(Plan(r), p, api) == Plan(r) <==>
      && (r.skills != [] ==> api.skills)
      && (r.envVars != [] ==> api.envVars)
      && (r.patch != "" || r.files != [] ==> api.workspace)
      && (r.snapshotJob.Some? ==> p.honchoEnabled == Some(true) && api.job)
  {
    DoneConcatWhole(SkillsPlan(r), AfterSkills(r), p, api);
    DoneConcatWhole(EnvVarsPlan(r), WorkspacePlan(r) + JobPlan(r), p, api);
    DoneConcatWhole(WorkspacePlan(r), JobPlan(r), p, api);
    SingleWrite(WroteSkills(r.skills), p, api);
    SingleWrite(WroteEnvVars(r.envVars), p, api);
    SingleWrite(WroteWorkspace(WorkspacePatch(r)), p, api);
    if r.snapshotJob.Some? {
      SingleWrite(CreatedJob(r.snapshotJob.value), p, api);
    }
  }

  // ---------- one decision per generation ----------

  /** The first reconcile of a generation that can record its outcome decides it, and it
      decides for the request exactly when no gate refuses and every planned write is accepted. */
  lemma CompletedReconcileDecides(s: State, lookup: Lookup, lib: Library, api: Api)
    requires !Decided(s) && !lookup.GetError? && api.status
    ensures var s' := Effect(s, lookup, lib, api);
      && Decided(s')
      && (s'.status.phase == Applied <==>
          Refusal(s.request, lookup, lib) == NoReason && Done(Plan(s.request), lookup.parent, api) == Plan(s.request))
      && (s'.status.phase == Applied ==>
           s'.log == s.log + Plan(s.request) && s'.status.appliedFields == AppliedFields(s.request) && s'.status.reason == NoReason)
      && (s'.status.phase == Denied ==> s'.status.appliedFields == s.status.appliedFields && s'.status.reason != NoReason)
      && (s'.status.phase == Denied && Refusal(s.request, lookup, lib) == NoReason ==> s'.status.reason == ApplyFailed)
      && (Refusal(s.request, lookup, lib) != NoReason ==> s'.log == s.log && s'.status.reason == Refusal(s.request, lookup, lib))
  {
  }

  /** An outcome that cannot be stored leaves the status as it was, and the writes where they are;
      a parent that cannot be read stops everything. */
  lemma UnstoredOutcome(s: State, lookup: Lookup, lib: Library, api: Api)
    requires !Decided(s)
    ensures !api.status ==> Effect(s, lookup, lib, api).status == s.status
    ensures lookup.GetError? ==> Effect(s, lookup, lib, api) == s
  {
  }

  /** An edit opens a decided request again: the next generation has not been looked at. */
  lemma EditReopens(s: State, lib: Library, r: Request)
    requires s.status.observedGeneration <= s.request.generation
    ensures var s' := Apply(s, lib, EditSpec(r));
      !Decided(s') && s'.status == s.status && s'.log == s.log && s'.request == r.(generation := s.request.generation + 1)
  {
  }

  /** In every run the status is never ahead of the request, so every edit is looked at. */
  lemma {:induction false} StatusNeverAhead(s: State, lib: Library, ms: seq<Move>)
    requires s.status.observedGeneration <= s.request.generation
    ensures After(s, lib, ms).status.observedGeneration <= After(s, lib, ms).request.generation
  {
    if ms != [] {
      StatusNeverAhead(s, lib, ms[..|ms| - 1]);
    }
  }

  /** After the decision, reconciles of the same generation change neither status nor objects,
      whatever becomes of the parent and its policy. */
  lemma {:induction false} DecisionStands(s: State, lib: Library, ms: seq<Move>)
    requires Decided(s) && forall m :: m in ms ==> m.Reconcile?
    ensures After(s, lib, ms) == s
  {
    if ms != [] {
      assert ms[|ms| - 1] in ms;
      forall m | m in ms[..|ms| - 1] ensures m in ms {}
      DecisionStands(s, lib, ms[..|ms| - 1]);
    }
  }

  /** A reconcile of an admitted request that planned the write. */
  ghost predicate Justifies(s: State, lib: Library, ms: seq<Move>, n: nat, w: Write) {
    && n < |ms| && ms[n].Reconcile? && ms[n].lookup.Found?
    && var before := After(s, lib, ms[..n]);
       !Decided(before) && Refusal(before.request, ms[n].lookup, lib) == NoReason && w in Plan(before.request)
  }

  lemma NewWritesAreJustified(s: State, lib: Library, ms: seq<Move>, i: nat)
    requires ms != []
    requires var n := |ms| - 1; |After(s, lib, ms[..n]).log| <= i < |After(s, lib, ms).log|
    ensures Justifies(s, lib, ms, |ms| - 1, After(s, lib, ms).log[i])
  {
    var n := |ms| - 1;
    var before, m := After(s, lib, ms[..n]), ms[n];
    var plan := Plan(before.request);
    DoneIsPrefix(plan, m.lookup.parent, m.api);
    assert After(s, lib, ms).log[i] == Done(plan, m.lookup.parent, m.api)[i - |before.log|];
  }

  lemma JustifiesInLonger(s: State, lib: Library, ms: seq<Move>, k: nat, w: Write)
    requires ms != [] && Justifies(s, lib, ms[..|ms| - 1], k, w)
    ensures Justifies(s, lib, ms, k, w)
  {
    var prefix := ms[..|ms| - 1];
    assert prefix[..k] == ms[..k] && prefix[k] == ms[k];
  }

  lemma LogOnlyGrows(s: State, lib: Library, m: Move)
    ensures s.log <= Apply(s, lib, m).log
  {
  }

  /** In every run, every write goes back to a reconcile that all gates let through, with the
      parent as it was then, and that had not decided this generation before. */
  lemma {:induction false} WritesPassTheGates(s: State, lib: Library, ms: seq<Move>, i: nat)
    requires |s.log| <= i < |After(s, lib, ms).log|
    ensures exists n: nat :: Justifies(s, lib, ms, n, After(s, lib, ms).log[i])
  {
    if ms != [] {
      var n := |ms| - 1;
      var before := After(s, lib, ms[..n]);
      if i < |before.log| {
        WritesPassTheGates(s, lib, ms[..n], i);
        LogOnlyGrows(before, lib, ms[n]);
        var k: nat :| Justifies(s, lib, ms[..n], k, before.log[i]);
        JustifiesInLonger(s, lib, ms, k, before.log[i]);
      } else {
        NewWritesAreJustified(s, lib, ms, i);
      }
    }
  }

  // ---------- denials after partial writes ----------

  /** "A denied request wrote nothing" is false; a denial follows writes exactly when no gate
      refused, the first planned write was accepted and a later one was not. */
  lemma DeniedAfterWrites(s: State, lookup: Lookup, lib: Library, api: Api)
    requires !Decided(s) && !lookup.GetError? && api.status
    ensures var s' := Effect(s, lookup, lib, api);
      var plan := Plan(s.request);
      s'.status.phase == Denied && s'.log != s.log <==>
        Refusal(s.request, lookup, lib) == NoReason && plan != [] && Accepted(plan[0], lookup.parent, api) &&
        exists i :: 0 < i < |plan| && !Accepted(plan[i], lookup.parent, api)
  {
    if Refusal(s.request, lookup, lib) == NoReason {
      DoneIsWhole(Plan(s.request), lookup.parent, api);
      assert s.log + Done(Plan(s.request), lookup.parent, api) != s.log <==> Done(Plan(s.request), lookup.parent, api) != [];
    }
  }

  lemma {:induction false} DoneIsWhole(plan: seq<Write>, p: Parent, api: Api)
    ensures Done(plan, p, api) == plan <==> forall i :: 0 <= i < |plan| ==> Accepted(plan[i], p, api)
    ensures Done(plan, p, api) != [] <==> plan != [] && Accepted(plan[0], p, api)
  {
    if plan != [] {
      DoneIsWhole(plan[1..], p, api);
      assert plan == [plan[0]] + plan[1..];
      assert forall i :: 0 < i < |plan| ==> plan[i] == plan[1..][i - 1];
      if Done(plan, p, api) == plan {
        assert Done(plan, p, api)[1..] == Done(plan[1..], p, api);
        forall i | 0 <= i < |plan| ensures Accepted(plan[i], p, api) {
          assert i == 0 || plan[i] == plan[1..][i - 1];
        }
      }
      if forall i :: 0 <= i < |plan| ==> Accepted(plan[i], p, api) {
        forall i | 0 <= i < |plan[1..]| ensures Accepted(plan[1..][i], p, api) {
          assert plan[1..][i] == plan[i + 1];
        }
      }
    }
  }

  // ---------- the report ----------

  /** Where the entries of each category begin. */
  function EnvStart(r: Request): nat {
    |r.skills|
  }

  function PatchStart(r: Request): nat {
    EnvStart(r) + |r.envVars|
  }

  function FileStart(r: Request): nat {
    PatchStart(r) + (if r.patch != "" then 1 else 0)
  }

  function JobStart(r: Request): nat {
    FileStart(r) + |r.files|
  }

  /** One entry for each requested skill and variable, one for a patch, one for each file and
      one for a snapshot, in this order and without anything else. */
  ghost predicate Lists(fields: seq<string>, r: Request) {
    && |fields| == JobStart(r) + (if r.snapshotJob.Some? then 1 else 0)
    && (forall i :: 0 <= i < |r.skills| ==> fields[i] == SkillField(r.skills[i]))
    && (forall i :: 0 <= i < |r.envVars| ==> fields[EnvStart(r) + i] == EnvField(r.envVars[i]))
    && (r.patch != "" ==> fields[PatchStart(r)] == PATCH_FIELD)
    && (forall i :: 0 <= i < |r.files| ==> fields[FileStart(r) + i] == FileField(r.files[i]))
    && (r.snapshotJob.Some? ==> fields[JobStart(r)] == JobField(r.snapshotJob.value))
  }

  /** The same for the entries after those of the variables. */
  ghost predicate ListsLast(rest: seq<string>, r: Request) {
    var start := FileStart(r) - PatchStart(r);
    && |rest| == start + |r.files| + (if r.snapshotJob.Some? then 1 else 0)
    && (r.patch != "" ==> rest[0] == PATCH_FIELD)
    && (forall i :: 0 <= i < |r.files| ==> rest[start + i] == FileField(r.files[i]))
    && (r.snapshotJob.Some? ==> rest[start + |r.files|] == JobField(r.snapshotJob.value))
  }

  lemma LastEntries(r: Request)
    ensures ListsLast(WorkspaceFields(r) + JobFields(r), r)
  {
    var files := Each(r.files, FileField);
    assert WorkspaceFields(r) == (if r.patch != "" then [PATCH_FIELD] else []) + files;
  }

  lemma Indices(a: seq<string>, b: seq<string>, c: seq<string>, i: nat)
    ensures i < |a| ==> (a + (b + c))[i] == a[i]
    ensures i < |b| ==> (a + (b + c))[|a| + i] == b[i]
    ensures i < |c| ==> (a + (b + c))[|a| + |b| + i] == c[i]
  {
  }

  lemma ListsFromParts(r: Request, skills: seq<string>, vars: seq<string>, rest: seq<string>)
    requires |skills| == |r.skills| && forall i :: 0 <= i < |skills| ==> skills[i] == SkillField(r.skills[i])
    requires |vars| == |r.envVars| && forall i :: 0 <= i < |vars| ==> vars[i] == EnvField(r.envVars[i])
    requires ListsLast(rest, r)
    ensures Lists(skills + (vars + rest), r)
  {
    var start, fields := FileStart(r) - PatchStart(r), skills + (vars + rest);
    forall i | 0 <= i < |r.skills| ensures fields[i] == SkillField(r.skills[i]) {
      Indices(skills, vars, rest, i);
    }
    forall i | 0 <= i < |r.envVars| ensures fields[EnvStart(r) + i] == EnvField(r.envVars[i]) {
      Indices(skills, vars, rest, i);
    }
    forall i | 0 <= i < |r.files| ensures fields[FileStart(r) + i] == FileField(r.files[i]) {
      Indices(skills, vars, rest, start + i);
    }
    Indices(skills, vars, rest, 0);
    Indices(skills, vars, rest, start + |r.files|);
  }

  lemma ReportLists(r: Request)
    ensures Lists(AppliedFields(r), r)
  {
    LastEntries(r);
    ListsFromParts(r, Each(r.skills, SkillField), Each(r.envVars, EnvField), WorkspaceFields(r) + JobFields(r));
  }

  /** The report lists the request, and is empty exactly when the request is. */
  lemma ReportCountsRequest(r: Request)
    ensures Lists(AppliedFields(r), r)
    ensures AppliedFields(r) != [] <==> exists a: Action :: Requests(r, a)
  {
    ReportLists(r);
    assert Requests(r, Skills) <==> r.skills != [];
    assert Requests(r, EnvVars) <==> r.envVars != [];
    assert Requests(r, Config) <==> r.patch != "";
    assert Requests(r, WorkspaceFiles) <==> r.files != [];
    assert Requests(r, Profiles) <==> r.snapshotJob.Some?;
  }

  // ---------- the report names no category that was not requested ----------

  /** How the entries of a category begin. */
  function Opening(a: Action): string {
    match a
    case Skills => "spec.skills[source="
    case EnvVars => "spec.env[name="
    case WorkspaceFiles => "workspace-configmap.data[path="
    case Config => "workspace-configmap.data[key="
    case Profiles => "job[name="
  }

  predicate IsEntryOf(field: string, a: Action) {
    Opening(a) <= field
  }

  /** Two openings differ where both are still going on. */
  lemma OpeningsDiffer(a: Action, b: Action)
    requires a != b
    ensures exists n :: 0 <= n < |Opening(a)| && n < |Opening(b)| && Opening(a)[n] != Opening(b)[n]
  {
    var n := if a.Profiles? || b.Profiles? then 0
      else if (a.Skills? || a.EnvVars?) != (b.Skills? || b.EnvVars?) then 0
      else if a.Skills? || a.EnvVars? then 5
      else 25;
    assert Opening(Skills)[0] == 's' && Opening(Skills)[5] == 's';
    assert Opening(EnvVars)[0] == 's' && Opening(EnvVars)[5] == 'e';
    assert Opening(WorkspaceFiles)[0] == 'w' && Opening(WorkspaceFiles)[25] == 'p';
    assert Opening(Config)[0] == 'w' && Opening(Config)[25] == 'k';
    assert Opening(Profiles)[0] == 'j';
    assert Opening(a)[n] != Opening(b)[n];
  }

  lemma EntriesDiffer(field: string, other: string, a: Action, b: Action)
    requires IsEntryOf(field, a) && IsEntryOf(other, b) && a != b
    ensures field != other
  {
    OpeningsDiffer(a, b);
    var n :| 0 <= n < |Opening(a)| && n < |Opening(b)| && Opening(a)[n] != Opening(b)[n];
    assert Opening(a)[n] == field[n] && Opening(b)[n] == other[n];
  }

  lemma Begins(prefix: string, name: string)
    ensures prefix <= prefix + name + "]"
  {
    assert (prefix + name) + "]" == prefix + (name + "]");
  }

  lemma SkillEntry(source: string)
    ensures IsEntryOf(SkillField(source), Skills)
  {
    Begins(Opening(Skills), source);
  }

  lemma EnvEntry(v: EnvVar)
    ensures IsEntryOf(EnvField(v), EnvVars)
  {
    Begins(Opening(EnvVars), v.name);
  }

  lemma FileEntry(f: File)
    ensures IsEntryOf(FileField(f), WorkspaceFiles)
  {
    Begins(Opening(WorkspaceFiles), f.path);
  }

  lemma JobEntry(name: string)
    ensures IsEntryOf(JobField(name), Profiles)
  {
    Begins(Opening(Profiles), name);
  }

  /** Entries of one category tell their elements apart. */
  lemma EntriesNameTheirElement(x: string, y: string, v: string, w: string)
    ensures SkillField(x) == SkillField(y) <==> x == y
    ensures EnvField(EnvVar(x, v)) == EnvField(EnvVar(y, w)) <==> x == y
    ensures FileField(File(x, v)) == FileField(File(y, w)) <==> x == y
    ensures JobField(x) == JobField(y) <==> x == y
  {
    Between(Opening(Skills), x, y);
    Between(Opening(EnvVars), x, y);
    Between(Opening(WorkspaceFiles), x, y);
    Between(Opening(Profiles), x, y);
  }

  lemma Between(prefix: string, x: string, y: string)
    ensures prefix + x + "]" == prefix + y + "]" <==> x == y
  {
    assert (prefix + x + "]")[|prefix|..|prefix + x + "]"| - 1] == x;
    assert (prefix + y + "]")[|prefix|..|prefix + y + "]"| - 1] == y;
  }

  lemma PatchEntry()
    ensures IsEntryOf(PATCH_FIELD, Config)
  {
    assert PATCH_FIELD == Opening(Config) + "selfconfig.yaml]";
  }

  /** The category of the entry at each place. */
  function CategoryAt(r: Request, i: nat): Action {
    if i < EnvStart(r) then Skills
    else if i < PatchStart(r) then EnvVars
    else if i < FileStart(r) then Config
    else if i < JobStart(r) then WorkspaceFiles
    else Profiles
  }

  lemma FieldIsEntry(fields: seq<string>, r: Request, i: nat)
    requires Lists(fields, r) && i < |fields|
    ensures IsEntryOf(fields[i], CategoryAt(r, i)) && Requests(r, CategoryAt(r, i))
  {
    if i < EnvStart(r) {
      SkillEntry(r.skills[i]);
    } else if i < PatchStart(r) {
      var k := i - EnvStart(r);
      assert fields[EnvStart(r) + k] == EnvField(r.envVars[k]);
      EnvEntry(r.envVars[k]);
    } else if i < FileStart(r) {
      PatchEntry();
    } else if i < JobStart(r) {
      var k := i - FileStart(r);
      assert fields[FileStart(r) + k] == FileField(r.files[k]);
      FileEntry(r.files[k]);
    } else {
      JobEntry(r.snapshotJob.value);
    }
  }

  /** A category shows up in the report exactly when it was requested. */
  lemma ReportShowsCategory(r: Request, a: Action)
    ensures (exists field :: field in AppliedFields(r) && IsEntryOf(field, a)) <==> Requests(r, a)
  {
    ReportLists(r);
    ListShowsCategory(AppliedFields(r), r, a);
  }

  /** The first place of a requested category. */
  function PlaceOf(r: Request, a: Action): nat {
    match a
    case Skills => 0
    case EnvVars => EnvStart(r)
    case Config => PatchStart(r)
    case WorkspaceFiles => FileStart(r)
    case Profiles => JobStart(r)
  }

  lemma ListShowsCategory(fields: seq<string>, r: Request, a: Action)
    requires Lists(fields, r)
    ensures (exists field :: field in fields && IsEntryOf(field, a)) <==> Requests(r, a)
  {
    if Requests(r, a) {
      var i := PlaceOf(r, a);
      assert i < |fields| && CategoryAt(r, i) == a;
      FieldIsEntry(fields, r, i);
      assert fields[i] in fields;
    }
    if field :| field in fields && IsEntryOf(field, a) {
      var i: nat :| i < |fields| && fields[i] == field;
      FieldIsEntry(fields, r, i);
      if CategoryAt(r, i) != a {
        EntriesDiffer(field, fields[i], a, CategoryAt(r, i));
      }
    }
  }

  /** A request that no gate refuses plans at least one write. */
  lemma AdmittedRequestsPlanSomething(r: Request, lookup: Lookup, lib: Library)
    requires Refusal(r, lookup, lib) == NoReason
    ensures Plan(r) != []
  {
    var a: Action :| Requests(r, a);
  }

  // ---------- what the workspace patch holds ----------

  lemma {:induction false} FilePatchOfDistinctPaths(files: seq<File>, i: nat)
    requires Storable(files) && i < |files|
    ensures Encode(files[i].path) in FilePatch(files) <==> files[i].content != ""
    ensures files[i].content != "" ==> FilePatch(files)[Encode(files[i].path)] == files[i].content
  {
    var n := |files| - 1;
    var rest := files[..n];
    if i < n {
      FilePatchOfDistinctPaths(rest, i);
      if Encode(files[n].path) == Encode(files[i].path) {
        EncodeInjective(files[n].path, files[i].path);
      }
    } else {
      FilePatchNeeds(rest, Encode(files[n].path));
      forall j | 0 <= j < n ensures Encode(rest[j].path) != Encode(files[n].path) {
        if Encode(rest[j].path) == Encode(files[n].path) {
          EncodeInjective(rest[j].path, files[n].path);
        }
      }
    }
  }

  lemma {:induction false} FilePatchNeeds(files: seq<File>, key: string)
    ensures key in FilePatch(files) <==> exists i :: 0 <= i < |files| && Encode(files[i].path) == key && files[i].content != ""
  {
    if files != [] {
      var n := |files| - 1;
      FilePatchNeeds(files[..n], key);
      assert forall i :: 0 <= i < n ==> files[..n][i] == files[i];
    }
  }

  /** Every storable file is reported as applied, but it is in the patch exactly when it has
      literal content. */
  lemma FilesWithoutContentAreOnlyReported(r: Request, i: nat)
    requires Storable(r.files) && i < |r.files|
    ensures FileField(r.files[i]) in AppliedFields(r)
    ensures Encode(r.files[i].path) in FilePatch(r.files) <==> r.files[i].content != ""
    ensures r.files[i].content != "" ==> WorkspacePatch(r)[Encode(r.files[i].path)] == r.files[i].content
  {
    ReportLists(r);
    assert AppliedFields(r)[FileStart(r) + i] == FileField(r.files[i]);
    FilePatchOfDistinctPaths(r.files, i);
  }

  /** A plain name is claimed by at most the file of that name. */
  lemma PlainNameClaimed(files: seq<File>, name: string)
    requires Storable(files) && Unambiguous(name) && Encode(name) == name
    ensures name in FilePatch(files) <==> exists i :: 0 <= i < |files| && files[i].path == name && files[i].content != ""
    ensures forall i :: 0 <= i < |files| && files[i].path == name && files[i].content != "" ==>
      name in FilePatch(files) && FilePatch(files)[name] == files[i].content
  {
    FilePatchNeeds(files, name);
    forall i | 0 <= i < |files| ensures Encode(files[i].path) == name <==> files[i].path == name {
      if Encode(files[i].path) == name {
        EncodeInjective(files[i].path, name);
      }
    }
    forall i | 0 <= i < |files| && files[i].path == name && files[i].content != ""
      ensures name in FilePatch(files) && FilePatch(files)[name] == files[i].content
    {
      FilePatchOfDistinctPaths(files, i);
    }
  }

  lemma PlainNamesAreTheirKeys(name: string)
    requires '/' !in name && '_' !in name
    ensures Encode(name) == name && Unambiguous(name)
  {
    EncodeLengthens(name);
  }

  lemma SelfConfigKeyLetters()
    ensures '/' !in SELFCONFIG_KEY && '_' !in SELFCONFIG_KEY
  {
  }

  /** What is stored under a plain name survives the files laid over it exactly when none of
      that name brings other content. */
  lemma PlainKeySurvives(files: seq<File>, name: string, text: string)
    requires Storable(files) && '/' !in name && '_' !in name
    ensures (map[name := text] + FilePatch(files))[name] == text <==>
      forall i :: 0 <= i < |files| && files[i].path == name ==> files[i].content == "" || files[i].content == text
  {
    PlainNamesAreTheirKeys(name);
    PlainNameClaimed(files, name);
  }

  /** The stored merge patch survives beside storable files exactly when no file named
      selfconfig.yaml brings other content of its own. */
  lemma PatchSurvivesFiles(r: Request)
    requires r.patch != "" && Storable(r.files)
    ensures "selfconfig.yaml" in WorkspacePatch(r)
    ensures WorkspacePatch(r)["selfconfig.yaml"] == r.patch <==>
      forall i :: 0 <= i < |r.files| && r.files[i].path == "selfconfig.yaml" ==> r.files[i].content == "" || r.files[i].content == r.patch
  {
    SelfConfigKeyLetters();
    PlainKeySurvives(r.files, SELFCONFIG_KEY, r.patch);
  }
}
