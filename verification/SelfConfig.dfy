/** The self-configuration reconciler (internal/controller/hermesselfconfig_controller.go)
    and the patches it writes (internal/controller/selfconfig_apply.go). */
module SelfConfig {
  import opened Wrappers
  import opened WorkspacePath
  import opened SelfConfigPolicy

  const SELFCONFIG_KEY := "selfconfig.yaml"

  datatype EnvVar = EnvVar(name: string, value: string)

  /** `patch` is the raw merge patch, empty when the request has none; `snapshotJob` is the
      name of the Job for the requested profile snapshot. */
  datatype Request = Request(
    generation: int,
    skills: seq<string>,
    patch: string,
    envVars: seq<EnvVar>,
    files: seq<File>,
    snapshotJob: Option<string>)

  datatype Parent = Parent(enabled: Option<bool>, allowed: seq<Action>, protectedKeys: seq<string>, honchoEnabled: Option<bool>)

  datatype Lookup = NotFound | GetError | Found(parent: Parent)

  datatype Phase = Pending | Applied | Denied

  datatype Reason =
    NoReason | ParentMissing | Disabled | NoMutations | ActionNotAllowed | PatchInvalid | PathProtected | ApplyFailed

  datatype Status = Status(phase: Phase, observedGeneration: int, reason: Reason, appliedFields: seq<string>)

  datatype Write =
    | WroteSkills(sources: seq<string>)
    | WroteEnvVars(vars: seq<EnvVar>)
    | WroteWorkspace(data: map<string, string>)
    | CreatedJob(name: string)

  /** Which writes the API server accepts. */
  datatype Api = Api(skills: bool, envVars: bool, workspace: bool, job: bool, status: bool)

  /** Parsing a patch and compiling a pattern are library calls. */
  datatype Library = Library(decode: string -> Option<Json>, compile: Compiler)

  datatype State = State(request: Request, status: Status, log: seq<Write>)

  // ---------- the gates ----------

  function CategoriesOf(r: Request): Categories {
    Categories(r.skills != [], r.patch != "", r.envVars != [], r.files != [], r.snapshotJob.Some?)
  }

  predicate Requests(r: Request, a: Action) {
    CategoriesOf(r).Has(a)
  }

  function Decoded(lib: Library, patch: string): Patch {
    if patch == "" then Empty
    else match lib.decode(patch) case None => Malformed case Some(root) => Parsed(root)
  }

  /** The patch can be checked: it parses and every pattern compiles, or nothing is protected. */
  predicate Checkable(lib: Library, patch: Patch, protectedKeys: seq<string>) {
    patch.Empty? || protectedKeys == [] ||
    (patch.Parsed? && forall i :: 0 <= i < |protectedKeys| ==> lib.compile(protectedKeys[i]).Some?)
  }

  ghost predicate TouchesProtected(lib: Library, patch: Patch, protectedKeys: seq<string>) {
    patch.Parsed? && exists path :: ProtectedNode(patch.root, lib.compile, protectedKeys, path)
  }

  /** The gate that refuses the request, in the order they are tried. */
  ghost function Refusal(r: Request, lookup: Lookup, lib: Library): Reason {
    if !lookup.Found? then ParentMissing
    else if !lookup.parent.enabled.GetOr(false) then Disabled
    else if !exists a: Action :: Requests(r, a) then NoMutations
    else if exists a: Action :: Requests(r, a) && a !in lookup.parent.allowed then ActionNotAllowed
    else if !Checkable(lib, Decoded(lib, r.patch), lookup.parent.protectedKeys) then PatchInvalid
    else if TouchesProtected(lib, Decoded(lib, r.patch), lookup.parent.protectedKeys) then PathProtected
    else NoReason
  }

  // ---------- the writes ----------

  /** The keys the files claim; files without literal content claim none. */
  function FilePatch(files: seq<File>): map<string, string> {
    if files == [] then map[]
    else
      var f := files[|files| - 1];
      var rest := FilePatch(files[..|files| - 1]);
      if f.content != "" then rest[Encode(f.path) := f.content] else rest
  }

  /** The workspace patch: the stored merge patch, overlaid by the files. */
  function WorkspacePatch(r: Request): map<string, string> {
    (if r.patch != "" then map[SELFCONFIG_KEY := r.patch] else map[]) + FilePatch(r.files)
  }

  function SkillsPlan(r: Request): seq<Write> {
    if r.skills != [] then [WroteSkills(r.skills)] else []
  }

  function EnvVarsPlan(r: Request): seq<Write> {
    if r.envVars != [] then [WroteEnvVars(r.envVars)] else []
  }

  function WorkspacePlan(r: Request): seq<Write> {
    if r.patch != "" || r.files != [] then [WroteWorkspace(WorkspacePatch(r))] else []
  }

  function JobPlan(r: Request): seq<Write> {
    if r.snapshotJob.Some? then [CreatedJob(r.snapshotJob.value)] else []
  }

  function AfterSkills(r: Request): seq<Write> {
    EnvVarsPlan(r) + (WorkspacePlan(r) + JobPlan(r))
  }

  /** The writes a request leads to, in order. */
  function Plan(r: Request): seq<Write> {
    SkillsPlan(r) + AfterSkills(r)
  }

  predicate Accepted(w: Write, p: Parent, api: Api) {
    match w
    case WroteSkills(_) => api.skills
    case WroteEnvVars(_) => api.envVars
    case WroteWorkspace(_) => api.workspace
    case CreatedJob(_) => p.honchoEnabled.GetOr(false) && api.job
  }

  /** The writes up to the first that is not accepted. */
  function Done(plan: seq<Write>, p: Parent, api: Api): seq<Write> {
    if plan == [] || !Accepted(plan[0], p, api) then [] else [plan[0]] + Done(plan[1..], p, api)
  }

  function SkillField(source: string): string {
    "spec.skills[source=" + source + "]"
  }

  function EnvField(v: EnvVar): string {
    "spec.env[name=" + v.name + "]"
  }

  function FileField(f: File): string {
    "workspace-configmap.data[path=" + f.path + "]"
  }

  const PATCH_FIELD := "workspace-configmap.data[key=selfconfig.yaml]"

  function JobField(name: string): string {
    "job[name=" + name + "]"
  }

  /** One entry per element, in order. */
  function Each<T>(items: seq<T>, field: T -> string): (fields: seq<string>)
    ensures |fields| == |items| && forall i :: 0 <= i < |items| ==> fields[i] == field(items[i])
  {
    if items == [] then [] else Each(items[..|items| - 1], field) + [field(items[|items| - 1])]
  }

  function WorkspaceFields(r: Request): seq<string> {
    (if r.patch != "" then [PATCH_FIELD] else []) + Each(r.files, FileField)
  }

  function JobFields(r: Request): seq<string> {
    if r.snapshotJob.Some? then [JobField(r.snapshotJob.value)] else []
  }

  function AppliedFields(r: Request): seq<string> {
    Each(r.skills, SkillField) + (Each(r.envVars, EnvField) + (WorkspaceFields(r) + JobFields(r)))
  }

  method AppendEach<T>(applied: seq<string>, items: seq<T>, field: T -> string) returns (longer: seq<string>)
    ensures longer == applied + Each(items, field)
  {
    longer := applied;
    for i := 0 to |items|
      invariant longer == applied + Each(items[..i], field)
    {
      assert items[..i + 1][..i] == items[..i];
      longer := longer + [field(items[i])];
    }
    assert items[..|items|] == items;
  }

  // ---------- one reconcile ----------

  predicate Decided(s: State) {
    s.status.observedGeneration == s.request.generation && (s.status.phase == Applied || s.status.phase == Denied)
  }

  function DeniedFor(s: Status, generation: int, reason: Reason): Status {
    s.(phase := Denied, reason := reason, observedGeneration := generation)
  }

  /** What a reconcile leaves behind. */
  ghost function Effect(s: State, lookup: Lookup, lib: Library, api: Api): State {
    if Decided(s) || lookup.GetError? then s
    else
      var reason := Refusal(s.request, lookup, lib);
      if reason != NoReason then
        s.(status := if api.status then DeniedFor(s.status, s.request.generation, reason) else s.status)
      else
        var plan := Plan(s.request);
        var done := Done(plan, lookup.parent, api);
        var decided :=
          if done == plan then s.status.(phase := Applied, reason := NoReason, appliedFields := AppliedFields(s.request), observedGeneration := s.request.generation)
          else DeniedFor(s.status, s.request.generation, ApplyFailed);
        s.(log := s.log + done, status := if api.status then decided else s.status)
  }

  class SelfConfigReconciler {
    var request: Request
    var status: Status
    var log: seq<Write>

    ghost function Current(): State
      reads this
    {
      State(request, status, log)
    }

    constructor (s: State)
      ensures Current() == s
    {
      request, status, log := s.request, s.status, s.log;
    }

    method Deny(reason: Reason, api: Api) returns (ok: bool)
      modifies this`status
      ensures ok == api.status
      ensures status == if ok then DeniedFor(old(status), request.generation, reason) else old(status)
    {
      if api.status {
        status := status.(phase := Denied);
        status := status.(reason := reason);
        status := status.(observedGeneration := request.generation);
      }
      return api.status;
    }

    method MarkApplied(applied: seq<string>, api: Api) returns (ok: bool)
      modifies this`status
      ensures ok == api.status
      ensures status == if ok then Status(Applied, request.generation, NoReason, applied) else old(status)
    {
      if api.status {
        status := status.(phase := Applied);
        status := status.(reason := NoReason);
        status := status.(appliedFields := applied);
        status := status.(observedGeneration := request.generation);
      }
      return api.status;
    }

    method BuildWorkspacePatch() returns (data: map<string, string>)
      ensures data == WorkspacePatch(request)
    {
      data := map[];
      if request.patch != "" {
        data := data[SELFCONFIG_KEY := request.patch];
      }
      var files: map<string, string> := map[];
      for i := 0 to |request.files|
        invariant files == FilePatch(request.files[..i])
      {
        assert request.files[..i + 1][..i] == request.files[..i];
        if request.files[i].content != "" {
          files := files[Encode(request.files[i].path) := request.files[i].content];
        }
      }
      assert request.files[..|request.files|] == request.files;
      data := data + files;
    }

    method ApplySkills(parent: Parent, api: Api) returns (fields: seq<string>, ok: bool)
      modifies this`log
      ensures log == old(log) + Done(SkillsPlan(request), parent, api)
      ensures ok <==> Done(SkillsPlan(request), parent, api) == SkillsPlan(request)
      ensures ok ==> fields == Each(request.skills, SkillField)
    {
      if |request.skills| == 0 {
        return [], true;
      }
      if !api.skills {
        return [], false;
      }
      log := log + [WroteSkills(request.skills)];
      fields := AppendEach([], request.skills, SkillField);
      return fields, true;
    }

    method ApplyEnvVars(parent: Parent, api: Api) returns (fields: seq<string>, ok: bool)
      modifies this`log
      ensures log == old(log) + Done(EnvVarsPlan(request), parent, api)
      ensures ok <==> Done(EnvVarsPlan(request), parent, api) == EnvVarsPlan(request)
      ensures ok ==> fields == Each(request.envVars, EnvField)
    {
      if |request.envVars| == 0 {
        return [], true;
      }
      if !api.envVars {
        return [], false;
      }
      log := log + [WroteEnvVars(request.envVars)];
      fields := AppendEach([], request.envVars, EnvField);
      return fields, true;
    }

    method ApplyWorkspace(parent: Parent, api: Api) returns (fields: seq<string>, ok: bool)
      modifies this`log
      ensures log == old(log) + Done(WorkspacePlan(request), parent, api)
      ensures ok <==> Done(WorkspacePlan(request), parent, api) == WorkspacePlan(request)
      ensures ok ==> fields == WorkspaceFields(request)
    {
      if request.patch == "" && |request.files| == 0 {
        return [], true;
      }
      var data := BuildWorkspacePatch();
      SingleWrite(WroteWorkspace(data), parent, api);
      if !api.workspace {
        return [], false;
      }
      log := log + [WroteWorkspace(data)];
      fields := ReportWorkspace();
      return fields, true;
    }

    /** The entries of a patch and of the files. */
    method ReportWorkspace() returns (fields: seq<string>)
      ensures fields == WorkspaceFields(request)
    {
      fields := [];
      if request.patch != "" {
        fields := fields + [PATCH_FIELD];
      }
      fields := AppendEach(fields, request.files, FileField);
    }

    method ApplySnapshot(parent: Parent, api: Api) returns (fields: seq<string>, ok: bool)
      modifies this`log
      ensures log == old(log) + Done(JobPlan(request), parent, api)
      ensures ok <==> Done(JobPlan(request), parent, api) == JobPlan(request)
      ensures ok ==> fields == JobFields(request)
    {
      if request.snapshotJob.None? {
        return [], true;
      }
      if !parent.honchoEnabled.GetOr(false) {
        return [], false;
      }
      if !api.job {
        return [], false;
      }
      log := log + [CreatedJob(request.snapshotJob.value)];
      return [JobField(request.snapshotJob.value)], true;
    }

    method ApplyWorkspaceAndSnapshot(parent: Parent, api: Api) returns (fields: seq<string>, ok: bool)
      modifies this`log
      ensures log == old(log) + Done(WorkspacePlan(request) + JobPlan(request), parent, api)
      ensures ok <==> Done(WorkspacePlan(request) + JobPlan(request), parent, api) == WorkspacePlan(request) + JobPlan(request)
      ensures ok ==> fields == WorkspaceFields(request) + JobFields(request)
    {
      var first;
      fields, first := ApplyWorkspace(parent, api);
      ok := first;
      ghost var between := log;
      if first {
        var more;
        more, ok := ApplySnapshot(parent, api);
        fields := fields + more;
      }
      TwoStages(old(log), WorkspacePlan(request), JobPlan(request), between, first, log, ok, parent, api);
    }

    method ApplyAfterSkills(parent: Parent, api: Api) returns (fields: seq<string>, ok: bool)
      modifies this`log
      ensures log == old(log) + Done(AfterSkills(request), parent, api)
      ensures ok <==> Done(AfterSkills(request), parent, api) == AfterSkills(request)
      ensures ok ==> fields == Each(request.envVars, EnvField) + (WorkspaceFields(request) + JobFields(request))
    {
      var first;
      fields, first := ApplyEnvVars(parent, api);
      ok := first;
      ghost var between := log;
      if first {
        var more;
        more, ok := ApplyWorkspaceAndSnapshot(parent, api);
        fields := fields + more;
      }
      TwoStages(old(log), EnvVarsPlan(request), WorkspacePlan(request) + JobPlan(request), between, first, log, ok, parent, api);
    }

    /** applyAll: the applied fields, or that a write failed. */
    method ApplyAll(parent: Parent, api: Api) returns (applied: seq<string>, ok: bool)
      modifies this`log
      ensures log == old(log) + Done(Plan(request), parent, api)
      ensures ok <==> Done(Plan(request), parent, api) == Plan(request)
      ensures ok ==> applied == AppliedFields(request)
    {
      var first;
      applied, first := ApplySkills(parent, api);
      ok := first;
      ghost var between := log;
      if first {
        var fields;
        fields, ok := ApplyAfterSkills(parent, api);
        applied := applied + fields;
      }
      TwoStages(old(log), SkillsPlan(request), AfterSkills(request), between, first, log, ok, parent, api);
    }

    /** The three gates of Reconcile; `hit` is the protected path a refusal names. */
    method CheckGates(lookup: Lookup, lib: Library) returns (reason: Reason, hit: string)
      requires !lookup.GetError?
      ensures reason == Refusal(request, lookup, lib)
      ensures reason == PathProtected ==> exists path ::
        && ProtectedNode(Decoded(lib, request.patch).root, lib.compile, lookup.parent.protectedKeys, path)
        && hit == PathText(path)
    {
      hit := "";
      if lookup.NotFound? {
        return ParentMissing, hit;
      }
      var parent := lookup.parent;
      if parent.enabled.None? || !parent.enabled.value {
        return Disabled, hit;
      }
      var requested := DetermineActions(CategoriesOf(request));
      assert forall a :: Requests(request, a) <==> a in requested;
      if |requested| == 0 {
        return NoMutations, hit;
      }
      assert Requests(request, requested[0]);
      var denied := CheckAllowedActions(requested, parent.allowed);
      assert forall a :: a in denied <==> Requests(request, a) && a !in parent.allowed;
      if |denied| > 0 {
        assert Requests(request, denied[0]) && denied[0] !in parent.allowed;
        return ActionNotAllowed, hit;
      }
      if request.patch != "" {
        var check := CheckProtectedPaths(Decoded(lib, request.patch), parent.protectedKeys, lib.compile);
        if check.InvalidPatch? || check.InvalidPattern? {
          return PatchInvalid, hit;
        }
        if check.Protected? {
          return PathProtected, check.path;
        }
      }
      return NoReason, hit;
    }

    /** Reconcile. `hit` is the protected path named in a denial for it. */
    method Reconcile(lookup: Lookup, lib: Library, api: Api) returns (ok: bool, hit: string)
      modifies this
      ensures Current() == Effect(old(Current()), lookup, lib, api)
      ensures ok <==> Decided(old(Current())) || (!lookup.GetError? && api.status)
    {
      hit := "";
      if status.observedGeneration == request.generation && (status.phase == Applied || status.phase == Denied) {
        return true, hit;
      }
      if lookup.GetError? {
        return false, hit;
      }
      var reason;
      reason, hit := CheckGates(lookup, lib);
      if reason != NoReason {
        ok := Deny(reason, api);
        return;
      }
      var parent := lookup.parent;
      var applied, applies := ApplyAll(parent, api);
      if !applies {
        ok := Deny(ApplyFailed, api);
      } else {
        ok := MarkApplied(applied, api);
      }
    }
  }

  lemma SingleWrite(w: Write, p: Parent, api: Api)
    ensures Done([w], p, api) == if Accepted(w, p, api) then [w] else []
  {
    assert [w][1..] == [];
  }

  lemma {:induction false} DoneIsPrefix(a: seq<Write>, p: Parent, api: Api)
    ensures Done(a, p, api) <= a
  {
    if a != [] {
      DoneIsPrefix(a[1..], p, api);
      assert a == [a[0]] + a[1..];
    }
  }

  lemma {:induction false} DoneConcat(a: seq<Write>, b: seq<Write>, p: Parent, api: Api)
    ensures Done(a + b, p, api) == if Done(a, p, api) == a then a + Done(b, p, api) else Done(a, p, api)
  {
    if a == [] {
      assert a + b == b;
    } else {
      assert (a + b)[1..] == a[1..] + b;
      DoneConcat(a[1..], b, p, api);
      assert a == [a[0]] + a[1..];
    }
  }

  lemma DoneConcatWhole(a: seq<Write>, b: seq<Write>, p: Parent, api: Api)
    ensures Done(a + b, p, api) == a + b <==> Done(a, p, api) == a && Done(b, p, api) == b
  {
    DoneConcat(a, b, p, api);
    DoneIsPrefix(a, p, api);
    if Done(a, p, api) == a {
      assert (a + Done(b, p, api))[|a|..] == Done(b, p, api) && (a + b)[|a|..] == b;
    } else {
      assert |Done(a, p, api)| < |a| || Done(a, p, api) == a;
    }
  }

  /** Two stages run one after the other, the second only if the first was accepted whole. */
  lemma TwoStages(before: seq<Write>, a: seq<Write>, b: seq<Write>,
                  between: seq<Write>, first: bool, after: seq<Write>, second: bool, p: Parent, api: Api)
    requires between == before + Done(a, p, api) && (first <==> Done(a, p, api) == a)
    requires first ==> after == between + Done(b, p, api) && (second <==> Done(b, p, api) == b)
    requires !first ==> after == between && !second
    ensures after == before + Done(a + b, p, api)
    ensures second <==> Done(a + b, p, api) == a + b
  {
    DoneConcat(a, b, p, api);
    DoneConcatWhole(a, b, p, api);
    if first {
      Regroup(before, a, Done(b, p, api));
    }
  }

  lemma Regroup(a: seq<Write>, b: seq<Write>, c: seq<Write>)
    ensures (a + b) + c == a + (b + c)
  {
  }
}
