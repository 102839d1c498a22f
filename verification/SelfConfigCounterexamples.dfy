/** Concrete requests that show which stronger claims about self-configuration are false. The
    exact conditions are in SelfConfigRuns. */
module SelfConfigCounterexamples {
  import opened Wrappers
  import opened WorkspacePath
  import opened SelfConfigPolicy
  import opened SelfConfig
  import opened SelfConfigRuns

  const LIBRARY := Library((patch: string) => None, (pattern: string) => None)
  const WORKING := Api(true, true, true, true, true)

  /** A parent that allows everything, protects nothing and has Honcho off. */
  const PARENT := Parent(Some(true), [Skills, Config, EnvVars, WorkspaceFiles, Profiles], [], None)

  function Asking(r: Request): State {
    State(r, Status(Pending, 0, NoReason, []), [])
  }

  lemma PermissiveParentRefusesNothing(r: Request, a: Action)
    requires Requests(r, a)
    ensures Refusal(r, Found(PARENT), LIBRARY) == NoReason
  {
    forall b: Action ensures b in PARENT.allowed {
      assert b == PARENT.allowed[0] || b == PARENT.allowed[1] || b == PARENT.allowed[2] || b == PARENT.allowed[3] || b == PARENT.allowed[4];
    }
  }

  /** A request with one workspace write is applied. */
  lemma OneWriteApplies(r: Request, a: Action, data: map<string, string>)
    requires Requests(r, a) && Plan(r) == [WroteWorkspace(data)]
    ensures var s := Effect(Asking(r), Found(PARENT), LIBRARY, WORKING);
            s.status.phase == Applied && s.log == [WroteWorkspace(data)] && s.status.appliedFields == AppliedFields(r)
  {
    PermissiveParentRefusesNothing(r, a);
    var plan := [WroteWorkspace(data)];
    assert plan[1..] == [];
    assert Done(plan, PARENT, WORKING) == plan;
  }

  lemma OneFile(f: File)
    ensures FilePatch([f]) == if f.content != "" then map[Encode(f.path) := f.content] else map[]
  {
    assert [f][..0] == [];
  }

  const SKILL_AND_SNAPSHOT := Request(1, ["hub:search"], "", [], [], Some("snapshot"))

  /** "A denied request wrote nothing": the skill is written before the snapshot is refused,
      because the parent has Honcho off. */
  lemma DeniedSkillStays()
    ensures var s := Effect(Asking(SKILL_AND_SNAPSHOT), Found(PARENT), LIBRARY, WORKING);
            s.status.phase == Denied && s.log == [WroteSkills(["hub:search"])]
  {
    PermissiveParentRefusesNothing(SKILL_AND_SNAPSHOT, Skills);
    assert Plan(SKILL_AND_SNAPSHOT) == [WroteSkills(["hub:search"]), CreatedJob("snapshot")];
    SecondIsRefused(WroteSkills(["hub:search"]), CreatedJob("snapshot"), PARENT, WORKING);
  }

  lemma SecondIsRefused(first: Write, second: Write, p: Parent, api: Api)
    requires Accepted(first, p, api) && !Accepted(second, p, api)
    ensures Done([first, second], p, api) == [first]
  {
    assert [first, second][1..] == [second];
  }

  const EMPTY_FILE := Request(1, [], "", [], [File("notes.md", "")], None)

  /** "An applied file was written": the file without literal content is reported as applied,
      and the write claims no key at all. */
  lemma EmptyFileOnlyReported()
    ensures var s := Effect(Asking(EMPTY_FILE), Found(PARENT), LIBRARY, WORKING);
            s.status.phase == Applied && s.log == [WroteWorkspace(map[])] && FileField(File("notes.md", "")) in s.status.appliedFields
  {
    var f := File("notes.md", "");
    OneFile(f);
    assert Plan(EMPTY_FILE) == [WroteWorkspace(map[])];
    OneWriteApplies(EMPTY_FILE, WorkspaceFiles, map[]);
    ReportLists(EMPTY_FILE);
    assert AppliedFields(EMPTY_FILE)[FileStart(EMPTY_FILE) + 0] == FileField(f);
  }

  const REPLACED_PATCH := Request(1, [], "{}", [], [File(SELFCONFIG_KEY, "mine")], None)

  /** "The stored merge patch is the requested one": a file named selfconfig.yaml takes its key. */
  lemma FileReplacesPatch()
    ensures var s := Effect(Asking(REPLACED_PATCH), Found(PARENT), LIBRARY, WORKING);
            s.status.phase == Applied && s.log == [WroteWorkspace(map[SELFCONFIG_KEY := "mine"])]
  {
    SelfConfigKeyLetters();
    PlainNamesAreTheirKeys(SELFCONFIG_KEY);
    PatchAndFile(REPLACED_PATCH, File(SELFCONFIG_KEY, "mine"), SELFCONFIG_KEY);
    OneWriteApplies(REPLACED_PATCH, Config, map[SELFCONFIG_KEY := "mine"]);
  }

  lemma PatchAndFile(r: Request, f: File, key: string)
    requires r.patch != "" && r.files == [f] && r.skills == [] && r.envVars == [] && r.snapshotJob.None?
    requires f.content != "" && Encode(f.path) == key == SELFCONFIG_KEY
    ensures Plan(r) == [WroteWorkspace(map[key := f.content])]
  {
    OneFile(f);
    LaterWins(key, r.patch, f.content);
  }

  lemma LaterWins(key: string, first: string, later: string)
    ensures map[key := first] + map[key := later] == map[key := later]
  {
  }
}
