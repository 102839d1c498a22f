/** The workspace ConfigMap and its path codec (internal/resources/workspace_configmap.go). */
module WorkspacePath {
  import opened Wrappers
  import opened Orders

  const INITIAL_DIRS_KEY := "__hermes_initial_dirs__"

  /** strings.ReplaceAll(path, "/", "__"). */
  function Encode(path: string): string {
    if path == "" then "" else Mark(path[0]) + Encode(path[1..])
  }

  function Mark(c: char): string {
    if c == '/' then ['_', '_'] else [c]
  }

  /** strings.ReplaceAll(key, "__", "/"): leftmost matches that do not overlap. */
  function Decode(key: string): string {
    if key == "" then ""
    else if |key| >= 2 && key[0] == '_' && key[1] == '_' then "/" + Decode(key[2..])
    else [key[0]] + Decode(key[1..])
  }

  /** The path holds neither "__" nor "_/". */
  ghost predicate Unambiguous(path: string) {
    forall i :: 0 <= i < |path| - 1 && path[i] == '_' ==> path[i + 1] != '_' && path[i + 1] != '/'
  }

  /** The schema's pattern for paths: not empty, and no slash at either end. */
  predicate Relative(path: string) {
    path != "" && path[0] != '/' && path[|path| - 1] != '/'
  }

  // ---------- the codec ----------

  lemma EncodeStep(path: string)
    requires path != ""
    ensures path[0] == '/' ==> Encode(path) == ['_', '_'] + Encode(path[1..])
    ensures path[0] != '/' ==> Encode(path) == [path[0]] + Encode(path[1..])
  {
  }

  /** A lone underscore, followed by something that does not encode to one, stays as it is. */
  lemma {:induction false} RoundTrips(path: string)
    requires Unambiguous(path)
    ensures Decode(Encode(path)) == path
  {
    if path != "" {
      var rest := path[1..];
      assert Unambiguous(rest) by {
        forall i | 0 <= i < |rest| - 1 && rest[i] == '_' ensures rest[i + 1] != '_' && rest[i + 1] != '/' {
          assert path[i + 1] == rest[i] && path[i + 2] == rest[i + 1];
        }
      }
      RoundTrips(rest);
      EncodeStep(path);
      var key := Encode(path);
      if path[0] == '/' {
        assert key[2..] == Encode(rest);
      } else {
        assert key[1..] == Encode(rest);
        if path[0] == '_' && rest != "" {
          EncodeStep(rest);
          assert rest[0] == path[1];
          assert key[1] == rest[0];
        }
      }
      assert path == [path[0]] + rest;
    }
  }

  /** The first ambiguous place of a path breaks the round trip, whatever follows. */
  lemma {:induction false} AmbiguousBreaks(path: string)
    requires !Unambiguous(path)
    ensures Decode(Encode(path)) != path
  {
    var rest := path[1..];
    EncodeStep(path);
    var key := Encode(path);
    if path[0] == '_' && (rest[0] == '_' || rest[0] == '/') {
      EncodeStep(rest);
      assert key[0] == '_' && key[1] == '_';
      assert Decode(key)[0] == '/';
    } else {
      var i :| 0 <= i < |path| - 1 && path[i] == '_' && (path[i + 1] == '_' || path[i + 1] == '/');
      assert i > 0;
      assert rest[i - 1] == path[i] && rest[i] == path[i + 1];
      assert !Unambiguous(rest);
      AmbiguousBreaks(rest);
      if path[0] == '/' {
        assert key[2..] == Encode(rest);
        assert Decode(key) == ['/'] + Decode(Encode(rest));
        assert Decode(key)[1..] == Decode(Encode(rest));
      } else {
        assert key[1..] == Encode(rest);
        EncodeStep(rest);
        assert Decode(key) == [path[0]] + Decode(Encode(rest));
        assert Decode(key)[1..] == Decode(Encode(rest));
      }
    }
  }

  /** Decoding an encoded path gives the path back exactly when it is unambiguous. */
  lemma RoundTripCondition(path: string)
    ensures Decode(Encode(path)) == path <==> Unambiguous(path)
  {
    if Unambiguous(path) {
      RoundTrips(path);
    } else {
      AmbiguousBreaks(path);
    }
  }

  lemma {:induction false} EncodeHasNoSlash(path: string)
    ensures '/' !in Encode(path)
  {
    if path != "" {
      EncodeStep(path);
      EncodeHasNoSlash(path[1..]);
    }
  }

  /** Encoding a decoded key gives the key back exactly when the key holds no slash, which
      is every key a ConfigMap can have. */
  lemma {:induction false} KeyRoundTripCondition(key: string)
    ensures Encode(Decode(key)) == key <==> '/' !in key
  {
    if '/' in key {
      EncodeHasNoSlash(Decode(key));
    } else {
      SlashFreeKeyRoundTrips(key);
    }
  }

  lemma {:induction false} SlashFreeKeyRoundTrips(key: string)
    requires '/' !in key
    ensures Encode(Decode(key)) == key
  {
    if key != "" {
      EncodeStep(Decode(key));
      if |key| >= 2 && key[0] == '_' && key[1] == '_' {
        SlashFreeKeyRoundTrips(key[2..]);
        assert Decode(key)[1..] == Decode(key[2..]);
        assert key == ['_', '_'] + key[2..];
      } else {
        SlashFreeKeyRoundTrips(key[1..]);
        assert Decode(key)[1..] == Decode(key[1..]);
        assert key == [key[0]] + key[1..];
      }
    }
  }

  /** Two unambiguous paths never share a key. */
  lemma EncodeInjective(p: string, q: string)
    requires Unambiguous(p) && Unambiguous(q) && Encode(p) == Encode(q)
    ensures p == q
  {
    RoundTrips(p);
    RoundTrips(q);
  }

  /** A path with a key of the same length holds no slash and is its own key. */
  lemma {:induction false} EncodeLengthens(path: string)
    ensures |Encode(path)| >= |path|
    ensures '/' !in path ==> Encode(path) == path
  {
    if path != "" {
      EncodeStep(path);
      EncodeLengthens(path[1..]);
      assert path == [path[0]] + path[1..];
    }
  }

  lemma {:induction false} EncodeConcat(a: string, b: string)
    ensures Encode(a + b) == Encode(a) + Encode(b)
  {
    if a == "" {
      assert a + b == b;
    } else {
      var mark, rest := Mark(a[0]), a[1..];
      assert (a + b)[0] == a[0] && (a + b)[1..] == rest + b;
      EncodeConcat(rest, b);
      Associate(mark, Encode(rest), Encode(b));
    }
  }

  lemma Associate(a: string, b: string, c: string)
    ensures (a + b) + c == a + (b + c)
  {
  }

  /** A slash inside a path leaves a "__" inside its key. */
  lemma SlashLeavesMark(path: string, i: nat) returns (n: nat)
    requires 0 < i < |path| - 1 && path[i] == '/'
    ensures 1 <= n && n + 2 < |Encode(path)| && Encode(path)[n] == '_' && Encode(path)[n + 1] == '_'
  {
    assert path == path[..i] + path[i..] && path[i..][1..] == path[i + 1..];
    EncodeConcat(path[..i], path[i..]);
    EncodeStep(path[i..]);
    EncodeLengthens(path[..i]);
    EncodeLengthens(path[i + 1..]);
    n := |Encode(path[..i])|;
    assert Encode(path[i..])[0] == '_' && Encode(path[i..])[1] == '_';
  }

  /** The reserved key is the encoding of one relative path only, namely of itself. */
  lemma ReservedKeyCondition(path: string)
    requires Relative(path)
    ensures Encode(path) == INITIAL_DIRS_KEY <==> path == INITIAL_DIRS_KEY
  {
    if '/' in path {
      var i :| 0 <= i < |path| && path[i] == '/';
      var n := SlashLeavesMark(path, i);
      if Encode(path) == INITIAL_DIRS_KEY {
        ReservedKeyInside(n);
      }
    } else {
      EncodeLengthens(path);
    }
    ReservedKeyHasNoSlash();
  }

  lemma ReservedKeyHasNoSlash()
    ensures '/' !in INITIAL_DIRS_KEY
  {
  }

  lemma ReservedKeyInside(n: nat)
    requires 1 <= n && n + 2 < |INITIAL_DIRS_KEY|
    ensures !(INITIAL_DIRS_KEY[n] == '_' && INITIAL_DIRS_KEY[n + 1] == '_')
  {
  }

  // ---------- BuildWorkspaceConfigMap ----------

  datatype File = File(path: string, content: string)

  /** The stored body: SOUL.md gets the usage block in front when Semaphore is enabled. */
  function Body(f: File, soulBlock: Option<string>): string {
    if f.path == "SOUL.md" && soulBlock.Some? then soulBlock.value + "\n" + f.content else f.content
  }

  function JoinLines(lines: seq<string>): string {
    if lines == [] then "" else lines[0] + "\n" + JoinLines(lines[1..])
  }

  /** File i is the last one stored under its key. */
  ghost predicate LastUnderKey(files: seq<File>, i: nat) {
    i < |files| && forall j :: i < j < |files| ==> Encode(files[j].path) != Encode(files[i].path)
  }

  /** What the data holds of the files: the last body under each key, and nothing else. */
  ghost predicate HoldsFiles(data: map<string, string>, files: seq<File>, soulBlock: Option<string>) {
    && (forall i: nat :: LastUnderKey(files, i) ==>
          Encode(files[i].path) in data && data[Encode(files[i].path)] == Body(files[i], soulBlock))
    && (forall k :: k in data ==> exists i: nat :: LastUnderKey(files, i) && Encode(files[i].path) == k)
  }

  lemma LastUnderKeySnoc(files: seq<File>, f: File, i: nat)
    requires i < |files|
    ensures LastUnderKey(files + [f], i) <==> LastUnderKey(files, i) && Encode(files[i].path) != Encode(f.path)
  {
    var longer := files + [f];
    assert longer[i] == files[i] && longer[|files|] == f;
    forall j | i < j < |files| ensures longer[j] == files[j] {}
  }

  lemma HoldsFilesSnoc(data: map<string, string>, files: seq<File>, f: File, soulBlock: Option<string>)
    requires HoldsFiles(data, files, soulBlock)
    ensures HoldsFiles(data[Encode(f.path) := Body(f, soulBlock)], files + [f], soulBlock)
  {
    var longer, key := files + [f], Encode(f.path);
    var data' := data[key := Body(f, soulBlock)];
    assert longer[|files|] == f && LastUnderKey(longer, |files|);
    forall i: nat | LastUnderKey(longer, i)
      ensures Encode(longer[i].path) in data' && data'[Encode(longer[i].path)] == Body(longer[i], soulBlock)
    {
      if i < |files| {
        LastUnderKeySnoc(files, f, i);
        assert longer[i] == files[i];
      }
    }
    forall k | k in data' ensures exists i: nat :: LastUnderKey(longer, i) && Encode(longer[i].path) == k {
      if k != key {
        var i: nat :| LastUnderKey(files, i) && Encode(files[i].path) == k;
        LastUnderKeySnoc(files, f, i);
        assert longer[i] == files[i];
      }
    }
  }

  /** The list of directories, if any, stored over the files. */
  ghost predicate HoldsDirs(data: map<string, string>, fileData: map<string, string>, dirs: seq<string>) {
    if dirs == [] then data == fileData
    else exists sorted ::
      Sorted(StringLeq, sorted) && multiset(sorted) == multiset(dirs) && data == fileData[INITIAL_DIRS_KEY := JoinLines(sorted)]
  }

  lemma StoreStep(data: map<string, string>, files: seq<File>, i: nat, soulBlock: Option<string>, content: string)
    requires i < |files| && HoldsFiles(data, files[..i], soulBlock) && content == Body(files[i], soulBlock)
    ensures HoldsFiles(data[Encode(files[i].path) := content], files[..i + 1], soulBlock)
  {
    HoldsFilesSnoc(data, files[..i], files[i], soulBlock);
    assert files[..i + 1] == files[..i] + [files[i]];
  }

  /** The loop over the initial files. */
  method StoreFiles(files: seq<File>, soulBlock: Option<string>) returns (data: map<string, string>)
    ensures HoldsFiles(data, files, soulBlock)
  {
    data := map[];
    for i := 0 to |files|
      invariant HoldsFiles(data, files[..i], soulBlock)
    {
      var f := files[i];
      var content := f.content;
      if f.path == "SOUL.md" && soulBlock.Some? {
        content := soulBlock.value + "\n" + content;
      }
      StoreStep(data, files, i, soulBlock, content);
      data := data[Encode(f.path) := content];
    }
    assert files[..|files|] == files;
  }

  method BuildWorkspaceConfigMap(files: seq<File>, dirs: seq<string>, soulBlock: Option<string>)
    returns (data: map<string, string>)
    ensures exists fileData :: HoldsFiles(fileData, files, soulBlock) && HoldsDirs(data, fileData, dirs)
  {
    data := StoreFiles(files, soulBlock);
    ghost var fileData := data;
    if |dirs| > 0 {
      DirsAreHeld(fileData, dirs);
      var sorted := SortBy(StringLeq, dirs);
      data := data[INITIAL_DIRS_KEY := JoinLines(sorted)];
    }
    assert HoldsFiles(fileData, files, soulBlock) && HoldsDirs(data, fileData, dirs);
  }

  lemma DirsAreHeld(fileData: map<string, string>, dirs: seq<string>)
    requires dirs != []
    ensures HoldsDirs(fileData[INITIAL_DIRS_KEY := JoinLines(SortBy(StringLeq, dirs))], fileData, dirs)
  {
    StringLeqIsTotalOrder();
    SortBySorts(StringLeq, dirs);
  }

  /** The lines of a text in which every line is ended. */
  function LinesOf(text: string): seq<string> {
    if text == "" then []
    else
      var rest := LinesOf(text[1..]);
      if text[0] == '\n' then [""] + rest
      else if rest == [] then [[text[0]]]
      else [[text[0]] + rest[0]] + rest[1..]
  }

  lemma {:induction false} OneLine(line: string, more: string)
    requires '\n' !in line
    ensures LinesOf(line + "\n" + more) == [line] + LinesOf(more)
  {
    if line == "" {
      assert "" + "\n" + more == "\n" + more && ("\n" + more)[1..] == more;
    } else {
      OneLine(line[1..], more);
      assert (line + "\n" + more)[1..] == line[1..] + "\n" + more;
      assert [line[0]] + line[1..] == line;
    }
  }

  lemma {:induction false} LinesRoundTrip(lines: seq<string>)
    requires forall l :: l in lines ==> '\n' !in l
    ensures LinesOf(JoinLines(lines)) == lines
  {
    if lines != [] {
      assert lines[0] in lines;
      forall l | l in lines[1..] ensures l in lines {}
      LinesRoundTrip(lines[1..]);
      OneLine(lines[0], JoinLines(lines[1..]));
      assert lines == [lines[0]] + lines[1..];
    }
  }

  /** Whoever reads the reserved key line by line finds every directory, sorted, and no other. */
  lemma DirsAreListed(fileData: map<string, string>, data: map<string, string>, dirs: seq<string>)
    requires HoldsDirs(data, fileData, dirs) && dirs != [] && forall d :: d in dirs ==> '\n' !in d
    ensures "__hermes_initial_dirs__" in data
    ensures var lines := LinesOf(data["__hermes_initial_dirs__"]);
            Sorted(StringLeq, lines) && multiset(lines) == multiset(dirs)
  {
    var sorted :| Sorted(StringLeq, sorted) && multiset(sorted) == multiset(dirs) && data == fileData[INITIAL_DIRS_KEY := JoinLines(sorted)];
    forall l | l in sorted ensures '\n' !in l {
      assert l in multiset(sorted) && l in multiset(dirs);
    }
    LinesRoundTrip(sorted);
  }

  /** The content is stored as it is, except that a usage block, when there is one, stands on
      lines of its own before that of SOUL.md, and before no other. */
  lemma BodyVerdict(f: File, soulBlock: Option<string>)
    ensures f.path != "SOUL.md" || soulBlock.None? ==> Body(f, soulBlock) == f.content
    ensures f.path == "SOUL.md" && soulBlock.Some? ==>
      var n := |soulBlock.value|;
      Body(f, soulBlock)[..n] == soulBlock.value && Body(f, soulBlock)[n..] == "\n" + f.content
  {
  }

  /** Distinct, relative and unambiguous paths, as the schema asks for the first two. */
  ghost predicate Storable(files: seq<File>) {
    && (forall i :: 0 <= i < |files| ==> Relative(files[i].path) && Unambiguous(files[i].path))
    && (forall i, j :: 0 <= i < j < |files| ==> files[i].path != files[j].path)
  }

  lemma ReservedKeyIsAmbiguous()
    ensures !Unambiguous(INITIAL_DIRS_KEY)
  {
    assert INITIAL_DIRS_KEY[0] == '_' && INITIAL_DIRS_KEY[1] == '_';
  }

  /** No storable file is lost: each is found under its own key, which decodes to its path,
      also when the list of directories is stored beside them. */
  lemma NoStorableFileLost(files: seq<File>, dirs: seq<string>, soulBlock: Option<string>,
                           fileData: map<string, string>, data: map<string, string>, i: nat)
    requires Storable(files) && i < |files|
    requires HoldsFiles(fileData, files, soulBlock) && HoldsDirs(data, fileData, dirs)
    ensures var key := Encode(files[i].path);
            Decode(key) == files[i].path && key in data && data[key] == Body(files[i], soulBlock)
  {
    RoundTrips(files[i].path);
    ReservedKeyCondition(files[i].path);
    ReservedKeyIsAmbiguous();
    forall j | i < j < |files| ensures Encode(files[j].path) != Encode(files[i].path) {
      if Encode(files[j].path) == Encode(files[i].path) {
        EncodeInjective(files[i].path, files[j].path);
      }
    }
    assert LastUnderKey(files, i);
  }

  /** The comment in the source promises that the reserved key collides with no encoded
      path. A file of exactly that name does collide, and the directory list replaces it. */
  lemma ReservedNameIsLost(f: File, dirs: seq<string>, fileData: map<string, string>, data: map<string, string>)
    requires f.path == INITIAL_DIRS_KEY && dirs != []
    requires HoldsFiles(fileData, [f], None) && HoldsDirs(data, fileData, dirs)
    ensures Encode(f.path) in fileData && fileData[Encode(f.path)] == f.content
    ensures data == fileData[Encode(f.path) := JoinLines(SortBy(StringLeq, dirs))]
  {
    ReservedNameIsItsOwnKey();
    OnlyFileIsHeld(f, fileData);
    var sorted :| Sorted(StringLeq, sorted) && multiset(sorted) == multiset(dirs) && data == fileData[INITIAL_DIRS_KEY := JoinLines(sorted)];
    StringLeqIsTotalOrder();
    SortBySorts(StringLeq, dirs);
    SortedUnique(StringLeq, sorted, SortBy(StringLeq, dirs));
  }

  lemma OnlyFileIsHeld(f: File, fileData: map<string, string>)
    requires HoldsFiles(fileData, [f], None)
    ensures Encode(f.path) in fileData && fileData[Encode(f.path)] == f.content
  {
    assert LastUnderKey([f], 0);
  }

  lemma ReservedNameIsItsOwnKey()
    ensures Relative(INITIAL_DIRS_KEY) && Encode(INITIAL_DIRS_KEY) == INITIAL_DIRS_KEY
  {
    ReservedKeyHasNoSlash();
    EncodeLengthens(INITIAL_DIRS_KEY);
  }
}
