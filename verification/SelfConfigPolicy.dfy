/** The policy checks on a self-configuration request
    (internal/controller/selfconfig_policy.go). */
module SelfConfigPolicy {
  import opened Wrappers
  import opened Orders

  /** A decoded JSON value: objects are walked, everything else is a leaf. */
  datatype Json = Leaf | Object(fields: map<string, Json>)

  /** A key path from the root of a value. */
  type KeyPath = seq<string>

  function JoinPath(prefix: string, key: string): string {
    if prefix == "" then key else prefix + "." + key
  }

  /** The dotted path of a key path below a prefix. */
  function Joined(prefix: string, path: KeyPath): string
    decreases path
  {
    if path == [] then prefix else Joined(JoinPath(prefix, path[0]), path[1..])
  }

  // ---------- what a joined path is ----------

  /** The keys with a dot between each two. */
  function Dotted(path: KeyPath): string {
    if path == [] then "" else if |path| == 1 then path[0] else path[0] + "." + Dotted(path[1..])
  }

  /** The path without the empty keys it begins with. */
  function FromFirstName(path: KeyPath): KeyPath {
    if path != [] && path[0] == "" then FromFirstName(path[1..]) else path
  }

  lemma {:induction false} JoinedAfter(prefix: string, path: KeyPath)
    requires prefix != "" && path != []
    ensures Joined(prefix, path) == prefix + "." + Dotted(path)
    decreases path
  {
    var first := prefix + "." + path[0];
    if |path| == 1 {
      assert path[1..] == [];
    } else {
      JoinedAfter(first, path[1..]);
      Regroup(prefix + ".", path[0], "." + Dotted(path[1..]));
      assert first + "." + Dotted(path[1..]) == first + ("." + Dotted(path[1..]));
      assert Dotted(path) == path[0] + ("." + Dotted(path[1..]));
    }
  }

  lemma Regroup(a: string, b: string, c: string)
    ensures (a + b) + c == a + (b + c)
  {
  }

  /** A joined path is the dotted one, except that empty keys at its beginning leave no dot. */
  lemma {:induction false} JoinedIsDotted(path: KeyPath)
    ensures Joined("", path) == PathText(path)
    decreases path
  {
    if path != [] {
      if path[0] == "" {
        JoinedIsDotted(path[1..]);
      } else if |path| == 1 {
        assert path[1..] == [];
      } else {
        JoinedAfter(path[0], path[1..]);
      }
    }
  }

  /** The text of a path: its keys between dots, from the first that is not empty on. */
  function PathText(path: KeyPath): string {
    Dotted(FromFirstName(path))
  }

  /** The parts of a text between its dots. */
  function SplitAtDots(text: string): KeyPath
    ensures SplitAtDots(text) != []
  {
    if text == "" then [""]
    else if text[0] == '.' then [""] + SplitAtDots(text[1..])
    else
      var rest := SplitAtDots(text[1..]);
      [[text[0]] + rest[0]] + rest[1..]
  }

  lemma {:induction false} SplitName(name: string, more: string)
    requires '.' !in name
    ensures SplitAtDots(name) == [name]
    ensures SplitAtDots(name + "." + more) == [name] + SplitAtDots(more)
  {
    if name == "" {
      assert "" + "." + more == "." + more && ("." + more)[1..] == more;
    } else {
      SplitName(name[1..], more);
      assert (name + "." + more)[1..] == name[1..] + "." + more;
      assert [name[0]] + name[1..] == name;
    }
  }

  /** Splitting a dotted path at its dots gives the keys back, when no key holds a dot. */
  lemma {:induction false} DottedRoundTrips(path: KeyPath)
    requires path != [] && forall k :: k in path ==> '.' !in k
    ensures SplitAtDots(Dotted(path)) == path
  {
    assert path[0] in path;
    if |path| == 1 {
      SplitName(path[0], "");
    } else {
      forall k | k in path[1..] ensures k in path {}
      DottedRoundTrips(path[1..]);
      SplitName(path[0], Dotted(path[1..]));
      assert path == [path[0]] + path[1..];
    }
  }

  /** So different paths of named keys without dots never share a joined path. */
  lemma JoinedRoundTrips(path: KeyPath)
    requires path != [] && path[0] != "" && forall k :: k in path ==> '.' !in k
    ensures SplitAtDots(Joined("", path)) == path
  {
    JoinedIsDotted(path);
    DottedRoundTrips(path);
  }

  // ---------- nodes ----------

  /** The key path leads to a node of the value. */
  predicate Reaches(v: Json, path: KeyPath)
    decreases path
  {
    path == [] || (v.Object? && path[0] in v.fields && Reaches(v.fields[path[0]], path[1..]))
  }

  /** The node is tested by the walk and matches. A node whose joined path is empty (the
      root, or empty keys below it) is not tested. */
  predicate Hits(v: Json, prefix: string, path: KeyPath, matches: string -> bool) {
    Reaches(v, path) && Joined(prefix, path) != "" && matches(Joined(prefix, path))
  }

  /** Every node below a key of an object is reached through that key. */
  lemma ReachesThrough(v: Json, key: string, path: KeyPath)
    requires v.Object? && key in v.fields
    ensures Reaches(v, [key] + path) <==> Reaches(v.fields[key], path)
  {
    assert ([key] + path)[1..] == path;
  }

  /** Pre-order of nodes: a path comes before its extensions, siblings in key order. */
  predicate Before(a: KeyPath, b: KeyPath) {
    Lex(StringLeq, a, b)
  }

  // ---------- the walk ----------

  /** The keys of an object in some order, as Go's map iteration gives them. */
  method KeysInSomeOrder(fields: map<string, Json>) returns (keys: seq<string>)
    ensures forall k :: k in keys <==> k in fields
  {
    keys := [];
    var rest := fields.Keys;
    while rest != {}
      invariant rest <= fields.Keys
      invariant forall k :: k in keys <==> k in fields && k !in rest
    {
      var k :| k in rest;
      rest := rest - {k};
      keys := keys + [k];
    }
  }

  method SortedKeys(fields: map<string, Json>) returns (keys: seq<string>)
    ensures Sorted(StringLeq, keys)
    ensures forall k :: k in keys <==> k in fields
  {
    var unsorted := KeysInSomeOrder(fields);
    StringLeqIsTotalOrder();
    SortBySorts(StringLeq, unsorted);
    keys := SortBy(StringLeq, unsorted);
    forall k ensures k in keys <==> k in unsorted {
      assert k in multiset(keys) <==> k in multiset(unsorted);
    }
  }

  /** The first hit in pre-order, and that it is one. */
  ghost predicate FirstHit(v: Json, prefix: string, matches: string -> bool, path: KeyPath) {
    && Hits(v, prefix, path, matches)
    && forall other :: Hits(v, prefix, other, matches) ==> Before(path, other)
  }

  lemma JoinedBelow(prefix: string, key: string, path: KeyPath)
    ensures Joined(prefix, [key] + path) == Joined(JoinPath(prefix, key), path)
  {
  }

  lemma HitsBelow(v: Json, prefix: string, path: KeyPath, matches: string -> bool)
    requires path != []
    ensures Hits(v, prefix, path, matches) <==>
      v.Object? && path[0] in v.fields && Hits(v.fields[path[0]], JoinPath(prefix, path[0]), path[1..], matches)
  {
  }

  /** Everything in the fields of the keys looked at so far misses. */
  ghost predicate Misses(v: Json, prefix: string, matches: string -> bool, keys: seq<string>) {
    forall path :: path != [] && path[0] in keys ==> !Hits(v, prefix, path, matches)
  }

  lemma StringLeqReflexive(s: string)
    ensures StringLeq(s, s)
  {
    StringLeqIsTotalOrder();
  }

  /** The first hit below key number i is the first hit of the whole object, when the root
      misses and everything below the earlier keys misses. */
  lemma FirstHitBelow(v: Json, prefix: string, matches: string -> bool, keys: seq<string>, i: nat, path: KeyPath)
    requires v.Object? && Sorted(StringLeq, keys) && (forall k :: k in keys <==> k in v.fields)
    requires !Hits(v, prefix, [], matches)
    requires i < |keys| && Misses(v, prefix, matches, keys[..i])
    requires FirstHit(v.fields[keys[i]], JoinPath(prefix, keys[i]), matches, path)
    ensures FirstHit(v, prefix, matches, [keys[i]] + path)
  {
    var full := [keys[i]] + path;
    assert full[1..] == path;
    HitsBelow(v, prefix, full, matches);
    assert forall m :: 0 <= m < i ==> keys[m] in keys[..i];
    forall other | Hits(v, prefix, other, matches) ensures Before(full, other) {
      HitsBelow(v, prefix, other, matches);
      var j :| 0 <= j < |keys| && keys[j] == other[0];
      if other[0] != keys[i] {
        assert StringLeq(keys[i], keys[j]);
      }
    }
  }

  /** walk with the matching closure: stops at the first node that matches. */
  method Walk(v: Json, prefix: string, matches: string -> bool) returns (stopped: bool, hit: string)
    ensures stopped ==> exists path :: FirstHit(v, prefix, matches, path) && hit == Joined(prefix, path)
    ensures !stopped ==> hit == "" && forall path :: !Hits(v, prefix, path, matches)
    decreases v
  {
    if prefix != "" && matches(prefix) {
      assert FirstHit(v, prefix, matches, []);
      return true, prefix;
    }
    if v.Object? {
      var keys := SortedKeys(v.fields);
      for i := 0 to |keys|
        invariant Misses(v, prefix, matches, keys[..i])
      {
        assert keys[i] in keys;
        var child := JoinPath(prefix, keys[i]);
        stopped, hit := Walk(v.fields[keys[i]], child, matches);
        if stopped {
          ghost var path :| FirstHit(v.fields[keys[i]], child, matches, path) && hit == Joined(child, path);
          FirstHitBelow(v, prefix, matches, keys, i, path);
          JoinedBelow(prefix, keys[i], path);
          return true, hit;
        }
        forall path | path != [] && path[0] in keys[..i + 1] ensures !Hits(v, prefix, path, matches) {
          HitsBelow(v, prefix, path, matches);
          if path[0] !in keys[..i] {
            assert path[0] == keys[i];
          }
        }
      }
      assert keys[..|keys|] == keys;
      forall path ensures !Hits(v, prefix, path, matches) {
        if path != [] {
          HitsBelow(v, prefix, path, matches);
        }
      }
    }
    return false, "";
  }

  /** The first hit is unique, so the walk's answer does not depend on map iteration order. */
  lemma FirstHitUnique(v: Json, prefix: string, matches: string -> bool, a: KeyPath, b: KeyPath)
    requires FirstHit(v, prefix, matches, a) && FirstHit(v, prefix, matches, b)
    ensures a == b
  {
    StringLeqIsTotalOrder();
    LexAntiSymmetric(StringLeq, a, b);
  }

  /** Pre-order never moves a node before its parent: a reported hit has no matching ancestor. */
  lemma {:induction false} ExtensionComesLater(a: KeyPath, b: KeyPath)
    ensures Before(a, a + b)
    ensures b != [] ==> !Before(a + b, a)
  {
    if a != [] {
      ExtensionComesLater(a[1..], b);
      assert (a + b)[1..] == a[1..] + b;
      StringLeqReflexive(a[0]);
    }
  }

  // ---------- CheckProtectedPaths ----------

  /** A merge patch as stored: no bytes, bytes that are not a JSON object, or an object. */
  datatype Patch = Empty | Malformed | Parsed(root: Json)

  datatype Check = Clear | Protected(path: string) | InvalidPatch | InvalidPattern(pattern: string)

  /** Compiling a pattern is a library call, so its meaning is a parameter. */
  type Compiler = string -> Option<string -> bool>

  /** Some pattern covers the path. */
  predicate Covered(compile: Compiler, patterns: seq<string>, path: string) {
    exists i :: 0 <= i < |patterns| && compile(patterns[i]).Some? && compile(patterns[i]).value(path)
  }

  /** The node is tested and covered by a pattern. */
  predicate ProtectedNode(root: Json, compile: Compiler, patterns: seq<string>, path: KeyPath) {
    Reaches(root, path) && PathText(path) != "" && Covered(compile, patterns, PathText(path))
  }

  /** Pattern number i is the first that does not compile. */
  ghost predicate FirstInvalid(compile: Compiler, patterns: seq<string>, i: nat) {
    i < |patterns| && compile(patterns[i]).None? && forall j :: 0 <= j < i ==> compile(patterns[j]).Some?
  }

  method CheckProtectedPaths(patch: Patch, patterns: seq<string>, compile: Compiler) returns (c: Check)
    ensures c == InvalidPatch <==> patch.Malformed? && patterns != []
    ensures c.InvalidPattern? <==> patch.Parsed? && exists i :: 0 <= i < |patterns| && compile(patterns[i]).None?
    ensures c.InvalidPattern? ==> exists i: nat :: FirstInvalid(compile, patterns, i) && patterns[i] == c.pattern
    ensures c == Clear && patch.Parsed? ==> forall path :: !ProtectedNode(patch.root, compile, patterns, path)
    ensures c.Protected? ==> patch.Parsed? && exists path ::
      && ProtectedNode(patch.root, compile, patterns, path) && c.path == PathText(path)
      && forall other :: ProtectedNode(patch.root, compile, patterns, other) ==> Before(path, other)
  {
    if patch.Empty? || patterns == [] {
      return Clear;
    }
    if patch.Malformed? {
      return InvalidPatch;
    }
    var globs: seq<string -> bool> := [];
    for i := 0 to |patterns|
      invariant |globs| == i
      invariant forall j :: 0 <= j < i ==> compile(patterns[j]) == Some(globs[j])
    {
      var g := compile(patterns[i]);
      if g.None? {
        assert FirstInvalid(compile, patterns, i);
        return InvalidPattern(patterns[i]);
      }
      globs := globs + [g.value];
    }
    var matches := (path: string) => exists i :: 0 <= i < |globs| && globs[i](path);
    forall path ensures matches(path) <==> Covered(compile, patterns, path) {
      forall i | 0 <= i < |patterns| ensures compile(patterns[i]) == Some(globs[i]) {}
    }
    forall path ensures Joined("", path) == PathText(path) {
      JoinedIsDotted(path);
    }
    forall path ensures Hits(patch.root, "", path, matches) <==> ProtectedNode(patch.root, compile, patterns, path) {}
    var stopped, hit := Walk(patch.root, "", matches);
    if stopped {
      c := Protected(hit);
    } else {
      c := Clear;
    }
  }

  // ---------- action categories ----------

  datatype Action = Skills | Config | EnvVars | WorkspaceFiles | Profiles

  /** What a request asks for, by category. */
  datatype Categories = Categories(skills: bool, config: bool, envVars: bool, workspaceFiles: bool, profiles: bool) {
    predicate Has(a: Action) {
      match a
      case Skills => skills
      case Config => config
      case EnvVars => envVars
      case WorkspaceFiles => workspaceFiles
      case Profiles => profiles
    }
  }

  method DetermineActions(c: Categories) returns (actions: seq<Action>)
    ensures forall a :: a in actions <==> c.Has(a)
    ensures forall i, j :: 0 <= i < j < |actions| ==> actions[i] != actions[j]
  {
    actions := [];
    if c.skills {
      actions := actions + [Skills];
    }
    if c.config {
      actions := actions + [Config];
    }
    if c.envVars {
      actions := actions + [EnvVars];
    }
    if c.workspaceFiles {
      actions := actions + [WorkspaceFiles];
    }
    if c.profiles {
      actions := actions + [Profiles];
    }
  }

  method CheckAllowedActions(requested: seq<Action>, allowed: seq<Action>) returns (denied: seq<Action>)
    ensures forall a :: a in denied <==> a in requested && a !in allowed
  {
    var allowSet: set<Action> := {};
    for i := 0 to |allowed|
      invariant forall a :: a in allowSet <==> a in allowed[..i]
    {
      allowSet := allowSet + {allowed[i]};
    }
    assert allowed[..|allowed|] == allowed;
    denied := [];
    for i := 0 to |requested|
      invariant forall a :: a in denied <==> a in requested[..i] && a !in allowed
    {
      if requested[i] !in allowSet {
        denied := denied + [requested[i]];
      }
    }
    assert requested[..|requested|] == requested;
  }
}
