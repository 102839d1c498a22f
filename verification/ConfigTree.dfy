/** Merging configuration documents (internal/resources/configmap.go), on parsed trees. */
module ConfigTree {
  import opened Wrappers
  import opened Maps

  /** A YAML value as deep merging sees it: a mapping, or anything else. */
  datatype Value = Scalar(text: string) | Mapping(fields: Config)

  type Config = map<string, Value>

  // ---------- deepMergeMaps ----------

  /** deepMergeMaps as a function of its two arguments. */
  function DeepMerge(base: Config, overlay: Config): Config
    decreases Mapping(base)
  {
    map k | k in base.Keys + overlay.Keys ::
      if k in base && k in overlay && base[k].Mapping? && overlay[k].Mapping?
      then Mapping(DeepMerge(base[k].fields, overlay[k].fields))
      else if k in overlay then overlay[k] else base[k]
  }

  /** The same for the values under one key. */
  function MergeAt(x: Option<Value>, y: Option<Value>): Option<Value> {
    if y.None? then x
    else if x.Some? && x.value.Mapping? && y.value.Mapping? then Some(Mapping(DeepMerge(x.value.fields, y.value.fields)))
    else y
  }

  lemma MergeIsKeywise(base: Config, overlay: Config, k: string)
    ensures At(DeepMerge(base, overlay), k) == MergeAt(At(base, k), At(overlay, k))
  {
  }

  /** The part of the result of overlaying the keys visited so far. */
  ghost predicate MergedOn(out: Config, base: Config, overlay: Config, visited: set<string>) {
    forall k :: At(out, k) == if k in visited then MergeAt(At(base, k), At(overlay, k)) else At(base, k)
  }

  /** deepMergeMaps itself: copy the base, then go through the overlay's keys in any order. */
  method DeepMergeMaps(base: Config, overlay: Config) returns (out: Config)
    ensures out == DeepMerge(base, overlay)
    decreases Mapping(base)
  {
    out := base;
    var rest := overlay.Keys;
    while rest != {}
      invariant rest <= overlay.Keys
      invariant MergedOn(out, base, overlay, overlay.Keys - rest)
      decreases rest
    {
      ghost var visited := overlay.Keys - rest;
      var k :| k in rest;
      rest := rest - {k};
      assert overlay.Keys - rest == visited + {k};
      assert At(out, k) == At(base, k);
      if k in out && out[k].Mapping? && overlay[k].Mapping? {
        assert out[k] == base[k];
        var merged := DeepMergeMaps(out[k].fields, overlay[k].fields);
        out := out[k := Mapping(merged)];
      } else {
        out := out[k := overlay[k]];
      }
    }
    forall k ensures At(out, k) == At(DeepMerge(base, overlay), k) {
      MergeIsKeywise(base, overlay, k);
    }
    SameEverywhere(out, DeepMerge(base, overlay));
  }

  // ---------- what the merge means, path by path ----------

  /** The value at a path of keys; every step goes through a mapping. */
  function Lookup(c: Config, path: seq<string>): Option<Value>
    requires path != []
    decreases path
  {
    if path[0] !in c then None
    else if |path| == 1 then Some(c[path[0]])
    else if c[path[0]].Mapping? then Lookup(c[path[0]].fields, path[1..])
    else None
  }

  /** Somewhere strictly above the path there is a value that is not a mapping. */
  ghost predicate Blocked(c: Config, path: seq<string>) {
    exists n :: 0 < n < |path| && Lookup(c, path[..n]).Some? && !Lookup(c, path[..n]).value.Mapping?
  }

  lemma BlockedBelow(c: Config, path: seq<string>)
    requires |path| > 1
    ensures Blocked(c, path) <==>
      path[0] in c && (!c[path[0]].Mapping? || Blocked(c[path[0]].fields, path[1..]))
  {
    if path[0] in c {
      assert path[..1] == [path[0]];
      assert Lookup(c, path[..1]) == Some(c[path[0]]);
      if c[path[0]].Mapping? {
        var inner := c[path[0]].fields;
        forall n | 1 < n < |path| ensures Lookup(c, path[..n]) == Lookup(inner, path[1..][..n - 1]) {
          assert path[..n][1..] == path[1..][..n - 1];
        }
        if Blocked(inner, path[1..]) {
          var m :| 0 < m < |path[1..]| && Lookup(inner, path[1..][..m]).Some? && !Lookup(inner, path[1..][..m]).value.Mapping?;
          assert Lookup(c, path[..m + 1]) == Lookup(inner, path[1..][..m + 1 - 1]);
        }
        if Blocked(c, path) {
          var n :| 0 < n < |path| && Lookup(c, path[..n]).Some? && !Lookup(c, path[..n]).value.Mapping?;
          assert n > 1;
          assert Lookup(inner, path[1..][..n - 1]) == Lookup(c, path[..n]);
        }
      }
    } else {
      forall n | 0 < n < |path| ensures Lookup(c, path[..n]) == None {
        assert path[..n][0] == path[0];
      }
    }
  }

  /** At every path: where both sides have mappings they are merged, else the overlay's value
      wins where it has one, and the base shows through unless the overlay put something that
      is not a mapping further up. */
  lemma {:induction false} MergePathwise(base: Config, overlay: Config, path: seq<string>)
    requires path != []
    ensures Lookup(DeepMerge(base, overlay), path) ==
      if Lookup(overlay, path).Some? || !Blocked(overlay, path) then MergeAt(Lookup(base, path), Lookup(overlay, path))
      else None
    decreases path
  {
    var k := path[0];
    MergeIsKeywise(base, overlay, k);
    if |path| > 1 {
      BlockedBelow(overlay, path);
      if k in base && k in overlay && base[k].Mapping? && overlay[k].Mapping? {
        MergePathwise(base[k].fields, overlay[k].fields, path[1..]);
      } else if k in overlay && overlay[k].Mapping? {
        LookupBlocked(overlay[k].fields, path[1..]);
      }
    }
  }

  lemma {:induction false} LookupBlocked(c: Config, path: seq<string>)
    requires path != []
    ensures Blocked(c, path) ==> Lookup(c, path).None?
    decreases path
  {
    if |path| > 1 {
      BlockedBelow(c, path);
      if path[0] in c && c[path[0]].Mapping? {
        LookupBlocked(c[path[0]].fields, path[1..]);
      }
    }
  }

  // ---------- algebra ----------

  lemma EmptyIsIdentity(c: Config)
    ensures DeepMerge(map[], c) == c && DeepMerge(c, map[]) == c
  {
  }

  /** Every key of a is in c, and wherever both hold mappings this is so again below. */
  predicate Covers(c: Config, a: Config)
    decreases Mapping(a)
  {
    forall k :: k in a ==>
      k in c && (a[k].Mapping? && c[k].Mapping? ==> Covers(c[k].fields, a[k].fields))
  }

  /** Overlaying c hides all of a exactly when c covers a. */
  lemma {:induction false} MergeAbsorbs(a: Config, c: Config)
    ensures DeepMerge(a, c) == c <==> Covers(c, a)
    decreases Mapping(a)
  {
    var m := DeepMerge(a, c);
    forall k | k in a && k in c && a[k].Mapping? && c[k].Mapping?
      ensures m[k] == c[k] <==> Covers(c[k].fields, a[k].fields)
    {
      MergeAbsorbs(a[k].fields, c[k].fields);
    }
    if Covers(c, a) {
      forall k ensures At(m, k) == At(c, k) {
        MergeIsKeywise(a, c, k);
        if k in a && k in c && a[k].Mapping? && c[k].Mapping? {
          assert m[k] == c[k];
        }
      }
      SameEverywhere(m, c);
    }
    if m == c {
      forall k | k in a ensures k in c && (a[k].Mapping? && c[k].Mapping? ==> Covers(c[k].fields, a[k].fields)) {
        assert k in m;
      }
    }
  }

  lemma {:induction false} CoversReflexive(c: Config)
    ensures Covers(c, c)
    decreases Mapping(c)
  {
    forall k | k in c && c[k].Mapping? ensures Covers(c[k].fields, c[k].fields) {
      CoversReflexive(c[k].fields);
    }
  }

  /** The merge of a and b covers b, so overlaying b a second time changes nothing. */
  lemma {:induction false} MergeCoversOverlay(a: Config, b: Config)
    ensures forall k :: k in b ==> k in DeepMerge(a, b)
    ensures DeepMerge(DeepMerge(a, b), b) == DeepMerge(a, b)
    decreases Mapping(a)
  {
    var m := DeepMerge(a, b);
    forall k ensures At(DeepMerge(m, b), k) == At(m, k) {
      MergeIsKeywise(m, b, k);
      MergeIsKeywise(a, b, k);
      if k in b && b[k].Mapping? {
        if k in a && a[k].Mapping? {
          MergeCoversOverlay(a[k].fields, b[k].fields);
        } else {
          CoversReflexive(b[k].fields);
          MergeAbsorbs(b[k].fields, b[k].fields);
        }
      }
    }
    SameEverywhere(DeepMerge(m, b), m);
  }

  /** At no common path is the middle value the only one that is not a mapping, unless the
      last one covers the first there. */
  predicate Associates(a: Config, b: Config, c: Config)
    decreases Mapping(a)
  {
    forall k :: k in a && k in b && k in c && a[k].Mapping? && c[k].Mapping? ==>
      if b[k].Mapping? then Associates(a[k].fields, b[k].fields, c[k].fields)
      else Covers(c[k].fields, a[k].fields)
  }

  /** Merging three documents is associative exactly under this condition. */
  lemma {:induction false} MergeAssociates(a: Config, b: Config, c: Config)
    ensures DeepMerge(DeepMerge(a, b), c) == DeepMerge(a, DeepMerge(b, c)) <==> Associates(a, b, c)
    decreases Mapping(a)
  {
    var left, right := DeepMerge(DeepMerge(a, b), c), DeepMerge(a, DeepMerge(b, c));
    forall k ensures At(left, k) == At(right, k) <==> AssociatesAt(a, b, c, k) {
      AssociatesKeywise(a, b, c, k);
    }
    if Associates(a, b, c) {
      forall k ensures At(left, k) == At(right, k) {
        assert AssociatesAt(a, b, c, k);
      }
      SameEverywhere(left, right);
    }
    if left == right {
      forall k | k in a && k in b && k in c && a[k].Mapping? && c[k].Mapping?
        ensures if b[k].Mapping? then Associates(a[k].fields, b[k].fields, c[k].fields) else Covers(c[k].fields, a[k].fields)
      {
        assert At(left, k) == At(right, k);
        assert AssociatesAt(a, b, c, k);
      }
    }
  }

  predicate AssociatesAt(a: Config, b: Config, c: Config, k: string) {
    k in a && k in b && k in c && a[k].Mapping? && c[k].Mapping? ==>
      if b[k].Mapping? then Associates(a[k].fields, b[k].fields, c[k].fields)
      else Covers(c[k].fields, a[k].fields)
  }

  lemma {:induction false} AssociatesKeywise(a: Config, b: Config, c: Config, k: string)
    ensures At(DeepMerge(DeepMerge(a, b), c), k) == At(DeepMerge(a, DeepMerge(b, c)), k) <==> AssociatesAt(a, b, c, k)
    decreases Mapping(a), 0
  {
    MergeIsKeywise(a, b, k);
    MergeIsKeywise(b, c, k);
    MergeIsKeywise(DeepMerge(a, b), c, k);
    MergeIsKeywise(a, DeepMerge(b, c), k);
    if k in a && k in b && k in c && a[k].Mapping? && c[k].Mapping? {
      if b[k].Mapping? {
        MergeAssociates(a[k].fields, b[k].fields, c[k].fields);
      } else {
        MergeAbsorbs(a[k].fields, c[k].fields);
      }
    }
  }

  // ---------- the two stages of BuildConfigMap ----------

  const MODEL := "model"
  const BASE_URL := "base_url"
  const API_KEY := "api_key"
  const GATEWAYS := "gateways"

  /** The user's gateways, or nothing when they are missing or not a mapping. */
  function UserGateways(root: Config): Config {
    if GATEWAYS in root && root[GATEWAYS].Mapping? then root[GATEWAYS].fields else map[]
  }

  method MergeGatewayFragments(root: Config, frags: Config) returns (out: Config)
    ensures out == WithGateways(root, frags)
  {
    if |frags| == 0 {
      return root;
    }
    var existing: Config := map[];
    if GATEWAYS in root && root[GATEWAYS].Mapping? {
      existing := root[GATEWAYS].fields;
    }
    existing := Overlay(existing, frags);
    return root[GATEWAYS := Mapping(existing)];
  }

  /** The loop over the fragments, in any order. */
  method Overlay(user: Config, frags: Config) returns (existing: Config)
    ensures existing == user + frags
  {
    existing := user;
    var rest := frags.Keys;
    while rest != {}
      invariant rest <= frags.Keys
      invariant Overlaid(existing, user, frags, rest)
      decreases rest
    {
      var k :| k in rest;
      OverlaidStep(existing, user, frags, rest, k);
      rest := rest - {k};
      existing := existing[k := frags[k]];
    }
    SameEverywhere(existing, user + frags);
  }

  /** The fragments outside rest have been written over the user's entries. */
  ghost predicate Overlaid(existing: Config, user: Config, frags: Config, rest: set<string>) {
    forall k :: At(existing, k) == if k in frags && k !in rest then Some(frags[k]) else At(user, k)
  }

  lemma OverlaidStep(existing: Config, user: Config, frags: Config, rest: set<string>, k: string)
    requires Overlaid(existing, user, frags, rest) && rest <= frags.Keys && k in rest
    ensures Overlaid(existing[k := frags[k]], user, frags, rest - {k})
  {
    var next := existing[k := frags[k]];
    forall j ensures At(next, j) == if j in frags && j !in rest - {k} then Some(frags[j]) else At(user, j) {
      assert At(existing, j) == if j in frags && j !in rest then Some(frags[j]) else At(user, j);
    }
  }

  method EnsureModelDefault(root: Config) returns (out: Config)
    ensures out == WithModel(root)
  {
    if MODEL in root {
      return root;
    }
    out := root[MODEL := Scalar("gpt-4o-mini")];
    out := out[BASE_URL := Scalar("http://127.0.0.1:9/v1")];
    out := out[API_KEY := Scalar("placeholder-no-live-calls")];
  }

  function WithGateways(root: Config, frags: Config): Config {
    if frags == map[] then root else root[GATEWAYS := Mapping(UserGateways(root) + frags)]
  }

  const PLACEHOLDER: Config := map[
    MODEL := Scalar("gpt-4o-mini"),
    BASE_URL := Scalar("http://127.0.0.1:9/v1"),
    API_KEY := Scalar("placeholder-no-live-calls")]

  function WithModel(root: Config): Config {
    if MODEL in root then root else root + PLACEHOLDER
  }

  lemma KeysDiffer()
    ensures GATEWAYS !in PLACEHOLDER && PLACEHOLDER.Keys == {MODEL, BASE_URL, API_KEY}
  {
    assert GATEWAYS[0] == 'g' && MODEL[0] == 'm' && BASE_URL[0] == 'b' && API_KEY[0] == 'a';
  }

  /** The two stages may be run in either order, and running one again changes nothing. */
  lemma StagesCommute(root: Config, frags: Config)
    ensures WithModel(WithGateways(root, frags)) == WithGateways(WithModel(root), frags)
    ensures WithModel(WithModel(root)) == WithModel(root)
    ensures WithGateways(WithGateways(root, frags), frags) == WithGateways(root, frags)
  {
    KeysDiffer();
    forall k ensures At(WithModel(WithGateways(root, frags)), k) == At(WithGateways(WithModel(root), frags), k) {}
    SameEverywhere(WithModel(WithGateways(root, frags)), WithGateways(WithModel(root), frags));
    assert UserGateways(root) + frags + frags == UserGateways(root) + frags;
  }

  /** The rendered document always has a model; the operator's fragments win inside gateways,
      one level deep; and when the user chose a model nothing else is touched. */
  lemma RenderedDocument(root: Config, frags: Config)
    ensures var out := WithModel(WithGateways(root, frags));
            && MODEL in out
            && (frags != map[] ==> GATEWAYS in out && out[GATEWAYS] == Mapping(UserGateways(root) + frags))
            && (forall k :: k in frags ==> Lookup(out, [GATEWAYS, k]) == Some(frags[k]))
            && (forall k :: k !in frags && k in UserGateways(root) ==> Lookup(out, [GATEWAYS, k]) == Some(UserGateways(root)[k]))
            && (MODEL in root ==> forall k :: k != GATEWAYS ==> At(out, k) == At(root, k))
            && (MODEL !in root ==> forall k :: k != GATEWAYS ==> At(out, k) == if k in PLACEHOLDER then Some(PLACEHOLDER[k]) else At(root, k))
  {
    KeysDiffer();
    var out := WithModel(WithGateways(root, frags));
    forall k | k in frags || k in UserGateways(root)
      ensures GATEWAYS in out && out[GATEWAYS].Mapping? && Lookup(out, [GATEWAYS, k]) == At(out[GATEWAYS].fields, k)
    {
      assert [GATEWAYS, k][1..] == [k];
    }
  }

  /** The fragments replace what the user wrote under the same gateway, they are not merged
      into it: the deep merge of the two differs unless the fragments cover the user's
      entries. */
  lemma FragmentsReplaceDeeply(root: Config, frags: Config)
    ensures UserGateways(root) + frags == DeepMerge(UserGateways(root), frags) <==>
      forall k :: k in frags && k in UserGateways(root) && frags[k].Mapping? && UserGateways(root)[k].Mapping? ==>
        Covers(frags[k].fields, UserGateways(root)[k].fields)
  {
    var user := UserGateways(root);
    var shallow, deep := user + frags, DeepMerge(user, frags);
    forall k ensures At(shallow, k) == At(deep, k) <==>
      (k in frags && k in user && frags[k].Mapping? && user[k].Mapping? ==> Covers(frags[k].fields, user[k].fields))
    {
      MergeIsKeywise(user, frags, k);
      if k in frags && k in user && frags[k].Mapping? && user[k].Mapping? {
        MergeAbsorbs(user[k].fields, frags[k].fields);
      }
    }
    if forall k :: At(shallow, k) == At(deep, k) {
      SameEverywhere(shallow, deep);
    }
  }

  const USER_ENTRY: Config := map["token" := Scalar("mine")]
  const OPERATOR_ENTRY: Config := map["enabled" := Scalar("true")]

  /** "The fragments are deep-merged": the user's token is gone, where deep merging keeps it. */
  lemma FragmentDropsUserKey()
    ensures var root: Config := map[GATEWAYS := Mapping(map["telegram" := Mapping(USER_ENTRY)])];
      var frags: Config := map["telegram" := Mapping(OPERATOR_ENTRY)];
      && Lookup(WithGateways(root, frags), [GATEWAYS, "telegram"]) == Some(Mapping(OPERATOR_ENTRY))
      && Lookup(DeepMerge(root, map[GATEWAYS := Mapping(frags)]), [GATEWAYS, "telegram", "token"]) == Some(Scalar("mine"))
  {
    var root: Config := map[GATEWAYS := Mapping(map["telegram" := Mapping(USER_ENTRY)])];
    var frags: Config := map["telegram" := Mapping(OPERATOR_ENTRY)];
    assert [GATEWAYS, "telegram"][1..] == ["telegram"];
    assert [GATEWAYS, "telegram", "token"][1..] == ["telegram", "token"] && ["telegram", "token"][1..] == ["token"];
    assert "token"[0] != "enabled"[0];
    var merged := DeepMerge(UserGateways(root), frags);
    assert merged["telegram"] == Mapping(DeepMerge(USER_ENTRY, OPERATOR_ENTRY));
    MergeIsKeywise(USER_ENTRY, OPERATOR_ENTRY, "token");
  }

  // ---------- resolveConfigBody ----------

  datatype MergeMode = Replace | Merge | Unset

  /** The document the operator starts from: the referenced ConfigMap's, the inline one, or
      both merged. None means the inline document, or an empty one, is taken later. */
  function ResolvedBody(referenced: Option<Config>, inline: Option<Config>, mode: MergeMode): Option<Config> {
    if referenced.None? then None
    else if inline.None? then referenced
    else if mode == Merge then Some(DeepMerge(referenced.value, inline.value))
    else None
  }

  /** The document before the two stages. */
  function Body(referenced: Option<Config>, inline: Option<Config>, mode: MergeMode): Config {
    match ResolvedBody(referenced, inline, mode)
    case Some(b) => b
    case None => inline.GetOr(map[])
  }

  function Rendered(referenced: Option<Config>, inline: Option<Config>, mode: MergeMode, frags: Config): Config {
    WithModel(WithGateways(Body(referenced, inline, mode), frags))
  }

  // ---------- what is rendered, path by path, from the documents themselves ----------

  /** The value at a path of the documents before the two stages. */
  function Given(referenced: Option<Config>, inline: Option<Config>, mode: MergeMode, path: seq<string>): Option<Value>
    requires path != []
  {
    match (referenced, inline)
    case (None, None) => None
    case (None, Some(doc)) => Lookup(doc, path)
    case (Some(doc), None) => Lookup(doc, path)
    case (Some(base), Some(overlay)) =>
      if mode == Merge then Lookup(DeepMerge(base, overlay), path) else Lookup(overlay, path)
  }

  lemma BodyIsGiven(referenced: Option<Config>, inline: Option<Config>, mode: MergeMode, path: seq<string>)
    requires path != []
    ensures Lookup(Body(referenced, inline, mode), path) == Given(referenced, inline, mode, path)
  {
  }

  /** What stands at a path: what was given, or, without a model, the placeholder values at their
      keys and nothing below them. */
  function Placed(hasModel: bool, given: Option<Value>, path: seq<string>): Option<Value>
    requires path != []
  {
    if hasModel || path[0] !in {"model", "base_url", "api_key"} then given
    else if |path| > 1 then None
    else Some(Scalar(
      if path[0] == "model" then "gpt-4o-mini"
      else if path[0] == "base_url" then "http://127.0.0.1:9/v1"
      else "placeholder-no-live-calls"))
  }

  /** Every path outside gateways, whatever the sources and the mode: it is as the documents give
      it, but for the placeholder while none of them has a model. */
  lemma RenderedVerdict(referenced: Option<Config>, inline: Option<Config>, mode: MergeMode, frags: Config, path: seq<string>)
    requires path != [] && path[0] != "gateways"
    ensures Lookup(Rendered(referenced, inline, mode, frags), path) ==
      Placed(Given(referenced, inline, mode, ["model"]).Some?, Given(referenced, inline, mode, path), path)
  {
    BodyIsGiven(referenced, inline, mode, path);
    BodyIsGiven(referenced, inline, mode, [MODEL]);
    StageLookup(Body(referenced, inline, mode), frags, path);
  }

  lemma StageLookup(body: Config, frags: Config, path: seq<string>)
    requires path != [] && path[0] != GATEWAYS
    ensures Lookup(WithModel(WithGateways(body, frags)), path) == Placed(Lookup(body, [MODEL]).Some?, Lookup(body, path), path)
  {
    PlaceholderAt(path[0]);
    StageAt(body, frags, path[0]);
    var out := WithModel(WithGateways(body, frags));
    if MODEL in body || path[0] !in PLACEHOLDER {
      SameHead(out, body, path);
    } else {
      ScalarHead(out, path);
    }
  }

  lemma StageAt(body: Config, frags: Config, k: string)
    requires k != GATEWAYS
    ensures At(WithModel(WithGateways(body, frags)), k) ==
      if MODEL in body || k !in PLACEHOLDER then At(body, k) else Some(PLACEHOLDER[k])
  {
    RenderedDocument(body, frags);
  }

  lemma PlaceholderAt(k: string)
    ensures k in PLACEHOLDER <==> k in {"model", "base_url", "api_key"}
    ensures k in PLACEHOLDER ==> PLACEHOLDER[k] == Scalar(
      if k == "model" then "gpt-4o-mini"
      else if k == "base_url" then "http://127.0.0.1:9/v1"
      else "placeholder-no-live-calls")
  {
    KeysDiffer();
    assert MODEL[0] == 'm' && BASE_URL[0] == 'b' && API_KEY[0] == 'a';
  }

  lemma SameHead(c: Config, d: Config, path: seq<string>)
    requires path != [] && At(c, path[0]) == At(d, path[0])
    ensures Lookup(c, path) == Lookup(d, path)
  {
    assert path[0] in c <==> path[0] in d;
  }

  lemma ScalarHead(c: Config, path: seq<string>)
    requires path != [] && path[0] in c && c[path[0]].Scalar?
    ensures Lookup(c, path) == if |path| == 1 then Some(c[path[0]]) else None
  {
  }

  /** The companion of InlineWins for the referenced document. Without an inline document it is
      rendered as it is; merged, it shows through wherever the inline document neither has the
      path nor puts something that is no mapping further up; else it plays no part. */
  lemma ReferencedShows(referenced: Config, inline: Option<Config>, mode: MergeMode, path: seq<string>)
    requires path != []
    ensures inline.None? ==> Given(Some(referenced), inline, mode, path) == Lookup(referenced, path)
    ensures inline.Some? && mode == Merge && Lookup(inline.value, path).None? && !Blocked(inline.value, path) ==>
      Given(Some(referenced), inline, mode, path) == Lookup(referenced, path)
    ensures inline.Some? && mode != Merge ==> Given(Some(referenced), inline, mode, path) == Given(None, inline, mode, path)
  {
    if inline.Some? {
      MergePathwise(referenced, inline.value, path);
    }
  }

  /** Inside gateways: each fragment stands under its own key, the user's other gateways stay, and
      what the user wrote instead of a mapping is gone once there is any fragment. */
  lemma GatewaysVerdict(root: Config, frags: Config, k: string)
    requires frags != map[]
    ensures Lookup(WithModel(WithGateways(root, frags)), ["gateways", k]) ==
      if k in frags then Some(frags[k]) else Lookup(root, ["gateways", k])
    ensures "gateways" in WithModel(WithGateways(root, frags)) && WithModel(WithGateways(root, frags))["gateways"].Mapping?
  {
    KeysDiffer();
    RenderedDocument(root, frags);
    var path := [GATEWAYS, k];
    assert path[1..] == [k];
    var out := WithModel(WithGateways(root, frags));
    assert Lookup(out, path) == At(out[GATEWAYS].fields, k);
  }

  /** The inline document or the one it is merged onto brings a model. */
  predicate BringsModel(referenced: Option<Config>, inline: Config, mode: MergeMode) {
    MODEL in inline || (mode == Merge && referenced.Some? && MODEL in referenced.value)
  }

  /** Whatever the sources and the mode, the inline document decides each of its paths outside
      gateways that ends in something other than a mapping, with one exception: while neither
      document brings a model, the placeholder replaces a base_url or api_key the user wrote. */
  lemma InlineWins(referenced: Option<Config>, inline: Config, mode: MergeMode, frags: Config, path: seq<string>)
    requires path != [] && path[0] != GATEWAYS
    requires Lookup(inline, path).Some? && !Lookup(inline, path).value.Mapping?
    ensures Lookup(Rendered(referenced, Some(inline), mode, frags), path) ==
      if BringsModel(referenced, inline, mode) || path[0] !in PLACEHOLDER then Lookup(inline, path)
      else if |path| == 1 then Some(PLACEHOLDER[path[0]])
      else None
  {
    KeysDiffer();
    var body := Body(referenced, Some(inline), mode);
    if referenced.Some? && mode == Merge {
      MergePathwise(referenced.value, inline, path);
      MergeIsKeywise(referenced.value, inline, MODEL);
    }
    assert MODEL in body <==> BringsModel(referenced, inline, mode);
    assert Lookup(body, path) == Lookup(inline, path);
    RenderedDocument(body, frags);
    var out := Rendered(referenced, Some(inline), mode, frags);
    if MODEL in body || path[0] !in PLACEHOLDER {
      assert At(out, path[0]) == At(body, path[0]);
    } else {
      assert At(out, path[0]) == Some(PLACEHOLDER[path[0]]);
    }
  }
}
