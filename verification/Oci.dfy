/** Tag selection (internal/oci/client.go). Parsing a tag and compiling a channel are
    library calls, so both are parameters. */
module Oci {
  import opened Wrappers
  import opened Orders
  import opened SemVer

  datatype Library = Library(
    parse: string -> Option<Version>,
    constraint: string -> Option<Version -> bool>)

  datatype Tagged = Tagged(version: Version, original: string)

  datatype Pick = BadChannel | NoMatch | Best(tag: string)

  predicate TaggedLeq(a: Tagged, b: Tagged) {
    VersionLeq(a.version, b.version)
  }

  /** The tag is a version and the channel admits it. */
  predicate Eligible(lib: Library, channel: string, tag: string) {
    && lib.constraint(channel).Some?
    && lib.parse(tag).Some?
    && lib.constraint(channel).value(lib.parse(tag).value)
  }

  /** What an answer has to satisfy; among tags of equal precedence the choice is open. */
  ghost predicate Answers(lib: Library, tags: seq<string>, channel: string, pick: Pick) {
    match pick
    case BadChannel => lib.constraint(channel).None?
    case NoMatch => lib.constraint(channel).Some? && forall t :: t in tags ==> !Eligible(lib, channel, t)
    case Best(best) =>
      && best in tags
      && Eligible(lib, channel, best)
      && forall t :: t in tags && Eligible(lib, channel, t) ==>
           VersionLeq(lib.parse(t).value, lib.parse(best).value)
  }

  method HighestMatching(lib: Library, tags: seq<string>, channel: string) returns (pick: Pick)
    ensures Answers(lib, tags, channel, pick)
  {
    var constraint := lib.constraint(channel);
    if constraint.None? {
      return BadChannel;
    }
    var versions: seq<Tagged> := [];
    for i := 0 to |tags|
      invariant forall v :: v in versions ==>
        v.original in tags && Eligible(lib, channel, v.original) && lib.parse(v.original) == Some(v.version)
      invariant forall j :: 0 <= j < i && Eligible(lib, channel, tags[j]) ==>
        Tagged(lib.parse(tags[j]).value, tags[j]) in versions
    {
      var v := lib.parse(tags[i]);
      if v.None? {
        continue;
      }
      if constraint.value(v.value) {
        versions := versions + [Tagged(v.value, tags[i])];
      }
    }
    if |versions| == 0 {
      return NoMatch;
    }
    ghost var unsorted := versions;
    versions := SortBy(TaggedLeq, versions);
    LastIsHighest(unsorted);
    pick := Best(versions[|versions| - 1].original);
    forall t | t in tags && Eligible(lib, channel, t)
      ensures VersionLeq(lib.parse(t).value, lib.parse(pick.tag).value)
    {
      assert Tagged(lib.parse(t).value, t) in unsorted;
    }
  }

  lemma LastIsHighest(versions: seq<Tagged>)
    requires versions != []
    ensures var sorted := SortBy(TaggedLeq, versions);
            sorted != [] && sorted[|sorted| - 1] in versions &&
            forall v :: v in versions ==> TaggedLeq(v, sorted[|sorted| - 1])
  {
    PrecedenceIsTotalPreorder();
    SortBySorts(TaggedLeq, versions);
    var sorted := SortBy(TaggedLeq, versions);
    assert |sorted| == |multiset(sorted)| == |multiset(versions)| == |versions|;
    var last := sorted[|sorted| - 1];
    assert last in multiset(sorted);
    forall v | v in versions ensures TaggedLeq(v, last) {
      assert v in multiset(versions);
      assert v in multiset(sorted);
      var i :| 0 <= i < |sorted| && sorted[i] == v;
      assert TaggedLeq(last, last);
    }
  }

  /** No two different eligible tags name versions of equal precedence. */
  ghost predicate NoTies(lib: Library, tags: seq<string>, channel: string) {
    forall t, u | t in tags && u in tags && Eligible(lib, channel, t) && Eligible(lib, channel, u) ::
      (VersionLeq(lib.parse(t).value, lib.parse(u).value) && VersionLeq(lib.parse(u).value, lib.parse(t).value)) ==> t == u
  }

  /** Two lists with the same tags, in any order and with any repetition, get answers of
      the same kind and of equal precedence: the chosen versions differ at most in build
      metadata, and the tags are the same once no two eligible tags are precedence-equal. */
  lemma AnswerIgnoresListOrder(lib: Library, tags: seq<string>, tags': seq<string>, channel: string, p: Pick, p': Pick)
    requires forall t :: t in tags <==> t in tags'
    requires Answers(lib, tags, channel, p) && Answers(lib, tags', channel, p')
    ensures p.Best? == p'.Best? && (!p.Best? ==> p == p')
    ensures p.Best? ==>
      lib.parse(p.tag).value.(metadata := lib.parse(p'.tag).value.metadata) == lib.parse(p'.tag).value
    ensures NoTies(lib, tags, channel) ==> p == p'
  {
    if p.Best? && p'.Best? {
      EqualPrecedence(lib.parse(p.tag).value, lib.parse(p'.tag).value);
    }
  }

  /** Publishing further tags never lowers the answer, and ends a "no match" exactly when
      one of them is eligible. */
  lemma MoreTagsNeverLowerTheAnswer(lib: Library, tags: seq<string>, more: seq<string>, channel: string, p: Pick, p': Pick)
    requires Answers(lib, tags, channel, p) && Answers(lib, tags + more, channel, p')
    ensures p.Best? ==> p'.Best? && VersionLeq(lib.parse(p.tag).value, lib.parse(p'.tag).value)
    ensures p'.NoMatch? <==> lib.constraint(channel).Some? && p.NoMatch? && forall t :: t in more ==> !Eligible(lib, channel, t)
  {
    assert forall t :: t in tags + more <==> t in tags || t in more;
  }

  /** No admitted tag has a higher major number than the answer, nor the same and a higher minor,
      nor the same two and a higher patch; and a release is never passed over for a pre-release
      of the same numbers. */
  lemma AnswerHasGreatestNumbers(lib: Library, tags: seq<string>, channel: string, best: string, t: string)
    requires Answers(lib, tags, channel, Best(best)) && t in tags && Eligible(lib, channel, t)
    ensures var v, u := lib.parse(best).value, lib.parse(t).value;
      && u.major <= v.major
      && (u.major == v.major ==> u.minor <= v.minor)
      && (u.major == v.major && u.minor == v.minor ==> u.patch <= v.patch)
      && (u.major == v.major && u.minor == v.minor && u.patch == v.patch && u.pre == [] ==> v.pre == [])
  {
    var v, u := lib.parse(best).value, lib.parse(t).value;
    NumbersDecide(v, u);
    if v.pre != [] {
      ReleaseExceedsPreRelease(v.(pre := []), v.pre);
    }
  }

  function Digits(n: nat): string {
    if n < 10 then ["0123456789"[n]] else Digits(n / 10) + ["0123456789"[n % 10]]
  }

  /** The major line of the given tag, or everything when it is not a version. */
  function DefaultChannel(lib: Library, tag: string): string {
    match lib.parse(tag)
    case None => "*"
    case Some(v) => Digits(v.major) + ".x"
  }

  /** The number that a text of decimal digits stands for. */
  function ValueOf(digits: string): int {
    if digits == "" then 0
    else 10 * ValueOf(digits[..|digits| - 1]) + (digits[|digits| - 1] as int - '0' as int)
  }

  predicate IsDecimal(digits: string) {
    digits != "" && (forall d :: d in digits ==> '0' <= d <= '9') && (|digits| > 1 ==> digits[0] != '0')
  }

  lemma DigitOf(n: nat)
    requires n < 10
    ensures '0' <= "0123456789"[n] <= '9' && "0123456789"[n] as int - '0' as int == n
  {
  }

  lemma {:induction false} DigitsAreDecimal(n: nat)
    ensures IsDecimal(Digits(n)) && ValueOf(Digits(n)) == n
    ensures n > 0 ==> Digits(n)[0] != '0'
  {
    DigitOf(n % 10);
    if n < 10 {
      assert Digits(n)[..0] == "";
    } else {
      DigitsAreDecimal(n / 10);
      var all := Digits(n);
      assert all[..|all| - 1] == Digits(n / 10);
    }
  }

  /** Without a channel of its own an instance stays on the major line of its tag, written in
      decimal, and follows everything when its tag is not a version. */
  lemma DefaultChannelVerdict(lib: Library, tag: string)
    ensures var channel := DefaultChannel(lib, tag);
      match lib.parse(tag)
      case None => channel == "*"
      case Some(v) => exists digits :: channel == digits + ".x" && IsDecimal(digits) && ValueOf(digits) == v.major
  {
    if lib.parse(tag).Some? {
      DigitsAreDecimal(lib.parse(tag).value.major);
    }
  }
}
