/** Versions and their precedence, as in section 11 of Semantic Versioning 2.0.0. */
module SemVer {
  import opened Orders

  /** A dot-separated pre-release identifier. */
  datatype Identifier = Numeric(n: nat) | Alphanumeric(s: string)

  datatype Version = Version(major: nat, minor: nat, patch: nat, pre: seq<Identifier>, metadata: string)

  predicate IdentifierLeq(a: Identifier, b: Identifier) {
    match (a, b)
    case (Numeric(m), Numeric(n)) => m <= n
    case (Numeric(_), Alphanumeric(_)) => true
    case (Alphanumeric(_), Numeric(_)) => false
    case (Alphanumeric(s), Alphanumeric(t)) => StringLeq(s, t)
  }

  /** A version without a pre-release outranks the same version with one. */
  predicate PreReleaseLeq(a: seq<Identifier>, b: seq<Identifier>) {
    b == [] || (a != [] && Lex(IdentifierLeq, a, b))
  }

  /** Build metadata takes no part in precedence. */
  predicate VersionLeq(a: Version, b: Version) {
    if a.major != b.major then a.major < b.major
    else if a.minor != b.minor then a.minor < b.minor
    else if a.patch != b.patch then a.patch < b.patch
    else PreReleaseLeq(a.pre, b.pre)
  }

  lemma IdentifierLeqIsTotalOrder()
    ensures TotalOrder(IdentifierLeq)
  {
    StringLeqIsTotalOrder();
  }

  lemma PreReleaseLeqIsTotalOrder()
    ensures TotalOrder(PreReleaseLeq)
  {
    IdentifierLeqIsTotalOrder();
    forall a: seq<Identifier>, b: seq<Identifier> ensures PreReleaseLeq(a, b) || PreReleaseLeq(b, a) {
      LexTotal(IdentifierLeq, a, b);
    }
    forall a: seq<Identifier>, b: seq<Identifier> | PreReleaseLeq(a, b) && PreReleaseLeq(b, a) ensures a == b {
      if a != [] {
        LexAntiSymmetric(IdentifierLeq, a, b);
      }
    }
    forall a: seq<Identifier>, b: seq<Identifier>, c: seq<Identifier> | PreReleaseLeq(a, b) && PreReleaseLeq(b, c)
      ensures PreReleaseLeq(a, c)
    {
      if c != [] {
        LexTransitive(IdentifierLeq, a, b, c);
      }
    }
  }

  lemma PrecedenceIsTotalPreorder()
    ensures TotalPreorder(VersionLeq)
  {
    PreReleaseLeqIsTotalOrder();
  }

  /** Equal precedence means equal up to build metadata, and nothing more. */
  lemma EqualPrecedence(a: Version, b: Version)
    ensures VersionLeq(a, b) && VersionLeq(b, a) <==> a.(metadata := b.metadata) == b
  {
    PreReleaseLeqIsTotalOrder();
    assert PreReleaseLeq(b.pre, b.pre);
  }

  // ---------- the rules of section 11, one by one ----------

  /** b has the higher precedence. */
  predicate Exceeds(b: Version, a: Version) {
    VersionLeq(a, b) && !VersionLeq(b, a)
  }

  /** Major, minor and patch are compared numerically and in this order. */
  lemma NumbersDecide(a: Version, b: Version)
    ensures a.major < b.major ==> Exceeds(b, a)
    ensures a.major == b.major && a.minor < b.minor ==> Exceeds(b, a)
    ensures a.major == b.major && a.minor == b.minor && a.patch < b.patch ==> Exceeds(b, a)
  {
  }

  /** A release has a higher precedence than each of its own pre-releases. */
  lemma ReleaseExceedsPreRelease(v: Version, pre: seq<Identifier>)
    requires v.pre == [] && pre != []
    ensures Exceeds(v, v.(pre := pre))
  {
  }

  /** The lower of two different identifiers: numbers by value, texts by their first different
      character, a prefix before what extends it, and numbers before texts. */
  ghost predicate Lower(x: Identifier, y: Identifier) {
    || (x.Numeric? && y.Numeric? && x.n < y.n)
    || (x.Numeric? && y.Alphanumeric?)
    || (x.Alphanumeric? && y.Alphanumeric? && LowerText(x.s, y.s))
  }

  ghost predicate LowerText(s: string, t: string) {
    exists n: nat :: n < |t| && n <= |s| && s[..n] == t[..n] && (n == |s| || s[n] < t[n])
  }

  lemma LowerTextComesFirst(s: string, t: string)
    requires LowerText(s, t)
    ensures StringLeq(s, t) && s != t
  {
    var n: nat :| n < |t| && n <= |s| && s[..n] == t[..n] && (n == |s| || s[n] < t[n]);
    LowerTextAt(s, t, n);
  }

  lemma LowerTextAt(s: string, t: string, n: nat)
    requires n < |t| && n <= |s| && s[..n] == t[..n] && (n == |s| || s[n] < t[n])
    ensures StringLeq(s, t) && s != t
  {
    Parts(t, n);
    if n == |s| {
      assert s == t[..n] + [];
      LexSkipsCommon(CharLeq, t[..n], [], [t[n]] + t[n + 1..]);
    } else {
      Parts(s, n);
      LexSkipsCommon(CharLeq, t[..n], [s[n]] + s[n + 1..], [t[n]] + t[n + 1..]);
    }
  }

  lemma LowerComesFirst(x: Identifier, y: Identifier)
    requires Lower(x, y)
    ensures IdentifierLeq(x, y) && x != y
  {
    if x.Alphanumeric? {
      LowerTextComesFirst(x.s, y.s);
    }
  }

  /** Pre-releases of one version: the first different identifier decides, whatever follows. */
  lemma FirstIdentifierDecides(v: Version, p: seq<Identifier>, x: Identifier, y: Identifier, a: seq<Identifier>, b: seq<Identifier>)
    requires Lower(x, y)
    ensures Exceeds(v.(pre := p + ([y] + b)), v.(pre := p + ([x] + a)))
  {
    LowerComesFirst(x, y);
    IdentifierLeqIsTotalOrder();
    LexSkipsCommon(IdentifierLeq, p, [x] + a, [y] + b);
    LexSkipsCommon(IdentifierLeq, p, [y] + b, [x] + a);
  }

  /** A longer list of identifiers is higher when all the shorter one's are equal to its own. */
  lemma LongerListIsHigher(v: Version, p: seq<Identifier>, more: seq<Identifier>)
    requires p != [] && more != []
    ensures Exceeds(v.(pre := p + more), v.(pre := p))
  {
    assert p + [] == p;
    LexSkipsCommon(IdentifierLeq, p, [], more);
    LexSkipsCommon(IdentifierLeq, p, more, []);
  }

  /** All of section 11: b has the higher precedence. */
  ghost predicate Section11(a: Version, b: Version) {
    if a.major != b.major then a.major < b.major
    else if a.minor != b.minor then a.minor < b.minor
    else if a.patch != b.patch then a.patch < b.patch
    else if a.pre == [] || b.pre == [] then a.pre != [] && b.pre == []
    else LowerList(a.pre, b.pre)
  }

  ghost predicate LowerList(a: seq<Identifier>, b: seq<Identifier>) {
    exists n: nat :: n < |b| && n <= |a| && a[..n] == b[..n] && (n == |a| || Lower(a[n], b[n]))
  }

  lemma {:induction false} FirstDifference<T>(a: seq<T>, b: seq<T>) returns (n: nat)
    requires a != b
    ensures n <= |a| && n <= |b| && a[..n] == b[..n]
    ensures (n == |a| && n < |b|) || (n == |b| && n < |a|) || (n < |a| && n < |b| && a[n] != b[n])
  {
    if a == [] || b == [] || a[0] != b[0] {
      n := 0;
    } else {
      assert a == [a[0]] + a[1..] && b == [b[0]] + b[1..];
      var m := FirstDifference(a[1..], b[1..]);
      n := m + 1;
      assert a[..n] == [a[0]] + a[1..][..m] && b[..n] == [b[0]] + b[1..][..m];
    }
  }

  lemma LowerTextTotal(s: string, t: string)
    requires s != t
    ensures LowerText(s, t) || LowerText(t, s)
  {
    var n := FirstDifference(s, t);
    if n == |s| || (n < |t| && s[n] < t[n]) {
      assert n < |t| && s[..n] == t[..n];
    } else {
      assert n < |s| && t[..n] == s[..n] && (n == |t| || t[n] < s[n]);
    }
  }

  lemma LowerTotal(x: Identifier, y: Identifier)
    requires x != y
    ensures Lower(x, y) || Lower(y, x)
  {
    if x.Alphanumeric? && y.Alphanumeric? {
      LowerTextTotal(x.s, y.s);
    }
  }

  lemma LowerListTotal(a: seq<Identifier>, b: seq<Identifier>)
    requires a != b
    ensures LowerList(a, b) || LowerList(b, a)
  {
    var n := FirstDifference(a, b);
    if n < |a| && n < |b| {
      LowerTotal(a[n], b[n]);
    }
  }

  lemma Parts<T>(s: seq<T>, n: nat)
    requires n < |s|
    ensures s == s[..n] + ([s[n]] + s[n + 1..])
  {
  }

  lemma LowerListIsExceeded(v: Version, a: seq<Identifier>, b: seq<Identifier>)
    requires a != [] && b != [] && LowerList(a, b)
    ensures Exceeds(v.(pre := b), v.(pre := a))
  {
    var n: nat :| n < |b| && n <= |a| && a[..n] == b[..n] && (n == |a| || Lower(a[n], b[n]));
    LowerAtIsExceeded(v, a, b, n);
  }

  lemma LowerAtIsExceeded(v: Version, a: seq<Identifier>, b: seq<Identifier>, n: nat)
    requires a != [] && n < |b| && n <= |a| && a[..n] == b[..n] && (n == |a| || Lower(a[n], b[n]))
    ensures Exceeds(v.(pre := b), v.(pre := a))
  {
    if n == |a| {
      assert a[..n] == a && b == b[..n] + b[n..];
      LongerListIsHigher(v, a, b[n..]);
    } else {
      Parts(a, n);
      Parts(b, n);
      FirstIdentifierDecides(v, a[..n], a[n], b[n], a[n + 1..], b[n + 1..]);
    }
  }

  lemma Section11IsExceeded(a: Version, b: Version)
    requires Section11(a, b)
    ensures Exceeds(b, a)
  {
    NumbersDecide(a, b);
    if a.major == b.major && a.minor == b.minor && a.patch == b.patch && a.pre != [] && b.pre != [] {
      LowerListIsExceeded(a, a.pre, b.pre);
    }
  }

  /** The order is that of section 11, in both directions. */
  lemma PrecedenceIsSection11(a: Version, b: Version)
    ensures Exceeds(b, a) <==> Section11(a, b)
  {
    if Section11(a, b) {
      Section11IsExceeded(a, b);
    } else if Exceeds(b, a) {
      if a.pre != b.pre {
        LowerListTotal(a.pre, b.pre);
      }
      EqualPrecedence(a, b);
      Section11IsExceededBack(a, b);
    }
  }

  lemma Section11IsExceededBack(a: Version, b: Version)
    ensures Section11(b, a) ==> Exceeds(a, b)
  {
    if Section11(b, a) {
      Section11IsExceeded(b, a);
    }
  }
}
