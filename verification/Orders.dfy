/** Total (pre)orders, the lexicographic order on sequences, and sorting by an order.
    Go's sort.Strings and sort.Sort are library calls: SortBy stands for them, and what
    the operator relies on is only that the result is sorted and is a permutation. */
module Orders {

  ghost predicate Total<T(!new)>(le: (T, T) -> bool) {
    forall x, y :: le(x, y) || le(y, x)
  }

  ghost predicate Transitive<T(!new)>(le: (T, T) -> bool) {
    forall x, y, z :: le(x, y) && le(y, z) ==> le(x, z)
  }

  ghost predicate AntiSymmetric<T(!new)>(le: (T, T) -> bool) {
    forall x, y :: le(x, y) && le(y, x) ==> x == y
  }

  ghost predicate TotalPreorder<T(!new)>(le: (T, T) -> bool) {
    Total(le) && Transitive(le)
  }

  ghost predicate TotalOrder<T(!new)>(le: (T, T) -> bool) {
    TotalPreorder(le) && AntiSymmetric(le)
  }

  // ---------- the lexicographic order ----------

  predicate Lex<T(==)>(le: (T, T) -> bool, a: seq<T>, b: seq<T>) {
    a == [] ||
    (b != [] && if a[0] == b[0] then Lex(le, a[1..], b[1..]) else le(a[0], b[0]))
  }

  lemma {:induction false} LexTotal<T(!new)>(le: (T, T) -> bool, a: seq<T>, b: seq<T>)
    requires Total(le)
    ensures Lex(le, a, b) || Lex(le, b, a)
  {
    if a != [] && b != [] && a[0] == b[0] {
      LexTotal(le, a[1..], b[1..]);
    }
  }

  lemma {:induction false} LexAntiSymmetric<T(!new)>(le: (T, T) -> bool, a: seq<T>, b: seq<T>)
    requires AntiSymmetric(le)
    requires Lex(le, a, b) && Lex(le, b, a)
    ensures a == b
  {
    if a != [] && b != [] {
      assert a[0] == b[0];
      LexAntiSymmetric(le, a[1..], b[1..]);
      assert a == [a[0]] + a[1..] && b == [b[0]] + b[1..];
    }
  }

  lemma {:induction false} LexTransitive<T(!new)>(le: (T, T) -> bool, a: seq<T>, b: seq<T>, c: seq<T>)
    requires TotalOrder(le)
    requires Lex(le, a, b) && Lex(le, b, c)
    ensures Lex(le, a, c)
  {
    if a != [] {
      if a[0] == b[0] == c[0] {
        LexTransitive(le, a[1..], b[1..], c[1..]);
      } else {
        assert le(a[0], a[0]);
        assert le(a[0], b[0]) && le(b[0], c[0]);
        assert a[0] != c[0];
      }
    }
  }

  // ---------- the order of sort.Strings ----------

  predicate CharLeq(x: char, y: char) {
    x <= y
  }

  /** Byte order of UTF-8 text, which is code point order. */
  predicate StringLeq(a: string, b: string) {
    Lex(CharLeq, a, b)
  }

  lemma StringLeqIsTotalOrder()
    ensures TotalOrder(StringLeq)
  {
    forall a: string, b: string ensures StringLeq(a, b) || StringLeq(b, a) {
      LexTotal(CharLeq, a, b);
    }
    forall a: string, b: string | StringLeq(a, b) && StringLeq(b, a) ensures a == b {
      LexAntiSymmetric(CharLeq, a, b);
    }
    forall a: string, b: string, c: string | StringLeq(a, b) && StringLeq(b, c) ensures StringLeq(a, c) {
      LexTransitive(CharLeq, a, b, c);
    }
  }

  lemma {:induction false} LexSkipsCommon<T>(le: (T, T) -> bool, p: seq<T>, a: seq<T>, b: seq<T>)
    ensures Lex(le, p + a, p + b) <==> Lex(le, a, b)
  {
    if p == [] {
      assert p + a == a && p + b == b;
    } else {
      LexSkipsCommon(le, p[1..], a, b);
      assert (p + a)[1..] == p[1..] + a && (p + b)[1..] == p[1..] + b;
    }
  }

  /** The first different character decides, whatever follows, and a prefix comes first. */
  lemma StringOrder(p: string, x: char, y: char, a: string, b: string)
    requires x < y
    ensures StringLeq(p + [x] + a, p + [y] + b) && !StringLeq(p + [y] + b, p + [x] + a)
    ensures StringLeq(p, p + [x] + a) && !StringLeq(p + [x] + a, p)
  {
    assert p + [x] + a == p + ([x] + a) && p + [y] + b == p + ([y] + b);
    LexSkipsCommon(CharLeq, p, [x] + a, [y] + b);
    LexSkipsCommon(CharLeq, p, [y] + b, [x] + a);
    assert p + [] == p;
    LexSkipsCommon(CharLeq, p, [], [x] + a);
    LexSkipsCommon(CharLeq, p, [x] + a, []);
  }

  // ---------- sorting ----------

  ghost predicate Sorted<T>(le: (T, T) -> bool, s: seq<T>) {
    forall i, j :: 0 <= i < j < |s| ==> le(s[i], s[j])
  }

  function Insert<T>(le: (T, T) -> bool, x: T, s: seq<T>): seq<T> {
    if s == [] then [x]
    else if le(x, s[0]) then [x] + s
    else [s[0]] + Insert(le, x, s[1..])
  }

  function SortBy<T>(le: (T, T) -> bool, s: seq<T>): seq<T> {
    if s == [] then [] else Insert(le, s[0], SortBy(le, s[1..]))
  }

  lemma {:induction false} InsertPermutes<T>(le: (T, T) -> bool, x: T, s: seq<T>)
    ensures multiset(Insert(le, x, s)) == multiset{x} + multiset(s)
  {
    if s != [] && !le(x, s[0]) {
      InsertPermutes(le, x, s[1..]);
      assert s == [s[0]] + s[1..];
    }
  }

  lemma SortedCons<T(!new)>(le: (T, T) -> bool, x: T, s: seq<T>)
    requires Sorted(le, s) && forall y :: y in multiset(s) ==> le(x, y)
    ensures Sorted(le, [x] + s)
  {
    var t := [x] + s;
    forall i, j | 0 <= i < j < |t| ensures le(t[i], t[j]) {
      assert t[j] == s[j - 1] && s[j - 1] in multiset(s);
      assert i == 0 || t[i] == s[i - 1];
    }
  }

  lemma HeadBelow<T(!new)>(le: (T, T) -> bool, x: T, s: seq<T>)
    requires TotalPreorder(le) && Sorted(le, s) && s != [] && le(x, s[0])
    ensures forall y :: y in multiset(s) ==> le(x, y)
  {
    forall y | y in multiset(s) ensures le(x, y) {
      var j :| 0 <= j < |s| && s[j] == y;
      assert j == 0 || le(s[0], s[j]);
    }
  }

  lemma {:induction false} InsertSorts<T(!new)>(le: (T, T) -> bool, x: T, s: seq<T>)
    requires TotalPreorder(le) && Sorted(le, s)
    ensures Sorted(le, Insert(le, x, s))
  {
    if s == [] {
    } else if le(x, s[0]) {
      HeadBelow(le, x, s);
      SortedCons(le, x, s);
    } else {
      InsertSorts(le, x, s[1..]);
      InsertPermutes(le, x, s[1..]);
      assert le(s[0], s[0]) && le(s[0], x);
      HeadBelow(le, s[0], s);
      assert s == [s[0]] + s[1..];
      SortedCons(le, s[0], Insert(le, x, s[1..]));
    }
  }

  lemma {:induction false} SortBySorts<T(!new)>(le: (T, T) -> bool, s: seq<T>)
    requires TotalPreorder(le)
    ensures Sorted(le, SortBy(le, s)) && multiset(SortBy(le, s)) == multiset(s)
  {
    if s != [] {
      SortBySorts(le, s[1..]);
      InsertSorts(le, s[0], SortBy(le, s[1..]));
      InsertPermutes(le, s[0], SortBy(le, s[1..]));
      assert s == [s[0]] + s[1..];
    }
  }

  lemma HeadIsLeast<T(!new)>(le: (T, T) -> bool, s: seq<T>, x: T)
    requires TotalOrder(le) && Sorted(le, s) && x in multiset(s)
    ensures s != [] && le(s[0], x)
  {
    var i :| 0 <= i < |s| && s[i] == x;
    assert le(x, x);
  }

  lemma TailMultiset<T>(s: seq<T>)
    requires s != []
    ensures multiset(s[1..]) == multiset(s) - multiset{s[0]}
  {
    assert s == [s[0]] + s[1..];
  }

  /** A total order leaves a sort no choice, whatever order its input came in. */
  lemma {:induction false} SortedUnique<T(!new)>(le: (T, T) -> bool, a: seq<T>, b: seq<T>)
    requires TotalOrder(le)
    requires Sorted(le, a) && Sorted(le, b) && multiset(a) == multiset(b)
    ensures a == b
  {
    if a == [] {
      assert |b| == |multiset(b)| == 0;
    } else {
      HeadsAgree(le, a, b);
      TailMultiset(a);
      TailMultiset(b);
      SortedUnique(le, a[1..], b[1..]);
      assert a == [a[0]] + a[1..] && b == [b[0]] + b[1..];
    }
  }

  lemma HeadsAgree<T(!new)>(le: (T, T) -> bool, a: seq<T>, b: seq<T>)
    requires TotalOrder(le)
    requires Sorted(le, a) && Sorted(le, b) && multiset(a) == multiset(b)
    requires a != []
    ensures b != [] && a[0] == b[0]
  {
    assert a[0] in multiset(a);
    HeadIsLeast(le, b, a[0]);
    assert b[0] in multiset(b);
    HeadIsLeast(le, a, b[0]);
  }
}
