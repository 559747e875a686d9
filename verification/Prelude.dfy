/**
 Vocabulary shared by the models: optional values, results, counting,
 filtering, stable sorting and the lexicographic order of strings.
 */
module Prelude {

  datatype Option<+T> = None | Some(value: T)

  /** A failure-compatible result, so that `:-` propagates an error like `?` does. */
  datatype Result<+T, +E> = Ok(value: T) | Err(error: E) {
    predicate IsFailure() { Err? }

    function PropagateFailure<U>(): Result<U, E>
      requires Err?
    {
      Err(error)
    }

    function Extract(): T
      requires Ok?
    {
      value
    }
  }

  function Min(a: int, b: int): int { if a <= b then a else b }

  function Max(a: int, b: int): int { if a >= b then a else b }

  /** The `clamp` of the Rust standard library. */
  function Clamp(x: int, lo: int, hi: int): int { Max(lo, Min(x, hi)) }

  // ---- Counting and filtering ---------------------------------------------

  /** How many elements of `s` satisfy `p`. */
  function CountWhere<T>(s: seq<T>, p: T -> bool): nat {
    if s == [] then 0 else (if p(s[0]) then 1 else 0) + CountWhere(s[1..], p)
  }

  lemma {:induction false} CountWhereAppend<T>(a: seq<T>, b: seq<T>, p: T -> bool)
    ensures CountWhere(a + b, p) == CountWhere(a, p) + CountWhere(b, p)
  {
    if a == [] {
      assert a + b == b;
    } else {
      assert (a + b)[1..] == a[1..] + b;
      CountWhereAppend(a[1..], b, p);
    }
  }

  /** Replacing one element moves the count by the difference at that element. */
  lemma {:induction false} CountWhereUpdate<T>(s: seq<T>, i: nat, x: T, p: T -> bool)
    requires i < |s|
    ensures CountWhere(s[i := x], p)
         == CountWhere(s, p) - (if p(s[i]) then 1 else 0) + (if p(x) then 1 else 0)
  {
    if i == 0 {
      assert s[0 := x][1..] == s[1..];
    } else {
      assert s[i := x][1..] == s[1..][i - 1 := x];
      CountWhereUpdate(s[1..], i - 1, x, p);
    }
  }

  lemma {:induction false} CountWherePositive<T>(s: seq<T>, p: T -> bool)
    ensures CountWhere(s, p) > 0 <==> exists i :: 0 <= i < |s| && p(s[i])
  {
    if s != [] {
      CountWherePositive(s[1..], p);
      assert forall i :: 0 <= i < |s[1..]| ==> s[1..][i] == s[i + 1];
      if i :| 0 <= i < |s| && p(s[i]) && i != 0 {
        assert p(s[1..][i - 1]);
      }
    }
  }

  /** The elements of `s` that satisfy `p`, in order. */
  function Filter<T>(s: seq<T>, p: T -> bool): (r: seq<T>)
    ensures |r| <= |s|
    ensures forall x :: x in r ==> x in s && p(x)
    ensures forall x :: x in s && p(x) ==> x in r
  {
    if s == [] then [] else
    assert s == [s[0]] + s[1..];
    (if p(s[0]) then [s[0]] else []) + Filter(s[1..], p)
  }

  lemma {:induction false} FilterAppend<T>(a: seq<T>, b: seq<T>, p: T -> bool)
    ensures Filter(a + b, p) == Filter(a, p) + Filter(b, p)
  {
    if a == [] {
      assert a + b == b;
    } else {
      assert (a + b)[1..] == a[1..] + b;
      FilterAppend(a[1..], b, p);
    }
  }

  lemma FilterLast<T>(s: seq<T>, x: T, p: T -> bool)
    ensures Filter(s + [x], p) == Filter(s, p) + (if p(x) then [x] else [])
  {
    FilterAppend(s, [x], p);
    assert Filter([x][1..], p) == [];
  }

  /** Filtering keeps all copies of an element or none. */
  lemma {:induction false} FilterMultiplicity<T>(s: seq<T>, p: T -> bool, x: T)
    ensures multiset(Filter(s, p))[x] == if p(x) then multiset(s)[x] else 0
  {
    if s != [] {
      var h, rest := s[0], Filter(s[1..], p);
      FilterMultiplicity(s[1..], p, x);
      assert s == [h] + s[1..];
      assert multiset(s)[x] == multiset(s[1..])[x] + (if h == x then 1 else 0);
      if p(h) {
        assert Filter(s, p) == [h] + rest;
        assert multiset([h] + rest)[x] == multiset(rest)[x] + (if h == x then 1 else 0);
      } else {
        assert Filter(s, p) == rest;
      }
    }
  }

  /** The first occurrence of each element. */
  function Dedup<T(==)>(s: seq<T>): (r: seq<T>)
    ensures forall x :: x in r ==> x in s
    ensures forall x :: x in s ==> x in r
  {
    if s == [] then [] else
    var front, last := s[..|s| - 1], s[|s| - 1];
    assert s == front + [last];
    if last in Dedup(front) then Dedup(front) else Dedup(front) + [last]
  }

  ghost predicate Distinct<T>(s: seq<T>) { forall i, j :: 0 <= i < j < |s| ==> s[i] != s[j] }

  lemma {:induction false} DedupDistinct<T>(s: seq<T>)
    ensures Distinct(Dedup(s))
    ensures Distinct(s) ==> Dedup(s) == s
  {
    if s != [] {
      var front, last := s[..|s| - 1], s[|s| - 1];
      assert s == front + [last];
      DedupDistinct(front);
      DistinctAppend(front, last);
      DistinctAppend(Dedup(front), last);
    }
  }

  lemma DistinctAppend<T>(s: seq<T>, x: T)
    ensures Distinct(s + [x]) <==> Distinct(s) && x !in s
  {
    var r := s + [x];
    assert r[|s|] == x;
    if Distinct(r) {
      forall i | 0 <= i < |s| ensures s[i] != x { assert r[i] != r[|s|]; }
      forall i, j | 0 <= i < j < |s| ensures s[i] != s[j] { assert r[i] != r[j]; }
    }
  }

  /** Filters that agree on the elements of a sequence select the same. */
  lemma {:induction false} FilterAgree<T>(s: seq<T>, p: T -> bool, q: T -> bool)
    requires forall x :: x in s ==> p(x) == q(x)
    ensures Filter(s, p) == Filter(s, q)
  {
    if s != [] {
      assert s[0] in s;
      assert forall x :: x in s[1..] ==> x in s;
      FilterAgree(s[1..], p, q);
    }
  }

  function Both<T>(p: T -> bool, q: T -> bool): T -> bool { (x: T) => p(x) && q(x) }

  lemma {:induction false} FilterTwice<T>(s: seq<T>, p: T -> bool, q: T -> bool)
    ensures Filter(Filter(s, p), q) == Filter(s, Both(p, q))
  {
    if s != [] {
      var rest := Filter(s[1..], p);
      FilterTwice(s[1..], p, q);
      if p(s[0]) {
        assert Filter(s, p) == [s[0]] + rest;
        assert ([s[0]] + rest)[1..] == rest;
      } else {
        assert Filter(s, p) == rest;
      }
    }
  }

  lemma DedupLast<T>(s: seq<T>, x: T)
    ensures Dedup(s + [x]) == if x in s then Dedup(s) else Dedup(s) + [x]
  {
    assert (s + [x])[..|s|] == s;
  }

  function Unlike<T(==)>(x: T): T -> bool { (y: T) => y != x }

  lemma DedupHeadStep<T>(x: T, front: seq<T>, last: T)
    requires Dedup([x] + front) == [x] + Dedup(Filter(front, Unlike(x)))
    ensures Dedup([x] + front + [last]) == [x] + Dedup(Filter(front + [last], Unlike(x)))
  {
    var f := Filter(front, Unlike(x));
    FilterLast(front, last, Unlike(x));
    DedupLast([x] + front, last);
    if last == x {
      assert f + [] == f;
    } else {
      DedupLast(f, last);
      assert last in [x] + front <==> last in front;
      assert last in f <==> last in front;
      ConcatAssoc([x], Dedup(f), [last]);
    }
  }

  lemma DedupHeadLast<T>(x: T, s: seq<T>)
    requires s != [] && Dedup([x] + s[..|s| - 1]) == [x] + Dedup(Filter(s[..|s| - 1], Unlike(x)))
    ensures Dedup([x] + s) == [x] + Dedup(Filter(s, Unlike(x)))
  {
    var front, last := s[..|s| - 1], s[|s| - 1];
    assert s == front + [last];
    ConcatAssoc([x], front, [last]);
    DedupHeadStep(x, front, last);
  }

  /** The first element comes first, and the rest follows without it. */
  lemma {:induction false} DedupHead<T>(x: T, s: seq<T>)
    ensures Dedup([x] + s) == [x] + Dedup(Filter(s, Unlike(x)))
    decreases |s|
  {
    if s == [] {
      DedupOne(x);
    } else {
      DedupHead(x, s[..|s| - 1]);
      DedupHeadLast(x, s);
    }
  }

  lemma DedupOne<T>(x: T)
    ensures Dedup([x] + []) == [x] + Dedup(Filter([], Unlike(x)))
  {
    var none: seq<T> := [];
    DedupLast(none, x);
    assert none + [x] == [x] + none;
    assert Dedup(none) == none && Dedup(Filter(none, Unlike(x))) == none;
  }

  lemma {:induction false} AtMostOnce<T>(s: seq<T>, x: T)
    requires Distinct(s)
    ensures multiset(s)[x] == if x in s then 1 else 0
  {
    if s != [] {
      AtMostOnce(s[1..], x);
      assert s == [s[0]] + s[1..];
      assert multiset(s)[x] == multiset(s[1..])[x] + (if s[0] == x then 1 else 0);
      assert s[0] !in s[1..];
    }
  }

  lemma TwiceCounted<T>(s: seq<T>, i: nat, j: nat)
    requires i < j < |s| && s[i] == s[j]
    ensures multiset(s)[s[i]] >= 2
  {
    assert s == s[..j] + [s[j]] + s[j + 1..];
    assert s[..j][i] == s[i];
    assert s[i] in multiset(s[..j]);
  }

  function TakeFirst<T>(s: seq<T>, n: nat): (r: seq<T>)
    ensures |r| == Min(|s|, n) && r == s[..|r|]
  {
    s[..Min(|s|, n)]
  }

  lemma ConcatAssoc<T>(a: seq<T>, b: seq<T>, c: seq<T>)
    ensures a + (b + c) == (a + b) + c
  {
  }

  // ---- Orders and stable sorting ------------------------------------------

  ghost predicate TotalPreorder<T(!new)>(le: (T, T) -> bool) {
    && (forall x, y :: le(x, y) || le(y, x))
    && (forall x, y, z :: le(x, y) && le(y, z) ==> le(x, z))
  }

  /** No two different elements of `s` compare as equal. */
  ghost predicate SeparatesElements<T>(le: (T, T) -> bool, s: seq<T>) {
    forall x, y :: x in s && y in s && le(x, y) && le(y, x) ==> x == y
  }

  ghost predicate SortedBy<T>(s: seq<T>, le: (T, T) -> bool) {
    forall i, j :: 0 <= i < j < |s| ==> le(s[i], s[j])
  }

  /** Places `x` before the first element that is not smaller than it. */
  function InsertSorted<T>(x: T, s: seq<T>, le: (T, T) -> bool): (r: seq<T>)
    ensures multiset(r) == multiset{x} + multiset(s)
  {
    if s == [] || le(x, s[0]) then
      [x] + s
    else
      assert s == [s[0]] + s[1..];
      [s[0]] + InsertSorted(x, s[1..], le)
  }

  /** `sort_by`: the stable sort of the Rust standard library. */
  function SortBy<T>(s: seq<T>, le: (T, T) -> bool): (r: seq<T>)
    ensures multiset(r) == multiset(s)
    ensures |r| == |s|
    ensures forall x :: x in r ==> x in s
    ensures forall x :: x in s ==> x in r
  {
    if s == [] then [] else
    assert s == [s[0]] + s[1..];
    var r := InsertSorted(s[0], SortBy(s[1..], le), le);
    MultisetFacts(r, s);
    r
  }

  lemma MultisetFacts<T>(a: seq<T>, b: seq<T>)
    requires multiset(a) == multiset(b)
    ensures |a| == |b|
    ensures forall x :: x in a ==> x in b
    ensures forall x :: x in b ==> x in a
  {
    assert |multiset(a)| == |multiset(b)|;
    forall x | x in a ensures x in b { assert x in multiset(a); }
    forall x | x in b ensures x in a { assert x in multiset(b); }
  }

  lemma {:induction false} InsertKeepsSorted<T(!new)>(x: T, s: seq<T>, le: (T, T) -> bool)
    requires TotalPreorder(le) && SortedBy(s, le)
    ensures SortedBy(InsertSorted(x, s, le), le)
  {
    var r := InsertSorted(x, s, le);
    if s != [] && !le(x, s[0]) {
      var tail := InsertSorted(x, s[1..], le);
      InsertKeepsSorted(x, s[1..], le);
      forall j | 0 <= j < |tail| ensures le(s[0], tail[j]) {
        assert tail[j] in multiset(tail);
        assert tail[j] == x || tail[j] in s[1..];
      }
      assert r == [s[0]] + tail;
    } else if s != [] {
      assert r == [x] + s;
      forall j | 1 <= j < |r| ensures le(x, r[j]) {
        assert j == 1 || le(s[0], s[j - 1]);
      }
    }
  }

  lemma {:induction false} SortBySorts<T(!new)>(s: seq<T>, le: (T, T) -> bool)
    requires TotalPreorder(le)
    ensures SortedBy(SortBy(s, le), le)
  {
    if s != [] {
      SortBySorts(s[1..], le);
      InsertKeepsSorted(s[0], SortBy(s[1..], le), le);
    }
  }

  /** A sequence that is already sorted is what sorting returns. */
  lemma {:induction false} SortBySorted<T(!new)>(s: seq<T>, le: (T, T) -> bool)
    requires TotalPreorder(le) && SortedBy(s, le)
    ensures SortBy(s, le) == s
  {
    if s != [] {
      assert SortedBy(s[1..], le);
      SortBySorted(s[1..], le);
      assert |s| > 1 ==> le(s[0], s[1]);
    }
  }

  lemma HeadIsLeast<T(!new)>(a: seq<T>, x: T, le: (T, T) -> bool)
    requires TotalPreorder(le) && SortedBy(a, le) && x in a
    ensures le(a[0], x)
  {
    var k :| 0 <= k < |a| && a[k] == x;
  }

  lemma TailMultiset<T>(a: seq<T>)
    requires a != []
    ensures multiset(a[1..]) == multiset(a) - multiset{a[0]}
  {
    assert a == [a[0]] + a[1..];
  }

  lemma HeadsAgree<T(!new)>(a: seq<T>, b: seq<T>, le: (T, T) -> bool)
    requires TotalPreorder(le) && SortedBy(a, le) && SortedBy(b, le)
    requires a != [] && b != [] && a[0] in b && b[0] in a && SeparatesElements(le, a)
    ensures a[0] == b[0]
  {
    HeadIsLeast(a, b[0], le);
    HeadIsLeast(b, a[0], le);
  }

  lemma TailInherits<T>(a: seq<T>, le: (T, T) -> bool)
    requires a != [] && SortedBy(a, le) && SeparatesElements(le, a)
    ensures SortedBy(a[1..], le) && SeparatesElements(le, a[1..])
  {
    assert forall x :: x in a[1..] ==> x in a;
  }

  lemma TailsAgree<T>(a: seq<T>, b: seq<T>)
    requires a != [] && b != [] && a[0] == b[0] && multiset(a) == multiset(b)
    ensures multiset(a[1..]) == multiset(b[1..])
    ensures a[1..] == b[1..] ==> a == b
  {
    TailMultiset(a);
    TailMultiset(b);
    assert a == [a[0]] + a[1..] && b == [b[0]] + b[1..];
  }

  /** Two sorted arrangements of the same elements are the same sequence. */
  lemma {:induction false} SortedUnique<T(!new)>(a: seq<T>, b: seq<T>, le: (T, T) -> bool)
    requires TotalPreorder(le) && SortedBy(a, le) && SortedBy(b, le)
    requires multiset(a) == multiset(b) && SeparatesElements(le, a) && SeparatesElements(le, b)
    ensures a == b
  {
    MultisetFacts(a, b);
    if a != [] {
      HeadsAgree(a, b, le);
      TailsAgree(a, b);
      TailInherits(a, le);
      TailInherits(b, le);
      SortedUnique(a[1..], b[1..], le);
    }
  }

  /** Sorting forgets the order its input came in. */
  lemma SortByPermutation<T(!new)>(a: seq<T>, b: seq<T>, le: (T, T) -> bool)
    requires TotalPreorder(le) && multiset(a) == multiset(b) && SeparatesElements(le, a)
    ensures SortBy(a, le) == SortBy(b, le)
  {
    SortBySorts(a, le);
    SortBySorts(b, le);
    MultisetFacts(a, b);
    SortedUnique(SortBy(a, le), SortBy(b, le), le);
  }

  // ---- Strings --------------------------------------------------------------

  /** Order of `str`: UTF-8 compares like the sequence of code points. */
  predicate LexLe(a: string, b: string) {
    a == [] || (b != [] && (a[0] < b[0] || (a[0] == b[0] && LexLe(a[1..], b[1..]))))
  }

  lemma {:induction false} LexTotal(a: string, b: string)
    ensures LexLe(a, b) || LexLe(b, a)
    ensures LexLe(a, b) && LexLe(b, a) ==> a == b
  {
    if a != [] && b != [] {
      LexTotal(a[1..], b[1..]);
      assert a == [a[0]] + a[1..] && b == [b[0]] + b[1..];
    }
  }

  lemma {:induction false} LexTransitive(a: string, b: string, c: string)
    requires LexLe(a, b) && LexLe(b, c)
    ensures LexLe(a, c)
  {
    if a != [] && b != [] && a[0] == b[0] && b[0] == c[0] {
      LexTransitive(a[1..], b[1..], c[1..]);
    }
  }

  lemma LexOrder()
    ensures TotalPreorder(LexLe)
    ensures forall a, b :: LexLe(a, b) && LexLe(b, a) ==> a == b
  {
    forall a, b ensures LexLe(a, b) || LexLe(b, a) { LexTotal(a, b); }
    forall a, b, c | LexLe(a, b) && LexLe(b, c) ensures LexLe(a, c) { LexTransitive(a, b, c); }
    forall a, b | LexLe(a, b) && LexLe(b, a) ensures a == b { LexTotal(a, b); }
  }

  /** Characters with the Unicode property White_Space, which `trim` removes. */
  predicate IsWhitespace(c: char) {
    var n := c as int;
    || 9 <= n <= 13 || n == 32 || n == 0x85 || n == 0xA0 || n == 0x1680
    || 0x2000 <= n <= 0x200A || n == 0x2028 || n == 0x2029 || n == 0x202F
    || n == 0x205F || n == 0x3000
  }

  function TrimStart(s: string): (r: string)
    ensures |r| <= |s| && r == s[|s| - |r|..]
    ensures r == [] || !IsWhitespace(r[0])
  {
    if s != [] && IsWhitespace(s[0]) then TrimStart(s[1..]) else s
  }

  function TrimEnd(s: string): (r: string)
    ensures |r| <= |s| && r == s[..|r|]
    ensures r == [] || !IsWhitespace(r[|r| - 1])
  {
    if s != [] && IsWhitespace(s[|s| - 1]) then TrimEnd(s[..|s| - 1]) else s
  }

  function Trim(s: string): (r: string) { TrimEnd(TrimStart(s)) }

  /** `trim` is the identity exactly on strings with no outer whitespace. */
  lemma TrimFixpoint(s: string)
    ensures Trim(s) == s <==> s == [] || (!IsWhitespace(s[0]) && !IsWhitespace(s[|s| - 1]))
  {
    if s != [] && IsWhitespace(s[0]) {
      assert |TrimStart(s)| < |s|;
    } else if s != [] && IsWhitespace(s[|s| - 1]) {
      assert TrimStart(s) == s;
      assert |TrimEnd(s)| < |s|;
    }
  }

  predicate IsBlank(s: string) { Trim(s) == [] }

  lemma {:induction false} TrimEndBlank(s: string)
    requires TrimEnd(s) == []
    ensures forall i :: 0 <= i < |s| ==> IsWhitespace(s[i])
  {
    if s != [] {
      TrimEndBlank(s[..|s| - 1]);
      assert s == s[..|s| - 1] + [s[|s| - 1]];
    }
  }

  /** A string that starts with a visible character is not blank. */
  lemma VisibleStart(s: string)
    requires s != [] && !IsWhitespace(s[0])
    ensures !IsBlank(s)
  {
    if TrimEnd(s) == [] { TrimEndBlank(s); }
  }

  /** Decimal digits, as formatting prints a number. */
  function Decimal(n: nat): (s: string)
    ensures s != []
  {
    if n < 10 then [('0' as int + n) as char] else Decimal(n / 10) + [('0' as int + n % 10) as char]
  }

  /** `replace` with a single character to look for. */
  function ReplaceChar(s: string, c: char, with: string): string {
    if s == [] then [] else (if s[0] == c then with else [s[0]]) + ReplaceChar(s[1..], c, with)
  }

  lemma {:induction false} ReplaceAppend(a: string, b: string, c: char, with: string)
    ensures ReplaceChar(a + b, c, with) == ReplaceChar(a, c, with) + ReplaceChar(b, c, with)
  {
    if a == [] {
      assert a + b == b;
    } else {
      var head := if a[0] == c then with else [a[0]];
      assert (a + b)[0] == a[0] && (a + b)[1..] == a[1..] + b;
      ReplaceAppend(a[1..], b, c, with);
      ConcatAssoc(head, ReplaceChar(a[1..], c, with), ReplaceChar(b, c, with));
    }
  }

  lemma ReplaceOne(x: char, c: char, with: string)
    ensures ReplaceChar([x], c, with) == if x == c then with else [x]
  {
    assert ReplaceChar([x][1..], c, with) == [];
  }
}
