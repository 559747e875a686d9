/**
 Knowledge claims: LIKE patterns built from query terms, the SQL filter against
 the in-memory relevance score, and the four buckets of a narrative plan.
 */
module ClaimGraph {
  import opened Prelude

  // ---- LIKE with a backslash as escape character ----------------------------------

  function AsciiLowerChar(c: char): char {
    if 'A' <= c <= 'Z' then ((c as int) + 32) as char else c
  }

  /** `LOWER` of SQLite, which folds ASCII letters only. */
  function AsciiLower(s: string): (r: string)
    ensures |r| == |s|
    ensures forall i :: 0 <= i < |s| ==> r[i] == AsciiLowerChar(s[i])
  {
    seq(|s|, i requires 0 <= i < |s| => AsciiLowerChar(s[i]))
  }

  predicate NoUpper(s: string) { forall i :: 0 <= i < |s| ==> !('A' <= s[i] <= 'Z') }

  predicate IsAscii(s: string) { forall i :: 0 <= i < |s| ==> s[i] < '\U{80}' }

  /** Three replacements, the escape character first. */
  function EscapeLike(t: string): string {
    ReplaceChar(ReplaceChar(ReplaceChar(t, '\\', "\\\\"), '%', "\\%"), '_', "\\_")
  }

  function LikePattern(t: string): string { "%" + EscapeLike(t) + "%" }

  /** The LIKE operator of SQLite: `%`, `_`, a backslash escape, ASCII letters without case. */
  predicate Like(p: string, s: string)
    decreases |p|, |s|
  {
    if p == [] then s == []
    else if p[0] == '%' then Like(p[1..], s) || (s != [] && Like(p, s[1..]))
    else if p[0] == '_' then s != [] && Like(p[1..], s[1..])
    else if p[0] == '\\' then
      |p| >= 2 && s != [] && AsciiLowerChar(p[1]) == AsciiLowerChar(s[0]) && Like(p[2..], s[1..])
    else
      s != [] && AsciiLowerChar(p[0]) == AsciiLowerChar(s[0]) && Like(p[1..], s[1..])
  }

  predicate OccursAt(s: string, t: string, i: nat) { i + |t| <= |s| && s[i..i + |t|] == t }

  predicate Contains(s: string, t: string) { exists i: nat :: i <= |s| && OccursAt(s, t, i) }

  /** What one character becomes when all three replacements are done. */
  function EscapeChar(c: char): string {
    if c == '\\' || c == '%' || c == '_' then ['\\', c] else [c]
  }

  lemma ReplaceTwo(x: char, y: char, c: char, with: string)
    requires x != c && y != c
    ensures ReplaceChar([x, y], c, with) == [x, y]
  {
    ReplaceOne(y, c, with);
    assert [x, y][1..] == [y];
  }

  /** The later passes never touch the backslashes that the earlier ones wrote. */
  lemma EscapeSingle(x: char)
    ensures EscapeLike([x]) == EscapeChar(x)
  {
    ReplaceOne(x, '\\', "\\\\");
    if x == '\\' {
      ReplaceTwo('\\', '\\', '%', "\\%");
      ReplaceTwo('\\', '\\', '_', "\\_");
    } else {
      ReplaceOne(x, '%', "\\%");
      if x == '%' {
        ReplaceTwo('\\', '%', '_', "\\_");
      } else {
        ReplaceOne(x, '_', "\\_");
      }
    }
  }

  lemma EscapeUnfold(t: string)
    requires t != []
    ensures EscapeLike(t) == EscapeChar(t[0]) + EscapeLike(t[1..])
  {
    var a, b := [t[0]], t[1..];
    assert t == a + b;
    ReplaceAppend(a, b, '\\', "\\\\");
    var a1, b1 := ReplaceChar(a, '\\', "\\\\"), ReplaceChar(b, '\\', "\\\\");
    ReplaceAppend(a1, b1, '%', "\\%");
    ReplaceAppend(ReplaceChar(a1, '%', "\\%"), ReplaceChar(b1, '%', "\\%"), '_', "\\_");
    EscapeSingle(t[0]);
  }

  lemma LikeChar(c: char, p: string, s: string)
    ensures Like(EscapeChar(c) + p, s) <==>
            s != [] && AsciiLowerChar(c) == AsciiLowerChar(s[0]) && Like(p, s[1..])
  {
    var q := EscapeChar(c) + p;
    if |EscapeChar(c)| == 2 {
      assert q[2..] == p;
    } else {
      assert q[1..] == p;
    }
  }

  /** An escaped term in a pattern stands for itself and nothing else. */
  lemma {:induction false} LikeLiteral(t: string, p: string, s: string)
    ensures Like(EscapeLike(t) + p, s) <==>
            |t| <= |s| && AsciiLower(s[..|t|]) == AsciiLower(t) && Like(p, s[|t|..])
  {
    if t == [] {
      assert EscapeLike(t) + p == p && s[0..] == s;
      assert AsciiLower(s[..0]) == AsciiLower(t);
    } else {
      EscapeUnfold(t);
      var rest := EscapeLike(t[1..]) + p;
      ConcatAssoc(EscapeChar(t[0]), EscapeLike(t[1..]), p);
      LikeChar(t[0], rest, s);
      if s != [] { LikeLiteral(t[1..], p, s[1..]); }
      if |t| <= |s| {
        assert s[1..][|t| - 1..] == s[|t|..];
        FoldStep(t, s);
      }
    }
  }

  lemma FoldStep(t: string, s: string)
    requires 0 < |t| <= |s|
    ensures AsciiLower(s[..|t|]) == AsciiLower(t) <==>
            AsciiLowerChar(t[0]) == AsciiLowerChar(s[0])
            && AsciiLower(s[1..][..|t| - 1]) == AsciiLower(t[1..])
  {
    var x, y := AsciiLower(s[..|t|]), AsciiLower(t);
    assert AsciiLower(s[1..][..|t| - 1]) == x[1..];
    assert AsciiLower(t[1..]) == y[1..];
    assert x == [x[0]] + x[1..] && y == [y[0]] + y[1..];
  }

  lemma {:induction false} LikePercent(p: string, s: string)
    ensures Like(['%'] + p, s) <==> exists i: nat :: i <= |s| && Like(p, s[i..])
    decreases |s|
  {
    assert (['%'] + p)[1..] == p && s[0..] == s;
    if s == [] {
      assert forall i: nat :: i <= |s| ==> s[i..] == s;
    } else {
      LikePercent(p, s[1..]);
      if i: nat :| i <= |s[1..]| && Like(p, s[1..][i..]) {
        assert s[1..][i..] == s[i + 1..];
      }
      if i: nat :| 1 <= i <= |s| && Like(p, s[i..]) {
        assert s[1..][i - 1..] == s[i..];
      }
    }
  }

  lemma {:induction false} PercentMatchesAll(s: string)
    ensures Like("%", s)
    decreases |s|
  {
    if s != [] { PercentMatchesAll(s[1..]); }
  }

  /** The pattern built from a term matches exactly the texts that contain the term, whatever is in it. */
  lemma LikeIsContains(t: string, s: string)
    ensures Like(LikePattern(t), s) <==> Contains(AsciiLower(s), AsciiLower(t))
  {
    var p := EscapeLike(t) + "%";
    assert LikePattern(t) == ['%'] + p;
    LikePercent(p, s);
    forall i: nat | i <= |s| ensures Like(p, s[i..]) <==> OccursAt(AsciiLower(s), AsciiLower(t), i) {
      LikeLiteral(t, "%", s[i..]);
      if i + |t| <= |s| {
        PercentMatchesAll(s[i..][|t|..]);
        assert AsciiLower(s[i..][..|t|]) == AsciiLower(s)[i..i + |t|];
      }
    }
  }

  // ---- Claims, the SQL filter and the relevance score -------------------------------

  datatype Claim = Claim(
    id: string, project: Option<string>, subject: string, relation: string, target: string,
    status: string, review: string, updatedAt: string)

  function Statement(c: Claim): string { c.subject + " " + c.relation + " " + c.target }

  predicate TermMatches(c: Claim, term: string) { Like(LikePattern(term), AsciiLower(Statement(c))) }

  lemma ContainsConcat(a: string, b: string, t: string)
    ensures Contains(a, t) ==> Contains(a + b, t)
    ensures Contains(b, t) ==> Contains(a + b, t)
  {
    if Contains(a, t) {
      var i: nat :| i <= |a| && OccursAt(a, t, i);
      assert (a + b)[i..i + |t|] == a[i..i + |t|];
      assert OccursAt(a + b, t, i);
    }
    if Contains(b, t) {
      var i: nat :| i <= |b| && OccursAt(b, t, i);
      assert (a + b)[|a| + i..|a| + i + |t|] == b[i..i + |t|];
      assert OccursAt(a + b, t, |a| + i);
    }
  }

  /** A term without a space does not span one. */
  lemma ContainsAcross(a: string, b: string, t: string)
    requires ' ' !in t && Contains(a + " " + b, t)
    ensures Contains(a, t) || Contains(b, t)
  {
    var s := a + " " + b;
    var i: nat :| i <= |s| && OccursAt(s, t, i);
    assert i + |t| <= |s| && s[i..i + |t|] == t;
    if i + |t| <= |a| {
      assert a[i..i + |t|] == s[i..i + |t|];
      assert OccursAt(a, t, i);
    } else if i > |a| {
      var j := i - |a| - 1;
      assert b[j..j + |t|] == s[i..i + |t|];
      assert OccursAt(b, t, j);
    } else {
      Inside(s, t, i, |a|);
    }
  }

  lemma Inside(s: string, t: string, i: nat, k: nat)
    requires OccursAt(s, t, i) && i <= k < i + |t|
    ensures s[k] in t
  {
    assert s[i..i + |t|][k - i] == s[k];
  }

  /** A term without a space is in the statement exactly when it is in one of its three parts. */
  lemma StatementParts(c: Claim, t: string)
    requires ' ' !in t
    ensures Contains(Statement(c), t) <==> Contains(c.subject, t) || Contains(c.relation, t) || Contains(c.target, t)
  {
    var front := c.subject + " " + c.relation;
    assert Statement(c) == front + " " + c.target;
    ContainsConcat(c.subject + " ", c.relation, t);
    ContainsConcat(c.subject, " ", t);
    ContainsConcat(front, " ", t);
    ContainsConcat(front + " ", c.target, t);
    if Contains(c.subject, t) { ContainsConcat(c.subject + " ", c.relation, t); }
    if Contains(Statement(c), t) {
      ContainsAcross(front, c.target, t);
      if Contains(front, t) { ContainsAcross(c.subject, c.relation, t); }
    }
  }

  /** The WHERE clause of the claim query. */
  predicate SqlSelects(c: Claim, project: string, terms: seq<string>) {
    && c.project == Some(project)
    && c.review != "rejected"
    && (terms == [] || exists i :: 0 <= i < |terms| && TermMatches(c, terms[i]))
  }

  /** How many terms the lower-cased statement contains; `lower` is Unicode lower-casing. */
  function Relevance(c: Claim, terms: seq<string>, lower: string -> string): nat {
    CountWhere(terms, InText(lower(Statement(c))))
  }

  function InText(text: string): string -> bool {
    (term: string) => Contains(text, term)
  }

  lemma LowerFixed(s: string)
    ensures NoUpper(AsciiLower(s))
    ensures NoUpper(s) ==> AsciiLower(s) == s
    ensures AsciiLower(AsciiLower(s)) == AsciiLower(s)
  {
  }

  /** One lower-case term: what the SQL sees and what the score sees. */
  lemma TermMeaning(c: Claim, term: string)
    requires NoUpper(term)
    ensures TermMatches(c, term) <==> Contains(AsciiLower(Statement(c)), term)
  {
    LikeIsContains(term, AsciiLower(Statement(c)));
    LowerFixed(Statement(c));
    LowerFixed(term);
  }

  /**
   With at least one term, the query selects exactly the project's non-rejected
   claims that score at least one, provided lower-casing folds the statement as SQLite does.
   */
  lemma FilterIsRelevance(c: Claim, project: string, terms: seq<string>, lower: string -> string)
    requires forall i :: 0 <= i < |terms| ==> NoUpper(terms[i])
    requires lower(Statement(c)) == AsciiLower(Statement(c))
    ensures terms != [] ==>
      (SqlSelects(c, project, terms) <==>
       c.project == Some(project) && c.review != "rejected" && Relevance(c, terms, lower) >= 1)
    ensures terms == [] ==> Relevance(c, terms, lower) == 0
    ensures terms == [] ==>
      (SqlSelects(c, project, terms) <==> c.project == Some(project) && c.review != "rejected")
  {
    var text := lower(Statement(c));
    CountWherePositive(terms, InText(text));
    forall i | 0 <= i < |terms| ensures TermMatches(c, terms[i]) <==> InText(text)(terms[i]) {
      TermMeaning(c, terms[i]);
    }
  }

  lemma ContainsItself(s: string)
    ensures Contains(s, s)
  {
    assert OccursAt(s, s, 0);
  }

  lemma MutualContainment(a: string, b: string)
    requires Contains(a, b) && Contains(b, a)
    ensures a == b
  {
  }

  /** Filter and score agree on every lower-case term exactly when the two foldings of the statement agree. */
  lemma AgreementCondition(c: Claim, lower: string -> string)
    requires NoUpper(lower(Statement(c)))
    ensures (forall term :: NoUpper(term) ==>
               (TermMatches(c, term) <==> Relevance(c, [term], lower) >= 1))
        <==> lower(Statement(c)) == AsciiLower(Statement(c))
  {
    var sql, text := AsciiLower(Statement(c)), lower(Statement(c));
    LowerFixed(Statement(c));
    forall term | NoUpper(term)
      ensures TermMatches(c, term) <==> Contains(sql, term)
      ensures Relevance(c, [term], lower) >= 1 <==> Contains(text, term)
    {
      TermMeaning(c, term);
      assert CountWhere([term][1..], InText(text)) == 0;
    }
    ContainsItself(sql);
    ContainsItself(text);
    if forall term :: NoUpper(term) ==> (TermMatches(c, term) <==> Relevance(c, [term], lower) >= 1) {
      assert Contains(text, sql) && Contains(sql, text);
      MutualContainment(sql, text);
    }
  }

  lemma AsciiStatementsAgree(c: Claim, lower: string -> string)
    requires IsAscii(Statement(c)) && (forall s :: IsAscii(s) ==> lower(s) == AsciiLower(s))
    ensures lower(Statement(c)) == AsciiLower(Statement(c))
  {
  }

  /** A Kelvin sign lower-cases to `k` in Unicode but not in SQLite: the score sees it, the query does not. */
  lemma KelvinSignMissed(c: Claim, lower: string -> string)
    requires Statement(c) == "\U{212A} x y" && lower("\U{212A} x y") == "k x y"
    ensures !TermMatches(c, "k") && Relevance(c, ["k"], lower) == 1
  {
    TermMeaning(c, "k");
    var sql := AsciiLower(Statement(c));
    assert sql == Statement(c);
    forall i: nat | i <= |sql| ensures !OccursAt(sql, "k", i) {
      if i + 1 <= |sql| { assert sql[i..i + 1] == [sql[i]]; }
    }
    assert OccursAt("k x y", "k", 0);
    assert CountWhere(["k"][1..], InText("k x y")) == 0;
  }

  // ---- Ranking and the narrative plan -------------------------------------------------

  /** `ORDER BY updated_at DESC`. */
  function NewerFirst(): (Claim, Claim) -> bool {
    (a: Claim, b: Claim) => LexLe(b.updatedAt, a.updatedAt)
  }

  /** More matching terms first, then the more recent claim. */
  function RankOrder(terms: seq<string>, lower: string -> string): (Claim, Claim) -> bool {
    (a: Claim, b: Claim) =>
      Relevance(a, terms, lower) > Relevance(b, terms, lower)
      || (Relevance(a, terms, lower) == Relevance(b, terms, lower) && LexLe(b.updatedAt, a.updatedAt))
  }

  lemma OrdersAreTotal(terms: seq<string>, lower: string -> string)
    ensures TotalPreorder(NewerFirst()) && TotalPreorder(RankOrder(terms, lower))
  {
    LexOrder();
  }

  function Selecting(project: string, terms: seq<string>): Claim -> bool {
    (c: Claim) => SqlSelects(c, project, terms)
  }

  /** Every matching claim, newest first, before LIMIT. */
  function Matches(rows: seq<Claim>, project: string, terms: seq<string>): seq<Claim> {
    SortBy(Filter(rows, Selecting(project, terms)), NewerFirst())
  }

  function Capped(limit: nat): (n: nat)
    ensures 1 <= n <= 30 && (1 <= limit <= 30 ==> n == limit) && (limit > 30 ==> n == 30)
  {
    Clamp(limit, 1, 30)
  }

  /** Fetch three times the limit by recency, rank by relevance, keep the limit. */
  function Ranked(rows: seq<Claim>, project: string, terms: seq<string>, limit: nat, lower: string -> string)
    : seq<Claim>
  {
    TakeFirst(SortBy(TakeFirst(Matches(rows, project, terms), Capped(limit) * 3), RankOrder(terms, lower)),
              Capped(limit))
  }

  /** `kept` is the better part of `s`. */
  ghost predicate BestOf<T(!new)>(kept: seq<T>, s: seq<T>, le: (T, T) -> bool) {
    exists dropped: seq<T> :: multiset(kept + dropped) == multiset(s) && AllBefore(kept, dropped, le)
  }

  ghost predicate AllBefore<T>(a: seq<T>, b: seq<T>, le: (T, T) -> bool) {
    forall i, j :: 0 <= i < |a| && 0 <= j < |b| ==> le(a[i], b[j])
  }

  lemma TruncatedSort<T(!new)>(s: seq<T>, le: (T, T) -> bool, n: nat)
    requires TotalPreorder(le)
    ensures BestOf(TakeFirst(SortBy(s, le), n), s, le)
  {
    SortBySorts(s, le);
    var sorted := SortBy(s, le);
    var kept := TakeFirst(sorted, n);
    var dropped := sorted[|kept|..];
    assert kept + dropped == sorted;
    assert AllBefore(kept, dropped, le);
  }

  /** The query fetches the most recent matches; the ranking keeps the most relevant of those. */
  lemma RankedIsBest(rows: seq<Claim>, project: string, terms: seq<string>, limit: nat, lower: string -> string)
    ensures var fetched := TakeFirst(Matches(rows, project, terms), Capped(limit) * 3);
            && BestOf(fetched, Filter(rows, Selecting(project, terms)), NewerFirst())
            && BestOf(Ranked(rows, project, terms, limit, lower), fetched, RankOrder(terms, lower))
            && |Ranked(rows, project, terms, limit, lower)|
               == Min(|Filter(rows, Selecting(project, terms))|, Capped(limit))
  {
    OrdersAreTotal(terms, lower);
    var selected, n := Filter(rows, Selecting(project, terms)), Capped(limit);
    TruncatedSort(selected, NewerFirst(), n * 3);
    var fetched := TakeFirst(SortBy(selected, NewerFirst()), n * 3);
    TruncatedSort(fetched, RankOrder(terms, lower), n);
  }

  /** At least as many terms match, and where equally many do, it is at least as recent. */
  predicate AtLeastAsGood(c: Claim, d: Claim, terms: seq<string>, lower: string -> string) {
    && Relevance(c, terms, lower) >= Relevance(d, terms, lower)
    && (Relevance(c, terms, lower) == Relevance(d, terms, lower) ==> LexLe(d.updatedAt, c.updatedAt))
  }

  /**
   Of the matching claims some are not fetched, and none of those is newer than a fetched one;
   of the fetched some are dropped, and every kept one is at least as good as each of them.
   The kept claims come in that order, too.
   */
  lemma KeptClaims(rows: seq<Claim>, project: string, terms: seq<string>, limit: nat, lower: string -> string)
    returns (unfetched: seq<Claim>, dropped: seq<Claim>)
    ensures var kept := Ranked(rows, project, terms, limit, lower);
            && multiset(kept) + multiset(dropped) + multiset(unfetched) == multiset(Filter(rows, Selecting(project, terms)))
            && (unfetched != [] ==> |kept| + |dropped| == 3 * Capped(limit))
            && (dropped != [] ==> |kept| == Capped(limit))
            && KeptOf(kept, dropped, unfetched, terms, lower)
  {
    unfetched, dropped := KeptFrom(Filter(rows, Selecting(project, terms)), Capped(limit), terms, lower);
  }

  lemma KeptFrom(selected: seq<Claim>, n: nat, terms: seq<string>, lower: string -> string)
    returns (unfetched: seq<Claim>, dropped: seq<Claim>)
    ensures var kept := TakeFirst(SortBy(TakeFirst(SortBy(selected, NewerFirst()), n * 3), RankOrder(terms, lower)), n);
            && multiset(kept) + multiset(dropped) + multiset(unfetched) == multiset(selected)
            && (unfetched != [] ==> |kept| + |dropped| == 3 * n)
            && (dropped != [] ==> |kept| == n)
            && KeptOf(kept, dropped, unfetched, terms, lower)
  {
    var all := SortBy(selected, NewerFirst());
    OrdersAreTotal(terms, lower);
    SortBySorts(selected, NewerFirst());
    var fetched;
    fetched, unfetched := Split(all, n * 3);
    SortBySorts(fetched, RankOrder(terms, lower));
    var kept;
    kept, dropped := Split(SortBy(fetched, RankOrder(terms, lower)), n);
    KeptParts(kept, dropped, fetched, unfetched, terms, lower);
  }

  lemma Split<T>(s: seq<T>, n: nat) returns (a: seq<T>, b: seq<T>)
    ensures a == TakeFirst(s, n) && s == a + b && (b != [] ==> |a| == n)
  {
    a := TakeFirst(s, n);
    b := s[|a|..];
  }

  ghost predicate KeptOf(kept: seq<Claim>, dropped: seq<Claim>, unfetched: seq<Claim>, terms: seq<string>,
                         lower: string -> string)
  {
    && (forall i, j :: 0 <= i < |kept| && 0 <= j < |unfetched| ==> LexLe(unfetched[j].updatedAt, kept[i].updatedAt))
    && (forall i, j :: 0 <= i < |dropped| && 0 <= j < |unfetched| ==>
          LexLe(unfetched[j].updatedAt, dropped[i].updatedAt))
    && (forall i, j :: 0 <= i < |kept| && 0 <= j < |dropped| ==> AtLeastAsGood(kept[i], dropped[j], terms, lower))
    && (forall i, j :: 0 <= i < j < |kept| ==> AtLeastAsGood(kept[i], kept[j], terms, lower))
  }

  lemma KeptParts(kept: seq<Claim>, dropped: seq<Claim>, fetched: seq<Claim>, unfetched: seq<Claim>,
                  terms: seq<string>, lower: string -> string)
    requires SortedBy(fetched + unfetched, NewerFirst()) && SortedBy(kept + dropped, RankOrder(terms, lower))
    requires multiset(kept + dropped) == multiset(fetched)
    ensures KeptOf(kept, dropped, unfetched, terms, lower)
  {
    var all, sorted := fetched + unfetched, kept + dropped;
    assert all[..|fetched|] == fetched;
    FetchedNewer(all, |fetched|, sorted);
    forall i, j | 0 <= i < j < |sorted| ensures AtLeastAsGood(sorted[i], sorted[j], terms, lower) {
      assert RankOrder(terms, lower)(sorted[i], sorted[j]);
    }
    forall i | 0 <= i < |kept| ensures sorted[i] == kept[i] {}
    forall j | 0 <= j < |dropped| ensures sorted[|kept| + j] == dropped[j] {}
    forall j | 0 <= j < |unfetched| ensures all[|fetched| + j] == unfetched[j] {}
  }

  lemma FetchedNewer(all: seq<Claim>, n: nat, fetched: seq<Claim>)
    requires SortedBy(all, NewerFirst()) && n <= |all| && multiset(fetched) == multiset(all[..n])
    ensures forall i, j :: 0 <= i < |fetched| && n <= j < |all| ==> LexLe(all[j].updatedAt, fetched[i].updatedAt)
  {
    MultisetFacts(fetched, all[..n]);
    forall i, j | 0 <= i < |fetched| && n <= j < |all| ensures LexLe(all[j].updatedAt, fetched[i].updatedAt) {
      assert fetched[i] in fetched;
      var k :| 0 <= k < n && all[..n][k] == fetched[i];
      assert NewerFirst()(all[k], all[j]);
    }
  }

  lemma RankedSelected(rows: seq<Claim>, project: string, terms: seq<string>, limit: nat, lower: string -> string)
    ensures forall c :: c in Ranked(rows, project, terms, limit, lower) ==> c in rows && SqlSelects(c, project, terms)
  {
    var selected := Filter(rows, Selecting(project, terms));
    var matches := Matches(rows, project, terms);
    var fetched := TakeFirst(matches, Capped(limit) * 3);
    var sorted := SortBy(fetched, RankOrder(terms, lower));
    forall c | c in TakeFirst(sorted, Capped(limit)) ensures c in selected {
      assert c in sorted;
      assert c in fetched;
      assert c in matches;
    }
    forall c | c in selected ensures c in rows && SqlSelects(c, project, terms) {
      assert Selecting(project, terms)(c);
    }
  }

  datatype Bucket = OpenQuestion | Superseded | Opposing | Supporting | Dropped

  /** The chain of conditions that sends a claim to its bucket. */
  function BucketOf(c: Claim): Bucket {
    if c.review == "needs_review" then OpenQuestion
    else if c.status == "superseded" then Superseded
    else if c.status == "contested" then Opposing
    else if c.review == "accepted" then Supporting
    else Dropped
  }

  function InBucket(b: Bucket): Claim -> bool {
    (c: Claim) => BucketOf(c) == b
  }

  datatype Plan = Plan(supporting: seq<Claim>, opposing: seq<Claim>, superseded: seq<Claim>, open: seq<Claim>)

  function PlanClaims(p: Plan): seq<Claim> { p.supporting + p.opposing + p.superseded + p.open }

  /** Each bucket keeps its claims in rank order. */
  ghost predicate IsPlanOf(p: Plan, claims: seq<Claim>) {
    && p.supporting == Filter(claims, InBucket(Supporting))
    && p.opposing == Filter(claims, InBucket(Opposing))
    && p.superseded == Filter(claims, InBucket(Superseded))
    && p.open == Filter(claims, InBucket(OpenQuestion))
  }

  method Distribute(claims: seq<Claim>) returns (p: Plan)
    ensures IsPlanOf(p, claims)
  {
    p := Plan([], [], [], []);
    for i := 0 to |claims|
      invariant IsPlanOf(p, claims[..i])
    {
      var c := claims[i];
      FilterStep(claims, i);
      if c.review == "needs_review" {
        p := p.(open := p.open + [c]);
      } else if c.status == "superseded" {
        p := p.(superseded := p.superseded + [c]);
      } else if c.status == "contested" {
        p := p.(opposing := p.opposing + [c]);
      } else if c.review == "accepted" {
        p := p.(supporting := p.supporting + [c]);
      }
    }
    assert claims[..|claims|] == claims;
  }

  lemma FilterStep(claims: seq<Claim>, i: nat)
    requires i < |claims|
    ensures forall b :: Filter(claims[..i + 1], InBucket(b))
                     == Filter(claims[..i], InBucket(b)) + (if BucketOf(claims[i]) == b then [claims[i]] else [])
  {
    assert claims[..i + 1] == claims[..i] + [claims[i]];
    forall b ensures Filter(claims[..i + 1], InBucket(b))
                  == Filter(claims[..i], InBucket(b)) + (if BucketOf(claims[i]) == b then [claims[i]] else [])
    {
      FilterLast(claims[..i], claims[i], InBucket(b));
    }
  }

  ghost function BucketBag(claims: seq<Claim>, b: Bucket): multiset<Claim> {
    multiset(Filter(claims, InBucket(b)))
  }

  /** A claim is in its own bucket, as often as it was given, and in no other. */
  lemma OwnBucketOnly(claims: seq<Claim>, c: Claim)
    ensures forall b :: BucketBag(claims, b)[c] == if BucketOf(c) == b then multiset(claims)[c] else 0
  {
    forall b ensures BucketBag(claims, b)[c] == if BucketOf(c) == b then multiset(claims)[c] else 0 {
      FilterMultiplicity(claims, InBucket(b), c);
    }
  }

  lemma PlanMultiplicity(p: Plan, claims: seq<Claim>, c: Claim)
    requires IsPlanOf(p, claims)
    ensures multiset(PlanClaims(p))[c] == if BucketOf(c) == Dropped then 0 else multiset(claims)[c]
  {
    OwnBucketOnly(claims, c);
    assert multiset(PlanClaims(p))[c] ==
      BucketBag(claims, Supporting)[c] + BucketBag(claims, Opposing)[c]
      + BucketBag(claims, Superseded)[c] + BucketBag(claims, OpenQuestion)[c];
  }

  lemma DroppingNothing(whole: multiset<Claim>, kept: multiset<Claim>)
    requires forall c :: kept[c] == if BucketOf(c) == Dropped then 0 else whole[c]
    ensures kept == whole <==> forall c :: c in whole ==> BucketOf(c) != Dropped
  {
  }

  /** The buckets are a permutation of the claims exactly when every claim has one. */
  lemma BucketsPermutation(p: Plan, claims: seq<Claim>)
    requires IsPlanOf(p, claims)
    ensures multiset(PlanClaims(p)) == multiset(claims) <==> forall c :: c in claims ==> BucketOf(c) != Dropped
  {
    forall c ensures multiset(PlanClaims(p))[c] == if BucketOf(c) == Dropped then 0 else multiset(claims)[c] {
      PlanMultiplicity(p, claims, c);
    }
    DroppingNothing(multiset(claims), multiset(PlanClaims(p)));
  }

  // ---- The claim table --------------------------------------------------------------------

  const MAX_TEXT := 2000

  function NormalizeReview(value: Option<string>): (r: string)
    ensures r == "accepted" || r == "rejected" || r == "needs_review"
    ensures value.Some? && Trim(value.value) in {"accepted", "rejected", "needs_review"} ==> r == Trim(value.value)
    ensures value.None? || Trim(value.value) !in {"accepted", "rejected"} ==> r == "needs_review"
  {
    var v := if value.None? then "needs_review" else Trim(value.value);
    if v == "accepted" || v == "rejected" then v else "needs_review"
  }

  function NormalizeStatus(value: Option<string>): (r: string)
    ensures r == "contested" || r == "superseded" || r == "active"
    ensures value.Some? && Trim(value.value) in {"contested", "superseded", "active"} ==> r == Trim(value.value)
    ensures value.None? || Trim(value.value) !in {"contested", "superseded"} ==> r == "active"
  {
    var v := if value.None? then "active" else Trim(value.value);
    if v == "contested" || v == "superseded" then v else "active"
  }

  function ClampText(s: string): string { TakeFirst(Trim(s), MAX_TEXT) }

  predicate Normalized(c: Claim) {
    && (c.review == "accepted" || c.review == "rejected" || c.review == "needs_review")
    && (c.status == "contested" || c.status == "superseded" || c.status == "active")
  }

  /** In a normalized table only rejected claims have no bucket. */
  lemma NormalizedHasBucket(c: Claim)
    requires Normalized(c)
    ensures BucketOf(c) == Dropped <==> c.review == "rejected" && c.status == "active"
  {
  }

  datatype ClaimError = ProjectNotFound | EmptyText | ClaimNotFound

  datatype ClaimInput = ClaimInput(
    subject: string, relation: string, target: string, status: Option<string>, review: Option<string>)

  /** The stored text: the trimmed one, or as much of it as a column takes. */
  ghost predicate KeepsText(stored: string, given: string) {
    stored != [] && stored <= Trim(given) && |stored| == Min(|Trim(given)|, 2000)
  }

  /** The row to insert: texts are trimmed and cut, none may be empty, states are normalized. */
  function Draft(project: Option<string>, input: ClaimInput, id: string, now: string)
    : (r: Result<Claim, ClaimError>)
    ensures r.Ok? ==> Normalized(r.value) && r.value.id == id && r.value.project == project && r.value.updatedAt == now
    ensures r.Ok? ==>
      && KeepsText(r.value.subject, input.subject) && KeepsText(r.value.relation, input.relation)
      && KeepsText(r.value.target, input.target)
    ensures r == Err(EmptyText) <==> IsBlank(input.subject) || IsBlank(input.relation) || IsBlank(input.target)
    ensures r.Err? ==> r.error == EmptyText
  {
    var subject, relation, target := ClampText(input.subject), ClampText(input.relation), ClampText(input.target);
    if subject == [] || relation == [] || target == [] then Err(EmptyText) else
    Ok(Claim(id, project, subject, relation, target,
             NormalizeStatus(input.status), NormalizeReview(input.review), now))
  }

  ghost predicate TableOk(rows: seq<Claim>) {
    && (forall c :: c in rows ==> Normalized(c))
    && (forall i, j :: 0 <= i < j < |rows| ==> rows[i].id != rows[j].id)
  }

  lemma AppendKeepsTable(rows: seq<Claim>, c: Claim)
    requires TableOk(rows) && Normalized(c) && (forall d :: d in rows ==> d.id != c.id)
    ensures TableOk(rows + [c])
  {
  }

  class ClaimTable {
    var rows: seq<Claim>
    var projects: set<string>

    ghost predicate Valid()
      reads this
    {
      TableOk(rows)
    }

    /** `id` is the fresh UUID and `now` the column default. */
    method Create(project: Option<string>, input: ClaimInput, id: string, now: string)
      returns (r: Result<Claim, ClaimError>)
      requires Valid() && (forall c :: c in rows ==> c.id != id)
      modifies this`rows
      ensures Valid()
      ensures project.Some? && project.value !in projects ==> r == Err(ProjectNotFound)
      ensures (project.Some? ==> project.value in projects) ==> r == Draft(project, input, id, now)
      ensures rows == if r.Ok? then old(rows) + [r.value] else old(rows)
    {
      if project.Some? && project.value !in projects { return Err(ProjectNotFound); }
      r := Draft(project, input, id, now);
      if r.Ok? {
        AppendKeepsTable(rows, r.value);
        rows := rows + [r.value];
      }
    }

    method Review(id: string, review: string, now: string) returns (r: Result<Claim, ClaimError>)
      requires Valid()
      modifies this`rows
      ensures Valid() && |rows| == |old(rows)|
      ensures r.Err? <==> forall c :: c in old(rows) ==> c.id != id
      ensures forall i :: 0 <= i < |rows| ==>
        rows[i] == if old(rows)[i].id != id then old(rows)[i]
                   else old(rows)[i].(review := NormalizeReview(Some(review)), updatedAt := now)
      ensures r.Ok? ==> r.value in rows && r.value.id == id
    {
      var i := 0;
      while i < |rows|
        invariant 0 <= i <= |rows|
        invariant forall j :: 0 <= j < i ==> rows[j].id != id
      {
        if rows[i].id == id {
          var c := rows[i].(review := NormalizeReview(Some(review)), updatedAt := now);
          assert rows[i] in rows;
          rows := rows[i := c];
          return Ok(c);
        }
        i := i + 1;
      }
      return Err(ClaimNotFound);
    }

    /** The claims of a plan are exactly the ranked ones: nothing is lost, added or reordered in a bucket. */
    method BuildPlan(project: string, terms: seq<string>, limit: nat, lower: string -> string)
      returns (p: Plan, conclusion: Option<string>)
      requires Valid()
      ensures IsPlanOf(p, Ranked(rows, project, terms, limit, lower))
      ensures multiset(PlanClaims(p)) == multiset(Ranked(rows, project, terms, limit, lower))
      ensures conclusion.None? <==>
        forall c :: c in Ranked(rows, project, terms, limit, lower) ==> BucketOf(c) != Supporting
      ensures conclusion.Some? ==> conclusion.value == Statement(p.supporting[0])
    {
      var claims := Ranked(rows, project, terms, limit, lower);
      p := Distribute(claims);
      RankedSelected(rows, project, terms, limit, lower);
      forall c | c in claims ensures BucketOf(c) != Dropped { NormalizedHasBucket(c); }
      BucketsPermutation(p, claims);
      if p.supporting == [] {
        conclusion := None;
      } else {
        assert p.supporting[0] in p.supporting;
        conclusion := Some(Statement(p.supporting[0]));
      }
    }
  }
}
