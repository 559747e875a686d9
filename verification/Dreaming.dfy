/**
 Dream runs: budgeted, deduplicated review suggestions and their life cycle.
 An artifact is identified by its row; rows are never deleted.
 */
module Dreaming {
  import opened Prelude

  /** Kind and payload decide whether two suggestions are the same. */
  type Key = (string, string)

  datatype Status = Pending | Applied | Rejected | Undone

  datatype Artifact = Artifact(key: Key, status: Status)

  /** One of the five sources of suggestions, with its limit per run. */
  datatype Generator = Generator(cap: nat, candidates: seq<Key>)

  const MAX_PER_GENERATOR: nat := 8
  const DEFAULT_BUDGET: nat := 24

  function Budget(requested: Option<nat>): (b: nat)
    ensures 1 <= b <= 100
  {
    Clamp(if requested.Some? then requested.value else DEFAULT_BUDGET, 1, 100)
  }

  function Keys(rows: seq<Artifact>): set<Key> { set a | a in rows :: a.key }

  /** No suggestion has two rows. */
  ghost predicate UniqueKeys(rows: seq<Artifact>) {
    forall i, j :: 0 <= i < j < |rows| ==> rows[i].key != rows[j].key
  }

  /** The candidates that have no row yet. */
  ghost function Unrepresented(rows: seq<Artifact>, candidates: seq<Key>): set<Key> {
    set k | k in candidates && k !in Keys(rows)
  }

  /** Inserts candidates in order, skipping represented ones, until `cap` were created. */
  function Generate(rows: seq<Artifact>, candidates: seq<Key>, cap: nat): (r: seq<Artifact>)
    ensures |rows| <= |r| <= |rows| + cap
    decreases |candidates|
  {
    if candidates == [] || cap == 0 then rows
    else if candidates[0] in Keys(rows) then Generate(rows, candidates[1..], cap)
    else Generate(rows + [Artifact(candidates[0], Pending)], candidates[1..], cap - 1)
  }

  /** The generators of one run share a budget. */
  function Generators(rows: seq<Artifact>, gens: seq<Generator>, remaining: nat): (r: seq<Artifact>)
    ensures |rows| <= |r| <= |rows| + remaining
    decreases |gens|
  {
    if gens == [] then rows else
    var r1 := Generate(rows, gens[0].candidates, Min(remaining, gens[0].cap));
    Generators(r1, gens[1..], remaining - (|r1| - |rows|))
  }

  lemma GenerateStep(rows: seq<Artifact>, candidates: seq<Key>, i: nat, cap: nat)
    requires i < |candidates| && cap > 0
    ensures Generate(rows, candidates[i..], cap)
         == if candidates[i] in Keys(rows) then Generate(rows, candidates[i + 1..], cap)
            else Generate(rows + [Artifact(candidates[i], Pending)], candidates[i + 1..], cap - 1)
  {
    assert candidates[i..][0] == candidates[i] && candidates[i..][1..] == candidates[i + 1..];
  }

  // ---- One generator ------------------------------------------------------------------

  lemma KeysAppend(rows: seq<Artifact>, k: Key)
    ensures Keys(rows + [Artifact(k, Pending)]) == Keys(rows) + {k}
  {
    var r := rows + [Artifact(k, Pending)];
    assert r[|rows|].key == k;
    forall x | x in Keys(rows) ensures x in Keys(r) {
      var a :| a in rows && a.key == x;
      assert a in r;
    }
  }

  lemma UnrepresentedStep(rows: seq<Artifact>, candidates: seq<Key>)
    requires candidates != []
    ensures var c, rest := candidates[0], candidates[1..];
            if c in Keys(rows)
            then Unrepresented(rows, candidates) == Unrepresented(rows, rest)
            else c !in Unrepresented(rows + [Artifact(c, Pending)], rest)
                 && Unrepresented(rows, candidates) == Unrepresented(rows + [Artifact(c, Pending)], rest) + {c}
  {
    KeysAppend(rows, candidates[0]);
    assert candidates == [candidates[0]] + candidates[1..];
  }

  /** A generator creates a row for each of its new suggestions, or as many as its limit allows. */
  lemma {:induction false} GenerateCount(rows: seq<Artifact>, candidates: seq<Key>, cap: nat)
    ensures |Generate(rows, candidates, cap)| - |rows| == Min(cap, |Unrepresented(rows, candidates)|)
    decreases |candidates|
  {
    if candidates == [] {
      assert Unrepresented(rows, candidates) == {};
    } else if cap > 0 {
      UnrepresentedStep(rows, candidates);
      if candidates[0] in Keys(rows) {
        GenerateCount(rows, candidates[1..], cap);
      } else {
        GenerateCount(rows + [Artifact(candidates[0], Pending)], candidates[1..], cap - 1);
      }
    }
  }

  /** `a` is a pending row for an allowed suggestion that had none. */
  ghost predicate Created(a: Artifact, rows: seq<Artifact>, allowed: set<Key>) {
    a.status == Pending && a.key in allowed && a.key !in Keys(rows)
  }

  /** `r` is `rows` followed by rows created for allowed suggestions. */
  ghost predicate Extends(rows: seq<Artifact>, r: seq<Artifact>, allowed: set<Key>) {
    && |rows| <= |r|
    && (forall i :: 0 <= i < |rows| ==> r[i] == rows[i])
    && (forall i :: |rows| <= i < |r| ==> Created(r[i], rows, allowed))
  }

  ghost function AsSet(candidates: seq<Key>): set<Key> { set k | k in candidates }

  lemma ExtendsKeys(rows: seq<Artifact>, r: seq<Artifact>, allowed: set<Key>)
    requires Extends(rows, r, allowed)
    ensures Keys(rows) <= Keys(r) <= Keys(rows) + allowed
  {
    forall k | k in Keys(rows) ensures k in Keys(r) {
      var i :| 0 <= i < |rows| && rows[i].key == k;
      assert r[i] in r && r[i].key == k;
    }
    forall k | k in Keys(r) ensures k in Keys(rows) + allowed {
      var i :| 0 <= i < |r| && r[i].key == k;
      if i < |rows| { assert rows[i] in rows; } else { assert Created(r[i], rows, allowed); }
    }
  }

  lemma ExtendsTwice(rows: seq<Artifact>, r1: seq<Artifact>, r: seq<Artifact>, a: set<Key>, b: set<Key>, c: set<Key>)
    requires Extends(rows, r1, a) && Extends(r1, r, b) && a <= c && b <= c
    ensures Extends(rows, r, c)
  {
    ExtendsKeys(rows, r1, a);
    forall i | |rows| <= i < |r| ensures Created(r[i], rows, c) {
      if i < |r1| { assert Created(r1[i], rows, a); } else { assert Created(r[i], r1, b); }
    }
  }

  lemma NewKeyStaysUnique(rows: seq<Artifact>, k: Key)
    requires k !in Keys(rows) && UniqueKeys(rows)
    ensures UniqueKeys(rows + [Artifact(k, Pending)])
  {
    forall i | 0 <= i < |rows| ensures rows[i].key != k { assert rows[i] in rows; }
  }

  /** What is created is new, pending and was proposed. */
  lemma {:induction false} GenerateRows(rows: seq<Artifact>, candidates: seq<Key>, cap: nat)
    ensures Extends(rows, Generate(rows, candidates, cap), AsSet(candidates))
    ensures UniqueKeys(rows) ==> UniqueKeys(Generate(rows, candidates, cap))
    decreases |candidates|
  {
    if candidates != [] && cap > 0 {
      var c, rest := candidates[0], candidates[1..];
      var r := Generate(rows, candidates, cap);
      var r1 := if c in Keys(rows) then rows else rows + [Artifact(c, Pending)];
      GenerateRows(r1, rest, if c in Keys(rows) then cap else cap - 1);
      if c !in Keys(rows) && UniqueKeys(rows) { NewKeyStaysUnique(rows, c); }
      assert Extends(rows, r1, AsSet(candidates));
      ExtendsTwice(rows, r1, r, AsSet(candidates), AsSet(rest), AsSet(candidates));
    }
  }

  /** The first generator of a run and what is left to the others. */
  ghost function Next(rows: seq<Artifact>, gen: Generator, remaining: nat): seq<Artifact> {
    Generate(rows, gen.candidates, Min(remaining, gen.cap))
  }

  lemma GeneratorsFrom(rows: seq<Artifact>, gens: seq<Generator>, i: nat, remaining: nat)
    requires i < |gens|
    ensures var r1 := Next(rows, gens[i], remaining);
            Generators(rows, gens[i..], remaining) == Generators(r1, gens[i + 1..], remaining - (|r1| - |rows|))
  {
    assert gens[i..][0] == gens[i] && gens[i..][1..] == gens[i + 1..];
  }

  // ---- Exactly what one generator creates -----------------------------------------------------

  function NotIn(taken: set<Key>): Key -> bool {
    (k: Key) => k !in taken
  }

  /** The candidates an inserting loop would accept one after the other. */
  function Fresh(taken: set<Key>, candidates: seq<Key>): seq<Key>
    decreases |candidates|
  {
    if candidates == [] then []
    else if candidates[0] in taken then Fresh(taken, candidates[1..])
    else [candidates[0]] + Fresh(taken + {candidates[0]}, candidates[1..])
  }

  function Pendings(ks: seq<Key>): (r: seq<Artifact>)
    ensures |r| == |ks| && forall i :: 0 <= i < |ks| ==> r[i] == Artifact(ks[i], Pending)
  {
    seq(|ks|, i requires 0 <= i < |ks| => Artifact(ks[i], Pending))
  }

  lemma DistinctNew(taken: set<Key>, c: Key, rest: seq<Key>)
    requires c !in taken
    ensures Dedup(Filter([c] + rest, NotIn(taken))) == [c] + Dedup(Filter(rest, NotIn(taken + {c})))
  {
    var f := Filter(rest, NotIn(taken));
    assert ([c] + rest)[1..] == rest && NotIn(taken)(c);
    assert Filter([c] + rest, NotIn(taken)) == [c] + f;
    DedupHead(c, f);
    FilterTwice(rest, NotIn(taken), Unlike(c));
    FilterAgree(rest, Both(NotIn(taken), Unlike(c)), NotIn(taken + {c}));
  }

  lemma DistinctTaken(taken: set<Key>, c: Key, rest: seq<Key>)
    requires c in taken
    ensures Filter([c] + rest, NotIn(taken)) == Filter(rest, NotIn(taken))
  {
    assert ([c] + rest)[1..] == rest && !NotIn(taken)(c);
    var f := Filter(rest, NotIn(taken));
    assert [] + f == f;
  }

  /** They are the distinct candidates that are not taken, in order of first mention. */
  lemma {:induction false} FreshMeaning(taken: set<Key>, candidates: seq<Key>)
    ensures Fresh(taken, candidates) == Dedup(Filter(candidates, NotIn(taken)))
    decreases |candidates|
  {
    if candidates != [] {
      var c, rest := candidates[0], candidates[1..];
      assert candidates == [c] + rest;
      if c in taken {
        FreshMeaning(taken, rest);
        DistinctTaken(taken, c, rest);
      } else {
        FreshMeaning(taken + {c}, rest);
        DistinctNew(taken, c, rest);
      }
    }
  }

  lemma FreshMembers(taken: set<Key>, candidates: seq<Key>)
    ensures Distinct(Fresh(taken, candidates))
    ensures forall k :: k in Fresh(taken, candidates) <==> k in candidates && k !in taken
  {
    FreshMeaning(taken, candidates);
    DedupDistinct(Filter(candidates, NotIn(taken)));
    forall k ensures k in Fresh(taken, candidates) <==> k in candidates && k !in taken {
      assert NotIn(taken)(k) <==> k !in taken;
    }
  }

  lemma FreshAgree(a: set<Key>, b: set<Key>, candidates: seq<Key>)
    requires forall k :: k in candidates ==> (k in a <==> k in b)
    ensures Fresh(a, candidates) == Fresh(b, candidates)
  {
    FreshMeaning(a, candidates);
    FreshMeaning(b, candidates);
    FilterAgree(candidates, NotIn(a), NotIn(b));
  }

  lemma PendingsHead(c: Key, ks: seq<Key>, rows: seq<Artifact>)
    ensures rows + Pendings([c] + ks) == rows + [Artifact(c, Pending)] + Pendings(ks)
  {
    assert Pendings([c] + ks) == [Artifact(c, Pending)] + Pendings(ks);
    ConcatAssoc(rows, [Artifact(c, Pending)], Pendings(ks));
  }

  /** A generator appends the first of its new suggestions, as many as its limit allows. */
  lemma {:induction false} GenerateExact(rows: seq<Artifact>, candidates: seq<Key>, cap: nat)
    ensures Generate(rows, candidates, cap) == rows + Pendings(TakeFirst(Fresh(Keys(rows), candidates), cap))
    decreases |candidates|
  {
    if candidates == [] || cap == 0 {
      assert Pendings(TakeFirst(Fresh(Keys(rows), candidates), cap)) == [];
      assert rows + [] == rows;
    } else {
      var c, rest := candidates[0], candidates[1..];
      assert candidates == [c] + rest;
      if c in Keys(rows) {
        GenerateExact(rows, rest, cap);
      } else {
        KeysAppend(rows, c);
        GenerateExact(rows + [Artifact(c, Pending)], rest, cap - 1);
        var later := Fresh(Keys(rows) + {c}, rest);
        assert TakeFirst([c] + later, cap) == [c] + TakeFirst(later, cap - 1);
        PendingsHead(c, TakeFirst(later, cap - 1), rows);
      }
    }
  }

  // ---- One run --------------------------------------------------------------------------

  /** Everything that is proposed. */
  ghost function AllKeys(gens: seq<Generator>): set<Key> {
    if gens == [] then {} else AsSet(gens[0].candidates) + AllKeys(gens[1..])
  }

  /** Every proposed suggestion has a row. */
  ghost predicate Saturated(rows: seq<Artifact>, gens: seq<Generator>) {
    forall i :: 0 <= i < |gens| ==> Unrepresented(rows, gens[i].candidates) == {}
  }

  ghost predicate LimitsPositive(gens: seq<Generator>) {
    forall i :: 0 <= i < |gens| ==> gens[i].cap > 0
  }

  /** A run creates nothing exactly when nothing that is proposed lacks a row. */
  lemma {:induction false} RunProgress(rows: seq<Artifact>, gens: seq<Generator>, remaining: nat)
    requires remaining > 0 && LimitsPositive(gens)
    ensures |Generators(rows, gens, remaining)| == |rows| <==> Saturated(rows, gens)
    decreases |gens|
  {
    if gens != [] {
      GenerateCount(rows, gens[0].candidates, Min(remaining, gens[0].cap));
      var r1 := Generate(rows, gens[0].candidates, Min(remaining, gens[0].cap));
      GenerateRows(rows, gens[0].candidates, Min(remaining, gens[0].cap));
      if |r1| == |rows| {
        assert r1 == rows;
        RunProgress(rows, gens[1..], remaining);
        assert Saturated(rows, gens) <==> Saturated(rows, gens[1..]) by {
          assert forall i :: 1 <= i < |gens| ==> gens[i] == gens[1..][i - 1];
        }
      }
    }
  }

  lemma {:induction false} RunRows(rows: seq<Artifact>, gens: seq<Generator>, remaining: nat)
    ensures Extends(rows, Generators(rows, gens, remaining), AllKeys(gens))
    ensures UniqueKeys(rows) ==> UniqueKeys(Generators(rows, gens, remaining))
    decreases |gens|
  {
    if gens != [] {
      var cap := Min(remaining, gens[0].cap);
      var r1 := Generate(rows, gens[0].candidates, cap);
      var left := remaining - (|r1| - |rows|);
      GenerateRows(rows, gens[0].candidates, cap);
      RunRows(r1, gens[1..], left);
      ExtendsTwice(rows, r1, Generators(r1, gens[1..], left),
                   AsSet(gens[0].candidates), AllKeys(gens[1..]), AllKeys(gens));
    }
  }

  /** The part of the table from `a` to `b` is what one generator adds to the part before it. */
  ghost predicate IsSlice(r: seq<Artifact>, gen: Generator, a: nat, b: nat, left: int) {
    && a <= b <= |r| && left >= 0
    && b - a == Min(Min(left, gen.cap), |Unrepresented(r[..a], gen.candidates)|)
    && r[a..b] == Pendings(TakeFirst(Fresh(Keys(r[..a]), gen.candidates), Min(left, gen.cap)))
  }

  /** The rows that a run adds, cut where one generator ends and the next begins. */
  ghost predicate Slices(rows: seq<Artifact>, r: seq<Artifact>, gens: seq<Generator>, budget: nat, cuts: seq<nat>) {
    && |cuts| == |gens| + 1 && cuts[0] == |rows| <= |r| && cuts[|gens|] == |r| && r[..|rows|] == rows
    && forall i :: 0 <= i < |gens| ==> IsSlice(r, gens[i], cuts[i], cuts[i + 1], budget - (cuts[i] - |rows|))
  }

  lemma PrefixOfPrefix(rows: seq<Artifact>, added: seq<Artifact>, r: seq<Artifact>)
    requires |rows + added| <= |r| && r[..|rows + added|] == rows + added
    ensures r[..|rows|] == rows && r[|rows|..|rows + added|] == added
  {
    assert r[..|rows|] == r[..|rows + added|][..|rows|];
    assert r[|rows|..|rows + added|] == r[..|rows + added|][|rows|..];
  }

  lemma SliceFirst(rows: seq<Artifact>, r1: seq<Artifact>, r: seq<Artifact>, gen: Generator, remaining: nat)
    requires r1 == Generate(rows, gen.candidates, Min(remaining, gen.cap))
    requires |r1| <= |r| && r[..|r1|] == r1
    ensures |rows| <= |r1| && r[..|rows|] == rows
    ensures IsSlice(r, gen, |rows|, |r1|, remaining)
  {
    var added := Pendings(TakeFirst(Fresh(Keys(rows), gen.candidates), Min(remaining, gen.cap)));
    GenerateExact(rows, gen.candidates, Min(remaining, gen.cap));
    GenerateCount(rows, gen.candidates, Min(remaining, gen.cap));
    PrefixOfPrefix(rows, added, r);
  }

  lemma SlicesCons(rows: seq<Artifact>, r1: seq<Artifact>, r: seq<Artifact>, gens: seq<Generator>, budget: nat, later: seq<nat>)
    requires gens != [] && |rows| <= |r1| && |r1| - |rows| <= budget
    requires Slices(r1, r, gens[1..], budget - (|r1| - |rows|), later)
    requires r[..|rows|] == rows && IsSlice(r, gens[0], |rows|, |r1|, budget)
    ensures Slices(rows, r, gens, budget, [|rows|] + later)
  {
    var cuts := [|rows|] + later;
    forall i | 0 <= i < |gens| ensures IsSlice(r, gens[i], cuts[i], cuts[i + 1], budget - (cuts[i] - |rows|)) {
      if i > 0 {
        assert gens[i] == gens[1..][i - 1] && cuts[i] == later[i - 1] && cuts[i + 1] == later[i];
        assert IsSlice(r, gens[1..][i - 1], later[i - 1], later[i], budget - (|r1| - |rows|) - (later[i - 1] - |r1|));
      }
    }
  }

  /**
   The rows a run adds are one slice per generator: the first of its suggestions that have no
   row yet, as many as its limit, the budget the earlier ones left, and the suggestions allow.
   */
  lemma {:induction false} RunSlices(rows: seq<Artifact>, gens: seq<Generator>, budget: nat) returns (cuts: seq<nat>)
    ensures Slices(rows, Generators(rows, gens, budget), gens, budget, cuts)
    decreases |gens|
  {
    if gens == [] {
      cuts := [|rows|];
      assert rows[..|rows|] == rows;
    } else {
      var r1 := Generate(rows, gens[0].candidates, Min(budget, gens[0].cap));
      var later := RunSlices(r1, gens[1..], budget - (|r1| - |rows|));
      var r := Generators(r1, gens[1..], budget - (|r1| - |rows|));
      cuts := [|rows|] + later;
      SliceFirst(rows, r1, r, gens[0], budget);
      SlicesCons(rows, r1, r, gens, budget, later);
    }
  }

  // ---- Repeated runs ------------------------------------------------------------------------

  function Repeat(rows: seq<Artifact>, gens: seq<Generator>, budget: nat, runs: nat): seq<Artifact>
    decreases runs
  {
    if runs == 0 then rows else Generators(Repeat(rows, gens, budget, runs - 1), gens, budget)
  }

  lemma {:induction false} SaturatedMeaning(rows: seq<Artifact>, gens: seq<Generator>)
    ensures Saturated(rows, gens) <==> AllKeys(gens) <= Keys(rows)
    decreases |gens|
  {
    if gens != [] {
      SaturatedMeaning(rows, gens[1..]);
      assert forall i :: 1 <= i < |gens| ==> gens[i] == gens[1..][i - 1];
      assert Saturated(rows, gens) <==>
        Unrepresented(rows, gens[0].candidates) == {} && Saturated(rows, gens[1..]);
      assert Unrepresented(rows, gens[0].candidates) == AsSet(gens[0].candidates) - Keys(rows);
      UnionWithin(AsSet(gens[0].candidates), AllKeys(gens[1..]), Keys(rows));
    }
  }

  lemma UnionWithin(a: set<Key>, b: set<Key>, k: set<Key>)
    ensures a + b <= k <==> a - k == {} && b <= k
  {
    if a + b <= k {
      forall x | x in a + b ensures x in k {}
    }
    if a - k == {} && b <= k {
      forall x | x in a + b ensures x in k { assert x !in a - k; }
    }
  }

  /** How many proposed suggestions have no row. */
  ghost function Work(rows: seq<Artifact>, gens: seq<Generator>): nat {
    |AllKeys(gens) - Keys(rows)|
  }

  /** A run that is not idle brings the proposed suggestions closer to all having rows. */
  lemma RunShrinksWork(rows: seq<Artifact>, gens: seq<Generator>, budget: nat)
    requires budget > 0 && LimitsPositive(gens) && !Saturated(rows, gens)
    ensures Work(Generators(rows, gens, budget), gens) < Work(rows, gens)
  {
    var r := Generators(rows, gens, budget);
    RunProgress(rows, gens, budget);
    RunRows(rows, gens, budget);
    ExtendsKeys(rows, r, AllKeys(gens));
    assert Created(r[|rows|], rows, AllKeys(gens)) && r[|rows|] in r;
    SmallerSet(AllKeys(gens) - Keys(r), AllKeys(gens) - Keys(rows), r[|rows|].key);
  }

  lemma SmallerSet(a: set<Key>, b: set<Key>, k: Key)
    requires a <= b && k in b && k !in a
    ensures |a| < |b|
  {
    assert a <= b - {k};
    SubsetSize(a, b - {k});
  }

  lemma {:induction false} SubsetSize(a: set<Key>, b: set<Key>)
    requires a <= b
    ensures |a| <= |b|
    decreases |a|
  {
    if x :| x in a { SubsetSize(a - {x}, b - {x}); }
  }

  lemma SaturatedRunIsIdle(rows: seq<Artifact>, gens: seq<Generator>, budget: nat)
    requires budget > 0 && LimitsPositive(gens)
    ensures Saturated(rows, gens) <==> Generators(rows, gens, budget) == rows
  {
    RunProgress(rows, gens, budget);
    RunRows(rows, gens, budget);
  }

  lemma NoWorkLeft(rows: seq<Artifact>, gens: seq<Generator>)
    ensures Work(rows, gens) == 0 <==> Saturated(rows, gens)
    ensures Work(rows, gens) == 0 <==> AllKeys(gens) <= Keys(rows)
  {
    SaturatedMeaning(rows, gens);
    assert AllKeys(gens) <= Keys(rows) <==> AllKeys(gens) - Keys(rows) == {};
  }

  /** Rows that runs added to `start`, with one row per suggestion. */
  ghost predicate Grown(start: seq<Artifact>, rows: seq<Artifact>, gens: seq<Generator>) {
    UniqueKeys(rows) && Extends(start, rows, AllKeys(gens))
  }

  lemma RunKeepsGrown(start: seq<Artifact>, rows: seq<Artifact>, gens: seq<Generator>, budget: nat)
    requires Grown(start, rows, gens)
    ensures Grown(start, Generators(rows, gens, budget), gens)
  {
    RunRows(rows, gens, budget);
    ExtendsTwice(start, rows, Generators(rows, gens, budget), AllKeys(gens), AllKeys(gens), AllKeys(gens));
  }

  lemma RunReducesWork(rows: seq<Artifact>, gens: seq<Generator>, budget: nat)
    requires budget > 0 && LimitsPositive(gens)
    ensures Work(Generators(rows, gens, budget), gens) < Work(rows, gens)
         || Work(Generators(rows, gens, budget), gens) == 0
  {
    if Saturated(rows, gens) {
      NoWorkLeft(rows, gens);
      SaturatedRunIsIdle(rows, gens, budget);
    } else {
      RunShrinksWork(rows, gens, budget);
    }
  }

  lemma {:induction false} RepeatGrown(rows: seq<Artifact>, gens: seq<Generator>, budget: nat, runs: nat)
    requires UniqueKeys(rows)
    ensures Grown(rows, Repeat(rows, gens, budget, runs), gens)
    decreases runs
  {
    if runs > 0 {
      RepeatGrown(rows, gens, budget, runs - 1);
      RunKeepsGrown(rows, Repeat(rows, gens, budget, runs - 1), gens, budget);
    }
  }

  lemma {:induction false} RepeatWork(rows: seq<Artifact>, gens: seq<Generator>, budget: nat, runs: nat)
    requires budget > 0 && LimitsPositive(gens)
    ensures Work(Repeat(rows, gens, budget, runs), gens) <= Max(0, Work(rows, gens) - runs)
    decreases runs
  {
    if runs > 0 {
      RepeatWork(rows, gens, budget, runs - 1);
      RunReducesWork(Repeat(rows, gens, budget, runs - 1), gens, budget);
    }
  }

  /**
   Repeating a run reaches, after at most as many runs as suggestions lack a row, a
   table with exactly one row per proposed suggestion, where further runs are idle.
   */
  lemma RepeatedRunsConverge(rows: seq<Artifact>, gens: seq<Generator>, budget: nat, runs: nat)
    requires budget > 0 && LimitsPositive(gens) && UniqueKeys(rows) && runs >= Work(rows, gens)
    ensures var r := Repeat(rows, gens, budget, runs);
            && Grown(rows, r, gens)
            && AllKeys(gens) <= Keys(r)
            && Generators(r, gens, budget) == r
  {
    var r := Repeat(rows, gens, budget, runs);
    RepeatGrown(rows, gens, budget, runs);
    RepeatWork(rows, gens, budget, runs);
    NoWorkLeft(r, gens);
    SaturatedRunIsIdle(r, gens, budget);
  }

  // ---- Kinds ----------------------------------------------------------------------------------

  const PROJECT_MEMORY: string := "project_memory_candidate"
  const GRAPH_RELATION: string := "graph_relation_candidate"
  const ENTITY_MERGE: string := "entity_merge_candidate"
  const KNOWLEDGE_GAP: string := "knowledge_gap"
  const HEALTH_FIX: string := "health_fix"

  /** What the five generators propose in one run. */
  datatype Proposals = Proposals(
    memories: seq<Key>, relations: seq<Key>, merges: seq<Key>, health: seq<Key>, gaps: seq<Key>)

  function FiveGenerators(p: Proposals): (gens: seq<Generator>)
    ensures |gens| == 5 && forall i :: 0 <= i < 5 ==> gens[i].cap == MAX_PER_GENERATOR
  {
    [Generator(MAX_PER_GENERATOR, p.memories), Generator(MAX_PER_GENERATOR, p.relations),
     Generator(MAX_PER_GENERATOR, p.merges), Generator(MAX_PER_GENERATOR, p.health),
     Generator(MAX_PER_GENERATOR, p.gaps)]
  }

  ghost predicate KindsIn(ks: seq<Key>, kinds: set<string>) { forall k :: k in ks ==> k.0 in kinds }

  /** Each generator proposes its own kind; a health issue becomes one of three. */
  ghost predicate WellKinded(p: Proposals) {
    && KindsIn(p.memories, {PROJECT_MEMORY}) && KindsIn(p.relations, {GRAPH_RELATION})
    && KindsIn(p.merges, {ENTITY_MERGE}) && KindsIn(p.gaps, {KNOWLEDGE_GAP})
    && KindsIn(p.health, {KNOWLEDGE_GAP, HEALTH_FIX, PROJECT_MEMORY})
  }

  function KeyKind(kind: string): Key -> bool {
    (k: Key) => k.0 == kind
  }

  function RowKind(kind: string): Artifact -> bool {
    (a: Artifact) => a.key.0 == kind
  }

  /** How many rows of a kind `r` has more than `rows`. */
  function CreatedOfKind(rows: seq<Artifact>, r: seq<Artifact>, kind: string): int {
    CountWhere(r, RowKind(kind)) - CountWhere(rows, RowKind(kind))
  }

  lemma {:induction false} CountAtMost<T>(s: seq<T>, p: T -> bool)
    ensures CountWhere(s, p) <= |s|
    ensures (forall x :: x in s ==> p(x)) ==> CountWhere(s, p) == |s|
    ensures (forall x :: x in s ==> !p(x)) ==> CountWhere(s, p) == 0
  {
    if s != [] {
      assert s[0] in s && (forall x :: x in s[1..] ==> x in s);
      CountAtMost(s[1..], p);
    }
  }

  lemma {:induction false} PendingsCount(ks: seq<Key>, kind: string)
    ensures CountWhere(Pendings(ks), RowKind(kind)) == CountWhere(ks, KeyKind(kind))
  {
    if ks != [] {
      assert Pendings(ks)[1..] == Pendings(ks[1..]);
      PendingsCount(ks[1..], kind);
    }
  }

  lemma AppendedOfKind(rows: seq<Artifact>, ks: seq<Key>, kind: string)
    ensures CreatedOfKind(rows, rows + Pendings(ks), kind) == CountWhere(ks, KeyKind(kind))
  {
    CountWhereAppend(rows, Pendings(ks), RowKind(kind));
    PendingsCount(ks, kind);
  }

  function Proposes(kind: string): Generator -> bool {
    (g: Generator) => exists i :: 0 <= i < |g.candidates| && g.candidates[i].0 == kind
  }

  lemma GeneratedOfKind(rows: seq<Artifact>, gen: Generator, limit: nat, kind: string)
    requires limit <= gen.cap
    ensures var n := CreatedOfKind(rows, Generate(rows, gen.candidates, limit), kind);
            0 <= n <= (if Proposes(kind)(gen) then gen.cap else 0)
  {
    var ks := TakeFirst(Fresh(Keys(rows), gen.candidates), limit);
    GenerateExact(rows, gen.candidates, limit);
    AppendedOfKind(rows, ks, kind);
    CountAtMost(ks, KeyKind(kind));
    FreshMembers(Keys(rows), gen.candidates);
    forall k | k in ks && !Proposes(kind)(gen) ensures !KeyKind(kind)(k) {
      assert k in Fresh(Keys(rows), gen.candidates);
      assert k in gen.candidates;
    }
  }

  /** A run creates at most the limit of a kind for each generator that proposes it. */
  lemma {:induction false} KindWithinProposers(rows: seq<Artifact>, gens: seq<Generator>, budget: nat, kind: string)
    requires forall i :: 0 <= i < |gens| ==> gens[i].cap <= MAX_PER_GENERATOR
    ensures CreatedOfKind(rows, Generators(rows, gens, budget), kind)
         <= MAX_PER_GENERATOR * CountWhere(gens, Proposes(kind))
    decreases |gens|
  {
    if gens != [] {
      var limit := Min(budget, gens[0].cap);
      var r1 := Generate(rows, gens[0].candidates, limit);
      GeneratedOfKind(rows, gens[0], limit, kind);
      KindWithinProposers(r1, gens[1..], budget - (|r1| - |rows|), kind);
    }
  }

  // ---- What a run of the five generators creates ------------------------------------------------

  /** The suggestions each generator will create, from the table before the run. */
  datatype Forecast = Forecast(
    memories: seq<Key>, relations: seq<Key>, merges: seq<Key>, health: seq<Key>, gaps: seq<Key>)

  function Limit(left: int): nat { Max(0, Min(left, MAX_PER_GENERATOR)) }

  ghost function ForecastRun(rows: seq<Artifact>, p: Proposals, budget: nat): Forecast {
    var known := Keys(rows);
    var m := TakeFirst(Fresh(known, p.memories), Limit(budget));
    var g := TakeFirst(Fresh(known, p.relations), Limit(budget - |m|));
    var e := TakeFirst(Fresh(known, p.merges), Limit(budget - |m| - |g|));
    var h := TakeFirst(Fresh(known + AsSet(m), p.health), Limit(budget - |m| - |g| - |e|));
    var q := TakeFirst(Fresh(known + AsSet(h), p.gaps), Limit(budget - |m| - |g| - |e| - |h|));
    Forecast(m, g, e, h, q)
  }

  ghost function ForecastKeys(f: Forecast): seq<Key> {
    f.memories + f.relations + f.merges + f.health + f.gaps
  }

  lemma KeysPendings(rows: seq<Artifact>, ks: seq<Key>)
    ensures Keys(rows + Pendings(ks)) == Keys(rows) + AsSet(ks)
  {
    var r := rows + Pendings(ks);
    forall k | k in Keys(rows) ensures k in Keys(r) {
      var i :| 0 <= i < |rows| && rows[i].key == k;
      assert r[i] in r;
    }
    forall k | k in AsSet(ks) ensures k in Keys(r) {
      var i :| 0 <= i < |ks| && ks[i] == k;
      assert r[|rows| + i] == Artifact(k, Pending) && r[|rows| + i] in r;
    }
    forall k | k in Keys(r) ensures k in Keys(rows) + AsSet(ks) {
      var i :| 0 <= i < |r| && r[i].key == k;
      if i < |rows| { assert rows[i] in rows; } else { assert ks[i - |rows|] in ks; }
    }
  }

  /** One stage: keys of other kinds that were created before do not matter. */
  lemma StageCreates(rows: seq<Artifact>, before: seq<Key>, relevant: seq<Key>, candidates: seq<Key>, limit: nat)
    requires forall k :: k in candidates ==> (k in AsSet(before) <==> k in AsSet(relevant))
    ensures Generate(rows + Pendings(before), candidates, limit)
         == rows + Pendings(before + TakeFirst(Fresh(Keys(rows) + AsSet(relevant), candidates), limit))
  {
    var new_ := TakeFirst(Fresh(Keys(rows) + AsSet(relevant), candidates), limit);
    GenerateExact(rows + Pendings(before), candidates, limit);
    KeysPendings(rows, before);
    FreshAgree(Keys(rows) + AsSet(before), Keys(rows) + AsSet(relevant), candidates);
    assert Pendings(before + new_) == Pendings(before) + Pendings(new_);
    ConcatAssoc(rows, Pendings(before), Pendings(new_));
  }

  lemma FreshKinds(taken: set<Key>, candidates: seq<Key>, n: nat, kinds: set<string>)
    requires KindsIn(candidates, kinds)
    ensures KindsIn(TakeFirst(Fresh(taken, candidates), n), kinds)
    ensures |TakeFirst(Fresh(taken, candidates), n)| <= n
  {
    FreshMembers(taken, candidates);
    var ks := TakeFirst(Fresh(taken, candidates), n);
    forall k | k in ks ensures k.0 in kinds {
      assert k in Fresh(taken, candidates);
      assert k in candidates;
    }
  }

  /** The kinds of what is forecast. */
  lemma ForecastKinds(rows: seq<Artifact>, p: Proposals, budget: nat)
    requires WellKinded(p)
    ensures var f := ForecastRun(rows, p, budget);
            && KindsIn(f.memories, {PROJECT_MEMORY}) && KindsIn(f.relations, {GRAPH_RELATION})
            && KindsIn(f.merges, {ENTITY_MERGE}) && KindsIn(f.gaps, {KNOWLEDGE_GAP})
            && KindsIn(f.health, {KNOWLEDGE_GAP, HEALTH_FIX, PROJECT_MEMORY})
  {
    var known, f := Keys(rows), ForecastRun(rows, p, budget);
    FreshKinds(known, p.memories, Limit(budget), {PROJECT_MEMORY});
    FreshKinds(known, p.relations, Limit(budget - |f.memories|), {GRAPH_RELATION});
    FreshKinds(known, p.merges, Limit(budget - |f.memories| - |f.relations|), {ENTITY_MERGE});
    FreshKinds(known + AsSet(f.memories), p.health, Limit(budget - |f.memories| - |f.relations| - |f.merges|),
               {KNOWLEDGE_GAP, HEALTH_FIX, PROJECT_MEMORY});
    FreshKinds(known + AsSet(f.health), p.gaps,
               Limit(budget - |f.memories| - |f.relations| - |f.merges| - |f.health|), {KNOWLEDGE_GAP});
  }

  /** `goal` is what is left to do after `before` was created by the first `i` generators. */
  ghost predicate Reaches(goal: seq<Artifact>, rows: seq<Artifact>, gens: seq<Generator>, budget: nat, i: nat, before: seq<Key>) {
    i <= |gens| && |before| <= budget && goal == Generators(rows + Pendings(before), gens[i..], budget - |before|)
  }

  lemma StageStep(goal: seq<Artifact>, rows: seq<Artifact>, gens: seq<Generator>, budget: nat, i: nat,
                  before: seq<Key>, relevant: seq<Key>, new_: seq<Key>)
    requires i < |gens| && gens[i].cap == MAX_PER_GENERATOR && Reaches(goal, rows, gens, budget, i, before)
    requires forall k :: k in gens[i].candidates ==> (k in AsSet(before) <==> k in AsSet(relevant))
    requires new_ == TakeFirst(Fresh(Keys(rows) + AsSet(relevant), gens[i].candidates), Limit(budget - |before|))
    ensures Reaches(goal, rows, gens, budget, i + 1, before + new_)
  {
    var left := budget - |before|;
    StageCreates(rows, before, relevant, gens[i].candidates, Limit(left));
    GeneratorsFrom(rows + Pendings(before), gens, i, left);
  }

  lemma NoneOfKind(before: seq<Key>, candidates: seq<Key>, a: set<string>, b: set<string>)
    requires KindsIn(before, a) && KindsIn(candidates, b) && a !! b
    ensures forall k :: k in candidates ==> k !in AsSet(before)
  {
  }

  lemma KindsOfConcat(a: seq<Key>, b: seq<Key>, ka: set<string>, kb: set<string>)
    requires KindsIn(a, ka) && KindsIn(b, kb)
    ensures KindsIn(a + b, ka + kb)
  {
  }

  lemma RunStarts(rows: seq<Artifact>, gens: seq<Generator>, budget: nat)
    ensures Reaches(Generators(rows, gens, budget), rows, gens, budget, 0, [])
  {
    assert rows + Pendings([]) == rows && gens[0..] == gens;
  }

  /** A generator whose kinds were not created yet in this run only looks at the table before it. */
  lemma SeparateStage(goal: seq<Artifact>, rows: seq<Artifact>, gens: seq<Generator>, budget: nat, i: nat,
                      before: seq<Key>, new_: seq<Key>, earlier: set<string>, own: set<string>)
    requires i < |gens| && gens[i].cap == MAX_PER_GENERATOR && Reaches(goal, rows, gens, budget, i, before)
    requires KindsIn(before, earlier) && KindsIn(gens[i].candidates, own) && earlier !! own
    requires new_ == TakeFirst(Fresh(Keys(rows), gens[i].candidates), Limit(budget - |before|))
    ensures Reaches(goal, rows, gens, budget, i + 1, before + new_)
  {
    NoneOfKind(before, gens[i].candidates, earlier, own);
    assert Keys(rows) == Keys(rows) + AsSet([]);
    StageStep(goal, rows, gens, budget, i, before, [], new_);
  }

  lemma MemoryStage(goal: seq<Artifact>, rows: seq<Artifact>, p: Proposals, budget: nat)
    requires WellKinded(p) && Reaches(goal, rows, FiveGenerators(p), budget, 0, [])
    ensures Reaches(goal, rows, FiveGenerators(p), budget, 1, ForecastRun(rows, p, budget).memories)
  {
    var f := ForecastRun(rows, p, budget);
    SeparateStage(goal, rows, FiveGenerators(p), budget, 0, [], f.memories, {}, {PROJECT_MEMORY});
    assert [] + f.memories == f.memories;
  }

  lemma RelationStage(goal: seq<Artifact>, rows: seq<Artifact>, p: Proposals, budget: nat)
    requires WellKinded(p) && Reaches(goal, rows, FiveGenerators(p), budget, 1, ForecastRun(rows, p, budget).memories)
    ensures var f := ForecastRun(rows, p, budget);
            Reaches(goal, rows, FiveGenerators(p), budget, 2, f.memories + f.relations)
  {
    var f := ForecastRun(rows, p, budget);
    ForecastKinds(rows, p, budget);
    KindsDiffer();
    SeparateStage(goal, rows, FiveGenerators(p), budget, 1, f.memories, f.relations, {PROJECT_MEMORY}, {GRAPH_RELATION});
  }

  lemma MergeStage(goal: seq<Artifact>, rows: seq<Artifact>, p: Proposals, budget: nat)
    requires WellKinded(p)
    requires var f := ForecastRun(rows, p, budget);
             Reaches(goal, rows, FiveGenerators(p), budget, 2, f.memories + f.relations)
    ensures var f := ForecastRun(rows, p, budget);
            Reaches(goal, rows, FiveGenerators(p), budget, 3, f.memories + f.relations + f.merges)
  {
    var f := ForecastRun(rows, p, budget);
    ForecastKinds(rows, p, budget);
    KindsDiffer();
    KindsOfConcat(f.memories, f.relations, {PROJECT_MEMORY}, {GRAPH_RELATION});
    SeparateStage(goal, rows, FiveGenerators(p), budget, 2, f.memories + f.relations, f.merges,
                  {PROJECT_MEMORY} + {GRAPH_RELATION}, {ENTITY_MERGE});
  }

  lemma HealthStage(goal: seq<Artifact>, rows: seq<Artifact>, p: Proposals, budget: nat)
    requires WellKinded(p)
    requires var f := ForecastRun(rows, p, budget);
             Reaches(goal, rows, FiveGenerators(p), budget, 3, f.memories + f.relations + f.merges)
    ensures var f := ForecastRun(rows, p, budget);
            Reaches(goal, rows, FiveGenerators(p), budget, 4, f.memories + f.relations + f.merges + f.health)
  {
    var f := ForecastRun(rows, p, budget);
    ForecastKinds(rows, p, budget);
    SeenByHealth(f.memories, f.relations, f.merges, p.health);
    StageStep(goal, rows, FiveGenerators(p), budget, 3, f.memories + f.relations + f.merges, f.memories, f.health);
  }

  lemma GapStage(goal: seq<Artifact>, rows: seq<Artifact>, p: Proposals, budget: nat)
    requires WellKinded(p)
    requires var f := ForecastRun(rows, p, budget);
             Reaches(goal, rows, FiveGenerators(p), budget, 4, f.memories + f.relations + f.merges + f.health)
    ensures Reaches(goal, rows, FiveGenerators(p), budget, 5, ForecastKeys(ForecastRun(rows, p, budget)))
  {
    var f := ForecastRun(rows, p, budget);
    ForecastKinds(rows, p, budget);
    var before := f.memories + f.relations + f.merges;
    SeenByGaps(before, f.health, p.gaps);
    StageStep(goal, rows, FiveGenerators(p), budget, 4, before + f.health, f.health, f.gaps);
  }

  lemma RunEnds(goal: seq<Artifact>, rows: seq<Artifact>, gens: seq<Generator>, budget: nat, ks: seq<Key>)
    requires Reaches(goal, rows, gens, budget, |gens|, ks)
    ensures goal == rows + Pendings(ks)
  {
    assert gens[|gens|..] == [];
  }

  lemma SeenByHealth(m: seq<Key>, g: seq<Key>, e: seq<Key>, health: seq<Key>)
    requires KindsIn(g, {GRAPH_RELATION}) && KindsIn(e, {ENTITY_MERGE})
    requires KindsIn(health, {KNOWLEDGE_GAP, HEALTH_FIX, PROJECT_MEMORY})
    ensures forall k :: k in health ==> (k in AsSet(m + g + e) <==> k in AsSet(m))
  {
    NoneOfKind(g, health, {GRAPH_RELATION}, {KNOWLEDGE_GAP, HEALTH_FIX, PROJECT_MEMORY});
    NoneOfKind(e, health, {ENTITY_MERGE}, {KNOWLEDGE_GAP, HEALTH_FIX, PROJECT_MEMORY});
    assert forall k :: k in AsSet(m + g + e) <==> k in AsSet(m) || k in AsSet(g) || k in AsSet(e);
  }

  lemma SeenByGaps(before: seq<Key>, h: seq<Key>, gaps: seq<Key>)
    requires KindsIn(before, {PROJECT_MEMORY} + {GRAPH_RELATION} + {ENTITY_MERGE}) && KindsIn(gaps, {KNOWLEDGE_GAP})
    ensures forall k :: k in gaps ==> (k in AsSet(before + h) <==> k in AsSet(h))
  {
    NoneOfKind(before, gaps, {PROJECT_MEMORY} + {GRAPH_RELATION} + {ENTITY_MERGE}, {KNOWLEDGE_GAP});
    assert forall k :: k in AsSet(before + h) <==> k in AsSet(before) || k in AsSet(h);
  }

  /** A run appends exactly what the table and the proposals forecast. */
  lemma ForecastExact(rows: seq<Artifact>, p: Proposals, budget: nat)
    requires WellKinded(p)
    ensures Generators(rows, FiveGenerators(p), budget) == rows + Pendings(ForecastKeys(ForecastRun(rows, p, budget)))
  {
    var goal := Generators(rows, FiveGenerators(p), budget);
    RunStarts(rows, FiveGenerators(p), budget);
    MemoryStage(goal, rows, p, budget);
    RelationStage(goal, rows, p, budget);
    MergeStage(goal, rows, p, budget);
    HealthStage(goal, rows, p, budget);
    GapStage(goal, rows, p, budget);
    RunEnds(goal, rows, FiveGenerators(p), budget, ForecastKeys(ForecastRun(rows, p, budget)));
  }

  /** How many a generator creates when nothing it proposes was created earlier in the run. */
  function Share(left: int, unrepresented: nat): nat { Min(Limit(left), unrepresented) }

  lemma DistinctSet(s: seq<Key>)
    requires Distinct(s)
    ensures |AsSet(s)| == |s|
  {
    if s != [] {
      DistinctSet(s[1..]);
      assert s == [s[0]] + s[1..];
      assert AsSet(s) == {s[0]} + AsSet(s[1..]) && s[0] !in AsSet(s[1..]);
    }
  }

  lemma FreshSize(rows: seq<Artifact>, candidates: seq<Key>, left: int)
    ensures |TakeFirst(Fresh(Keys(rows), candidates), Limit(left))| == Share(left, |Unrepresented(rows, candidates)|)
  {
    FreshMembers(Keys(rows), candidates);
    DistinctSet(Fresh(Keys(rows), candidates));
    assert AsSet(Fresh(Keys(rows), candidates)) == Unrepresented(rows, candidates);
  }

  /** The sizes of the first three shares, from the numbers of suggestions without a row. */
  lemma ForecastSizes(rows: seq<Artifact>, p: Proposals, budget: nat)
    ensures var f := ForecastRun(rows, p, budget);
            && |f.memories| == Share(budget, |Unrepresented(rows, p.memories)|)
            && |f.relations| == Share(budget - |f.memories|, |Unrepresented(rows, p.relations)|)
            && |f.merges| == Share(budget - |f.memories| - |f.relations|, |Unrepresented(rows, p.merges)|)
  {
    var f := ForecastRun(rows, p, budget);
    FreshSize(rows, p.memories, budget);
    FreshSize(rows, p.relations, budget - |f.memories|);
    FreshSize(rows, p.merges, budget - |f.memories| - |f.relations|);
  }

  lemma CountConcat(f: Forecast, kind: string)
    ensures CountWhere(ForecastKeys(f), KeyKind(kind))
         == CountWhere(f.memories, KeyKind(kind)) + CountWhere(f.relations, KeyKind(kind))
          + CountWhere(f.merges, KeyKind(kind)) + CountWhere(f.health, KeyKind(kind)) + CountWhere(f.gaps, KeyKind(kind))
  {
    var p := KeyKind(kind);
    CountWhereAppend(f.memories, f.relations, p);
    CountWhereAppend(f.memories + f.relations, f.merges, p);
    CountWhereAppend(f.memories + f.relations + f.merges, f.health, p);
    CountWhereAppend(f.memories + f.relations + f.merges + f.health, f.gaps, p);
  }

  lemma CountOwnKind(ks: seq<Key>, own: string, kind: string)
    requires KindsIn(ks, {own})
    ensures CountWhere(ks, KeyKind(kind)) == if kind == own then |ks| else 0
  {
    CountAtMost(ks, KeyKind(kind));
  }

  /** Rows of each kind that a run creates. */
  lemma KindCounts(rows: seq<Artifact>, p: Proposals, budget: nat, kind: string)
    requires WellKinded(p)
    ensures var f := ForecastRun(rows, p, budget);
            CreatedOfKind(rows, Generators(rows, FiveGenerators(p), budget), kind)
            == (if kind == PROJECT_MEMORY then |f.memories| else 0)
             + (if kind == GRAPH_RELATION then |f.relations| else 0)
             + (if kind == ENTITY_MERGE then |f.merges| else 0)
             + CountWhere(f.health, KeyKind(kind))
             + (if kind == KNOWLEDGE_GAP then |f.gaps| else 0)
  {
    var f := ForecastRun(rows, p, budget);
    ForecastExact(rows, p, budget);
    ForecastKinds(rows, p, budget);
    AppendedOfKind(rows, ForecastKeys(f), kind);
    CountConcat(f, kind);
    CountOwnKind(f.memories, PROJECT_MEMORY, kind);
    CountOwnKind(f.relations, GRAPH_RELATION, kind);
    CountOwnKind(f.merges, ENTITY_MERGE, kind);
    CountOwnKind(f.gaps, KNOWLEDGE_GAP, kind);
  }

  lemma HealthKinds(f: Forecast, kind: string)
    requires KindsIn(f.health, {KNOWLEDGE_GAP, HEALTH_FIX, PROJECT_MEMORY})
    ensures CountWhere(f.health, KeyKind(kind)) <= |f.health|
    ensures kind !in {KNOWLEDGE_GAP, HEALTH_FIX, PROJECT_MEMORY} ==> CountWhere(f.health, KeyKind(kind)) == 0
  {
    CountAtMost(f.health, KeyKind(kind));
  }

  lemma ForecastLimits(rows: seq<Artifact>, p: Proposals, budget: nat)
    ensures var f := ForecastRun(rows, p, budget);
            && |f.memories| <= MAX_PER_GENERATOR && |f.relations| <= MAX_PER_GENERATOR && |f.merges| <= MAX_PER_GENERATOR
            && |f.health| <= MAX_PER_GENERATOR && |f.gaps| <= MAX_PER_GENERATOR
  {
  }

  /**
   A run exceeds the limit of a kind exactly in two cases: new project memories and health
   contradictions together, or health gaps and knowledge gaps together, as the table, the
   proposals and the budget left to each generator foretell.
   */
  lemma KindExceedsLimit(rows: seq<Artifact>, p: Proposals, budget: nat, kind: string)
    requires WellKinded(p)
    ensures var f := ForecastRun(rows, p, budget);
            CreatedOfKind(rows, Generators(rows, FiveGenerators(p), budget), kind) > MAX_PER_GENERATOR
            <==>
            || (kind == PROJECT_MEMORY &&
                Share(budget, |Unrepresented(rows, p.memories)|) + CountWhere(f.health, KeyKind(PROJECT_MEMORY))
                > MAX_PER_GENERATOR)
            || (kind == KNOWLEDGE_GAP &&
                CountWhere(f.health, KeyKind(KNOWLEDGE_GAP)) + |f.gaps| > MAX_PER_GENERATOR)
  {
    var f := ForecastRun(rows, p, budget);
    KindCounts(rows, p, budget, kind);
    ForecastSizes(rows, p, budget);
    ForecastKinds(rows, p, budget);
    ForecastLimits(rows, p, budget);
    HealthKinds(f, kind);
    KindsDiffer();
  }

  lemma KindsDiffer()
    ensures PROJECT_MEMORY != GRAPH_RELATION && PROJECT_MEMORY != ENTITY_MERGE && PROJECT_MEMORY != KNOWLEDGE_GAP
    ensures PROJECT_MEMORY != HEALTH_FIX && GRAPH_RELATION != ENTITY_MERGE && GRAPH_RELATION != KNOWLEDGE_GAP
    ensures GRAPH_RELATION != HEALTH_FIX && ENTITY_MERGE != KNOWLEDGE_GAP && ENTITY_MERGE != HEALTH_FIX
    ensures KNOWLEDGE_GAP != HEALTH_FIX
  {
    assert PROJECT_MEMORY[0] == 'p' && GRAPH_RELATION[0] == 'g' && ENTITY_MERGE[0] == 'e';
    assert KNOWLEDGE_GAP[0] == 'k' && HEALTH_FIX[0] == 'h';
  }

  lemma {:induction false} FreshAll(taken: set<Key>, candidates: seq<Key>)
    requires Distinct(candidates) && (forall k :: k in candidates ==> k !in taken)
    ensures Fresh(taken, candidates) == candidates
    decreases |candidates|
  {
    if candidates != [] {
      var c, rest := candidates[0], candidates[1..];
      assert c in candidates && (forall k :: k in rest ==> k in candidates);
      forall k | k in rest ensures k !in taken + {c} {
        var i :| 0 <= i < |rest| && rest[i] == k;
        assert candidates[i + 1] == k;
      }
      FreshAll(taken + {c}, rest);
    }
  }

  /** One suggestion of a kind per letter. */
  function Letters(kind: string, letters: string): (ks: seq<Key>)
    ensures |ks| == |letters| && forall i :: 0 <= i < |letters| ==> ks[i] == (kind, [letters[i]])
  {
    seq(|letters|, i requires 0 <= i < |letters| => (kind, [letters[i]]))
  }

  lemma LettersDistinct(kind: string, letters: string)
    requires Distinct(letters)
    ensures Distinct(Letters(kind, letters)) && KindsIn(Letters(kind, letters), {kind})
  {
    var ks := Letters(kind, letters);
    forall i, j | 0 <= i < j < |ks| ensures ks[i] != ks[j] { assert [letters[i]][0] != [letters[j]][0]; }
  }

  /** Eight project memories and eight health contradictions on an empty table. */
  function EightAndEight(): Proposals {
    Proposals(Letters(PROJECT_MEMORY, "abcdefgh"), [], [], Letters(PROJECT_MEMORY, "stuvwxyz"), [])
  }

  lemma EightAndEightKinds()
    ensures var p := EightAndEight();
            WellKinded(p) && Distinct(p.memories) && Distinct(p.health) && (forall k :: k in p.health ==> k !in p.memories)
  {
    LettersDistinct(PROJECT_MEMORY, "abcdefgh");
    LettersDistinct(PROJECT_MEMORY, "stuvwxyz");
    var p := EightAndEight();
    forall k | k in p.health ensures k !in p.memories {
      var j :| 0 <= j < |p.health| && p.health[j] == k;
      forall i | 0 <= i < |p.memories| ensures p.memories[i] != k {
        assert p.memories[i].1[0] != p.health[j].1[0];
      }
    }
  }

  lemma EightAndEightForecast(rows: seq<Artifact>, p: Proposals, budget: nat)
    requires rows == [] && p == EightAndEight() && budget == 24
    ensures var f := ForecastRun(rows, p, budget);
            f.memories == p.memories && f.relations == [] && f.merges == [] && f.health == p.health && f.gaps == []
  {
    EightAndEightKinds();
    FreshAll(Keys(rows), p.memories);
    FreshAll(Keys(rows) + AsSet(p.memories), p.health);
    assert TakeFirst(p.memories, 8) == p.memories && TakeFirst(p.health, 8) == p.health;
  }

  /** Memories and contradictions that all fit become rows of one kind. */
  lemma BothSharesCount(rows: seq<Artifact>, p: Proposals, budget: nat)
    requires WellKinded(p) && KindsIn(p.health, {PROJECT_MEMORY})
    requires ForecastRun(rows, p, budget).memories == p.memories && ForecastRun(rows, p, budget).health == p.health
    ensures CreatedOfKind(rows, Generators(rows, FiveGenerators(p), budget), PROJECT_MEMORY) == |p.memories| + |p.health|
  {
    KindCounts(rows, p, budget, PROJECT_MEMORY);
    KindsDiffer();
    CountOwnKind(p.health, PROJECT_MEMORY, PROJECT_MEMORY);
  }

  /** With the default budget they become sixteen rows of one kind: twice the limit. */
  lemma KindReachesTwiceTheLimit(rows: seq<Artifact>, p: Proposals, budget: nat)
    requires rows == [] && p == EightAndEight() && budget == Budget(None)
    ensures CreatedOfKind(rows, Generators(rows, FiveGenerators(p), budget), PROJECT_MEMORY) == 2 * MAX_PER_GENERATOR
  {
    EightAndEightKinds();
    EightAndEightForecast(rows, p, budget);
    LettersDistinct(PROJECT_MEMORY, "stuvwxyz");
    BothSharesCount(rows, p, budget);
  }

  // ---- The life cycle of an artifact ----------------------------------------------------------

  /** Every operation on the inbox; `ok` says whether applying or undoing the payload succeeded. */
  datatype Step =
    | Run(gens: seq<Generator>, requested: Option<nat>)
    | Apply(row: nat, ok: bool)
    | Undo(row: nat, ok: bool)
    | Reject(row: nat)
    | Edit(row: nat, payload: string)

  datatype StepError = NotFound | WrongStatus | PayloadFailed

  /** Pending may become anything; applied may only be undone; the rest is final. */
  predicate Leads(a: Status, b: Status) {
    a == b || a == Pending || (a == Applied && b == Undone)
  }

  function Move(rows: seq<Artifact>, row: nat, from: Status, to: Status, ok: bool): Result<seq<Artifact>, StepError> {
    if row >= |rows| then Err(NotFound)
    else if rows[row].status != from then Err(WrongStatus)
    else if !ok then Err(PayloadFailed)
    else Ok(rows[row := rows[row].(status := to)])
  }

  function Do(rows: seq<Artifact>, step: Step): Result<seq<Artifact>, StepError> {
    match step
    case Run(gens, requested) => Ok(Generators(rows, gens, Budget(requested)))
    case Apply(row, ok) => Move(rows, row, Pending, Applied, ok)
    case Undo(row, ok) => Move(rows, row, Applied, Undone, ok)
    case Reject(row) => Move(rows, row, Pending, Rejected, true)
    case Edit(row, payload) =>
      if row >= |rows| then Err(NotFound)
      else if rows[row].status != Pending then Err(WrongStatus)
      else Ok(rows[row := rows[row].(key := (rows[row].key.0, payload))])
  }

  /** A history of steps; a refused step changes nothing. */
  function History(rows: seq<Artifact>, steps: seq<Step>): seq<Artifact>
    decreases |steps|
  {
    if steps == [] then rows else
    var before := History(rows, steps[..|steps| - 1]);
    var next := Do(before, steps[|steps| - 1]);
    if next.Ok? then next.value else before
  }

  /** Rows stay, statuses go forward, and what is no longer pending keeps its key. */
  ghost predicate Evolves(rows: seq<Artifact>, r: seq<Artifact>) {
    && |rows| <= |r|
    && (forall i :: 0 <= i < |rows| ==>
          && Leads(rows[i].status, r[i].status)
          && (rows[i].status != Pending ==> r[i].key == rows[i].key))
  }

  lemma DoEvolves(rows: seq<Artifact>, step: Step)
    requires Do(rows, step).Ok?
    ensures Evolves(rows, Do(rows, step).value)
  {
    if step.Run? { RunRows(rows, step.gens, Budget(step.requested)); }
  }

  lemma {:induction false} HistoryEvolves(rows: seq<Artifact>, steps: seq<Step>)
    ensures Evolves(rows, History(rows, steps))
    decreases |steps|
  {
    if steps != [] {
      var before := History(rows, steps[..|steps| - 1]);
      HistoryEvolves(rows, steps[..|steps| - 1]);
      var next := Do(before, steps[|steps| - 1]);
      if next.Ok? {
        DoEvolves(before, steps[|steps| - 1]);
        EvolvesTwice(rows, before, next.value);
      }
    }
  }

  lemma EvolvesTwice(a: seq<Artifact>, b: seq<Artifact>, c: seq<Artifact>)
    requires Evolves(a, b) && Evolves(b, c)
    ensures Evolves(a, c)
  {
  }

  /** A status change: refused without a trace, or this one status and nothing else. */
  ghost predicate Moves(rows: seq<Artifact>, row: nat, from: Status, to: Status, ok: bool,
                        after: seq<Artifact>, r: Result<(), StepError>) {
    && (r == Err(NotFound) <==> row >= |rows|)
    && (r == Err(WrongStatus) <==> row < |rows| && rows[row].status != from)
    && (r == Err(PayloadFailed) <==> row < |rows| && rows[row].status == from && !ok)
    && (r.Err? ==> after == rows)
    && (r.Ok? ==>
          && |after| == |rows| && row < |rows|
          && after[row].status == to && after[row].key == rows[row].key
          && forall i :: 0 <= i < |rows| && i != row ==> after[i] == rows[i])
  }

  /** What each step does to the table, one by one. */
  lemma StepMeaning(rows: seq<Artifact>, row: nat, ok: bool, payload: string)
    ensures var r := Do(rows, Apply(row, ok));
            Moves(rows, row, Pending, Applied, ok, if r.Ok? then r.value else rows, if r.Ok? then Ok(()) else Err(r.error))
    ensures var r := Do(rows, Undo(row, ok));
            Moves(rows, row, Applied, Undone, ok, if r.Ok? then r.value else rows, if r.Ok? then Ok(()) else Err(r.error))
    ensures var r := Do(rows, Reject(row));
            Moves(rows, row, Pending, Rejected, true, if r.Ok? then r.value else rows, if r.Ok? then Ok(()) else Err(r.error))
  {
  }

  /** An applied suggestion can be undone exactly when its payload can. */
  lemma ApplyThenUndo(rows: seq<Artifact>, row: nat, ok: bool)
    requires row < |rows| && rows[row].status == Pending
    ensures Do(rows, Apply(row, true)).Ok?
    ensures var applied := Do(rows, Apply(row, true)).value;
            && (Do(applied, Undo(row, ok)).Ok? <==> ok)
            && (ok ==> Do(applied, Undo(row, ok)) == Ok(rows[row := Artifact(rows[row].key, Undone)]))
  {
    var applied := Do(rows, Apply(row, true)).value;
    assert applied[row := Artifact(rows[row].key, Undone)] == rows[row := Artifact(rows[row].key, Undone)];
  }

  /** A rejected suggestion stays rejected in every history, and can be neither applied nor undone. */
  lemma RejectedIsFinal(rows: seq<Artifact>, row: nat, steps: seq<Step>, ok: bool)
    requires row < |rows| && rows[row].status == Pending
    ensures Do(rows, Reject(row)).Ok?
    ensures var r := History(Do(rows, Reject(row)).value, steps);
            && row < |r| && r[row] == Artifact(rows[row].key, Rejected)
            && Do(r, Undo(row, ok)) == Err(WrongStatus) && Do(r, Apply(row, ok)) == Err(WrongStatus)
  {
    HistoryEvolves(Do(rows, Reject(row)).value, steps);
  }

  /** An undone suggestion stays undone. */
  lemma UndoneIsFinal(rows: seq<Artifact>, row: nat, steps: seq<Step>)
    requires row < |rows| && rows[row].status == Applied
    ensures Do(rows, Undo(row, true)).Ok?
    ensures var r := History(Do(rows, Undo(row, true)).value, steps);
            row < |r| && r[row] == Artifact(rows[row].key, Undone)
  {
    HistoryEvolves(Do(rows, Undo(row, true)).value, steps);
  }

  ghost predicate NoEdits(steps: seq<Step>) {
    forall i :: 0 <= i < |steps| ==> !steps[i].Edit?
  }

  /** Same keys in the same rows, and new rows only behind them. */
  ghost predicate KeepsKeys(rows: seq<Artifact>, r: seq<Artifact>) {
    && |rows| <= |r|
    && (forall i :: 0 <= i < |rows| ==> r[i].key == rows[i].key)
  }

  lemma DoKeepsKeys(rows: seq<Artifact>, step: Step)
    requires Do(rows, step).Ok? && !step.Edit?
    ensures KeepsKeys(rows, Do(rows, step).value)
    ensures UniqueKeys(rows) ==> UniqueKeys(Do(rows, step).value)
  {
    if step.Run? { RunRows(rows, step.gens, Budget(step.requested)); }
  }

  lemma {:induction false} HistoryKeepsKeys(rows: seq<Artifact>, steps: seq<Step>)
    requires NoEdits(steps) && UniqueKeys(rows)
    ensures KeepsKeys(rows, History(rows, steps)) && UniqueKeys(History(rows, steps))
    decreases |steps|
  {
    if steps != [] {
      HistoryKeepsKeys(rows, steps[..|steps| - 1]);
      var before := History(rows, steps[..|steps| - 1]);
      if Do(before, steps[|steps| - 1]).Ok? { DoKeepsKeys(before, steps[|steps| - 1]); }
    }
  }

  /** Without edits a suggestion that was decided on never comes back, in any history. */
  lemma DecidedNeverReappears(rows: seq<Artifact>, steps: seq<Step>, i: nat, j: nat)
    requires NoEdits(steps) && UniqueKeys(rows) && i < |rows| && rows[i].status != Pending
    requires j < |History(rows, steps)|
    ensures var r := History(rows, steps);
            && |rows| <= |r|
            && (r[j].key == rows[i].key <==> j == i)
            && r[i].status != Pending
  {
    HistoryKeepsKeys(rows, steps);
    HistoryEvolves(rows, steps);
  }

  /** An edit keeps suggestions distinct exactly when no other row has the edited key already. */
  lemma EditKeepsUnique(rows: seq<Artifact>, row: nat, payload: string)
    requires UniqueKeys(rows) && Do(rows, Edit(row, payload)).Ok?
    ensures UniqueKeys(Do(rows, Edit(row, payload)).value) <==>
            forall i :: 0 <= i < |rows| && i != row ==> rows[i].key != (rows[row].key.0, payload)
  {
    var r := Do(rows, Edit(row, payload)).value;
    if i :| 0 <= i < |rows| && i != row && rows[i].key == (rows[row].key.0, payload) {
      assert r[i].key == r[row].key;
    }
  }

  lemma EditFreesKey(rows: seq<Artifact>, row: nat, payload: string)
    requires UniqueKeys(rows) && row < |rows| && rows[row].status == Pending && payload != rows[row].key.1
    ensures Do(rows, Edit(row, payload)).Ok?
    ensures rows[row].key !in Keys(Do(rows, Edit(row, payload)).value)
  {
    var k, r := rows[row].key, Do(rows, Edit(row, payload)).value;
    forall i | 0 <= i < |r| ensures r[i].key != k { assert i == row || rows[i].key != k; }
  }

  lemma {:induction false} RepeatExtends(rows: seq<Artifact>, gens: seq<Generator>, budget: nat, runs: nat)
    ensures Extends(rows, Repeat(rows, gens, budget, runs), AllKeys(gens))
    decreases runs
  {
    if runs > 0 {
      var r1 := Repeat(rows, gens, budget, runs - 1);
      RepeatExtends(rows, gens, budget, runs - 1);
      RunRows(r1, gens, budget);
      ExtendsTwice(rows, r1, Generators(r1, gens, budget), AllKeys(gens), AllKeys(gens), AllKeys(gens));
    }
  }

  /**
   An edited suggestion that is still proposed gets a second, pending row, after at most as
   many runs as proposed suggestions lack a row.
   */
  lemma EditedReappears(rows: seq<Artifact>, row: nat, payload: string, gens: seq<Generator>, budget: nat, runs: nat)
    returns (again: nat)
    requires UniqueKeys(rows) && row < |rows| && rows[row].status == Pending && payload != rows[row].key.1
    requires budget > 0 && LimitsPositive(gens) && rows[row].key in AllKeys(gens)
    requires Do(rows, Edit(row, payload)).Ok? && runs >= Work(Do(rows, Edit(row, payload)).value, gens)
    ensures var r := Repeat(Do(rows, Edit(row, payload)).value, gens, budget, runs);
            |rows| <= again < |r| && r[again] == Artifact(rows[row].key, Pending)
  {
    var edited, k := Do(rows, Edit(row, payload)).value, rows[row].key;
    var r := Repeat(edited, gens, budget, runs);
    EditFreesKey(rows, row, payload);
    RepeatExtends(edited, gens, budget, runs);
    RepeatCovers(edited, gens, budget, runs);
    assert k in Keys(r);
    again :| 0 <= again < |r| && r[again].key == k;
    NewKeyIsLater(edited, r, AllKeys(gens), again);
  }

  lemma RepeatCovers(rows: seq<Artifact>, gens: seq<Generator>, budget: nat, runs: nat)
    requires budget > 0 && LimitsPositive(gens) && runs >= Work(rows, gens)
    ensures AllKeys(gens) <= Keys(Repeat(rows, gens, budget, runs))
  {
    RepeatWork(rows, gens, budget, runs);
    NoWorkLeft(Repeat(rows, gens, budget, runs), gens);
  }

  lemma NewKeyIsLater(rows: seq<Artifact>, r: seq<Artifact>, allowed: set<Key>, i: nat)
    requires Extends(rows, r, allowed) && i < |r| && r[i].key !in Keys(rows)
    ensures |rows| <= i && r[i].status == Pending
  {
    assert forall j :: 0 <= j < |rows| ==> rows[j] in rows && rows[j].key in Keys(rows);
    assert Created(r[i], rows, allowed);
  }

  // ---- The inbox ---------------------------------------------------------------------------------

  class Inbox {
    var rows: seq<Artifact>

    constructor ()
      ensures rows == []
    {
      rows := [];
    }

    /** Inserts unless a row with the same kind and payload exists, in any status. */
    method InsertArtifact(key: Key) returns (inserted: bool)
      modifies this
      ensures inserted <==> key !in Keys(old(rows))
      ensures rows == if inserted then old(rows) + [Artifact(key, Pending)] else old(rows)
    {
      var i := 0;
      while i < |rows|
        invariant 0 <= i <= |rows|
        invariant forall j :: 0 <= j < i ==> rows[j].key != key
      {
        if rows[i].key == key { return false; }
        i := i + 1;
      }
      rows := rows + [Artifact(key, Pending)];
      return true;
    }

    /** The loop that all five generators share. */
    method CreateArtifacts(gen: Generator, remaining: nat) returns (left: nat, created: nat)
      modifies this
      ensures rows == Next(old(rows), gen, remaining)
      ensures created == |rows| - |old(rows)|
      ensures left == remaining - created
    {
      var cap, candidates := Min(remaining, gen.cap), gen.candidates;
      created := 0;
      var i := 0;
      ghost var goal := Next(rows, gen, remaining);
      assert candidates[0..] == candidates;
      while i < |candidates| && created < cap
        invariant 0 <= i <= |candidates| && created == |rows| - |old(rows)| <= cap
        invariant Generate(rows, candidates[i..], cap - created) == goal
      {
        GenerateStep(rows, candidates, i, cap - created);
        var inserted := InsertArtifact(candidates[i]);
        if inserted { created := created + 1; }
        i := i + 1;
      }
      left := remaining - created;
    }

    /** Project memories, graph relations, entity merges, health issues and gaps, in this order. */
    method StartRun(requested: Option<nat>, p: Proposals) returns (created: nat)
      modifies this
      ensures rows == Do(old(rows), Run(FiveGenerators(p), requested)).value
      ensures created == |rows| - |old(rows)| <= Budget(requested)
      ensures requested.None? ==> created <= 24
      ensures requested.Some? ==> created <= Max(1, Min(requested.value, 100))
      ensures created == 0 <==> Saturated(old(rows), FiveGenerators(p))
    {
      ghost var gens := FiveGenerators(p);
      assert gens[0..] == gens && gens[5..] == [];
      RunProgress(rows, gens, Budget(requested));
      var left := Budget(requested);
      ghost var goal := Generators(rows, gens, left);
      var n1, n2, n3, n4, n5;
      left, n1 := RunGenerator(Generator(MAX_PER_GENERATOR, p.memories), left, gens, 0, goal);
      left, n2 := RunGenerator(Generator(MAX_PER_GENERATOR, p.relations), left, gens, 1, goal);
      left, n3 := RunGenerator(Generator(MAX_PER_GENERATOR, p.merges), left, gens, 2, goal);
      left, n4 := RunGenerator(Generator(MAX_PER_GENERATOR, p.health), left, gens, 3, goal);
      left, n5 := RunGenerator(Generator(MAX_PER_GENERATOR, p.gaps), left, gens, 4, goal);
      created := n1 + n2 + n3 + n4 + n5;
    }

    /** One generator on the way to what the whole run creates. */
    method RunGenerator(gen: Generator, remaining: nat, ghost gens: seq<Generator>, ghost i: nat, ghost goal: seq<Artifact>)
      returns (left: nat, created: nat)
      requires i < |gens| && gen == gens[i] && Generators(rows, gens[i..], remaining) == goal
      modifies this
      ensures Generators(rows, gens[i + 1..], left) == goal
      ensures created == |rows| - |old(rows)| && left + created == remaining
    {
      GeneratorsFrom(rows, gens, i, remaining);
      left, created := CreateArtifacts(gen, remaining);
    }

    /** The status of a row that exists. */
    method StatusOf(row: nat) returns (r: Result<Status, StepError>)
      ensures r == if row < |rows| then Ok(rows[row].status) else Err(NotFound)
    {
      if row >= |rows| { return Err(NotFound); }
      return Ok(rows[row].status);
    }

    /** Applies a pending suggestion; a payload that cannot be applied leaves it pending. */
    method ApplyArtifact(row: nat, payloadApplies: bool) returns (r: Result<(), StepError>)
      modifies this
      ensures Moves(old(rows), row, Pending, Applied, payloadApplies, rows, r)
      ensures Performed(old(rows), Apply(row, payloadApplies), rows, r)
    {
      var status :- StatusOf(row);
      if status != Pending { return Err(WrongStatus); }
      if !payloadApplies { return Err(PayloadFailed); }
      rows := rows[row := rows[row].(status := Applied)];
      return Ok(());
    }

    method UndoArtifact(row: nat, payloadUndoes: bool) returns (r: Result<(), StepError>)
      modifies this
      ensures Moves(old(rows), row, Applied, Undone, payloadUndoes, rows, r)
      ensures Performed(old(rows), Undo(row, payloadUndoes), rows, r)
    {
      var status :- StatusOf(row);
      if status != Applied { return Err(WrongStatus); }
      if !payloadUndoes { return Err(PayloadFailed); }
      rows := rows[row := rows[row].(status := Undone)];
      return Ok(());
    }

    method RejectArtifact(row: nat) returns (r: Result<(), StepError>)
      modifies this
      ensures Moves(old(rows), row, Pending, Rejected, true, rows, r)
      ensures Performed(old(rows), Reject(row), rows, r)
    {
      var status :- StatusOf(row);
      if status != Pending { return Err(WrongStatus); }
      rows := rows[row := rows[row].(status := Rejected)];
      return Ok(());
    }

    /** Edits the payload of a pending suggestion; its kind stays. */
    method UpdateArtifact(row: nat, payload: string) returns (r: Result<(), StepError>)
      modifies this
      ensures r == Err(NotFound) <==> row >= |old(rows)|
      ensures r == Err(WrongStatus) <==> row < |old(rows)| && old(rows)[row].status != Pending
      ensures r.Ok? ==> |rows| == |old(rows)| && rows[row] == Artifact((old(rows)[row].key.0, payload), Pending)
      ensures r.Ok? ==> forall i :: 0 <= i < |rows| && i != row ==> rows[i] == old(rows)[i]
      ensures Performed(old(rows), Edit(row, payload), rows, r)
    {
      var status :- StatusOf(row);
      if status != Pending { return Err(WrongStatus); }
      rows := rows[row := rows[row].(key := (rows[row].key.0, payload))];
      return Ok(());
    }
  }

  /** The step was refused and nothing changed, or it was done and the table evolved. */
  ghost predicate Performed(before: seq<Artifact>, step: Step, after: seq<Artifact>, r: Result<(), StepError>) {
    && (r.Err? ==> Do(before, step) == Err(r.error) && after == before)
    && (r.Ok? ==> Do(before, step) == Ok(after))
    && Evolves(before, after)
  }
}
