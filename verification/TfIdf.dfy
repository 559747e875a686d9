/**
 Building a TF-IDF embedder from a tokenized corpus and embedding with it. Hash
 maps are walked in an arbitrary order, which is a parameter here.
 */
module TfIdf {
  import opened Prelude

  const MAX_DIMENSIONS: nat := 2048

  type Tokens = seq<string>

  // ---- Frequencies -----------------------------------------------------------------------

  /** Occurrences of every term over the whole corpus. */
  ghost function AllTokens(corpus: seq<Tokens>): multiset<string> {
    if corpus == [] then multiset{} else AllTokens(corpus[..|corpus| - 1]) + multiset(corpus[|corpus| - 1])
  }

  function Mentions(term: string): Tokens -> bool {
    (tokens: Tokens) => term in tokens
  }

  /** How many documents contain a term. */
  function DocumentFrequency(corpus: seq<Tokens>, term: string): nat { CountWhere(corpus, Mentions(term)) }

  /** A hash map of positive counts. */
  ghost predicate Counts(m: map<string, nat>, bag: multiset<string>) {
    forall t :: (t in m <==> t in bag) && (t in m ==> m[t] == bag[t])
  }

  /** `*entry(term).or_insert(0) += 1`. */
  function Increment(m: map<string, nat>, term: string): map<string, nat> {
    m[term := (if term in m then m[term] else 0) + 1]
  }

  lemma IncrementCounts(m: map<string, nat>, bag: multiset<string>, term: string)
    requires Counts(m, bag)
    ensures Counts(Increment(m, term), bag + multiset{term})
  {
  }

  method CountTokens(tokens: Tokens, start: map<string, nat>, ghost bag: multiset<string>) returns (m: map<string, nat>)
    requires Counts(start, bag)
    ensures Counts(m, bag + multiset(tokens))
  {
    m := start;
    for i := 0 to |tokens|
      invariant Counts(m, bag + multiset(tokens[..i]))
    {
      IncrementCounts(m, bag + multiset(tokens[..i]), tokens[i]);
      assert tokens[..i + 1] == tokens[..i] + [tokens[i]];
      m := Increment(m, tokens[i]);
    }
    assert tokens[..|tokens|] == tokens;
  }

  /** The number of documents per term, for the terms that occur. */
  ghost predicate CountsDocuments(m: map<string, nat>, corpus: seq<Tokens>) {
    forall t :: (t in m <==> DocumentFrequency(corpus, t) > 0) && (t in m ==> m[t] == DocumentFrequency(corpus, t))
  }

  /** Adds one for each distinct term of a document, in any order of its set of terms. */
  method CountDocument(unique: seq<string>, start: map<string, nat>, ghost corpus: seq<Tokens>, ghost tokens: Tokens)
    returns (m: map<string, nat>)
    requires CountsDocuments(start, corpus)
    requires (forall i, j :: 0 <= i < j < |unique| ==> unique[i] != unique[j]) && (forall t :: t in unique <==> t in tokens)
    ensures CountsDocuments(m, corpus + [tokens])
  {
    m := start;
    for i := 0 to |unique|
      invariant forall t :: t in m <==> t in start || t in unique[..i]
      invariant forall t :: t in m ==>
        m[t] == (if t in start then start[t] else 0) + (if t in unique[..i] then 1 else 0)
    {
      assert unique[..i + 1] == unique[..i] + [unique[i]];
      assert unique[i] !in unique[..i];
      m := Increment(m, unique[i]);
    }
    assert unique[..|unique|] == unique;
    forall t ensures DocumentFrequency(corpus + [tokens], t) == DocumentFrequency(corpus, t) + (if t in tokens then 1 else 0) {
      CountWhereAppend(corpus, [tokens], Mentions(t));
      assert CountWhere([tokens][1..], Mentions(t)) == 0;
    }
  }

  /** Both counts; `sets[i]` is the order in which the set of terms of document `i` is walked. */
  method CountCorpus(corpus: seq<Tokens>, sets: seq<seq<string>>)
    returns (globalFreq: map<string, nat>, docFreq: map<string, nat>)
    requires |sets| == |corpus|
    requires forall i :: 0 <= i < |corpus| ==> WalksSet(sets[i], corpus[i])
    ensures Counts(globalFreq, AllTokens(corpus)) && CountsDocuments(docFreq, corpus)
  {
    globalFreq, docFreq := map[], map[];
    for i := 0 to |corpus|
      invariant Counts(globalFreq, AllTokens(corpus[..i])) && CountsDocuments(docFreq, corpus[..i])
    {
      assert corpus[..i + 1][..i] == corpus[..i];
      assert corpus[..i + 1] == corpus[..i] + [corpus[i]];
      assert WalksSet(sets[i], corpus[i]);
      globalFreq := CountTokens(corpus[i], globalFreq, AllTokens(corpus[..i]));
      docFreq := CountDocument(sets[i], docFreq, corpus[..i], corpus[i]);
    }
    assert corpus[..|corpus|] == corpus;
  }

  /** `walk` lists the distinct terms of `tokens` in some order. */
  ghost predicate WalksSet(walk: seq<string>, tokens: Tokens) {
    && (forall i, j :: 0 <= i < j < |walk| ==> walk[i] != walk[j])
    && (forall t :: t in walk <==> t in tokens)
  }

  // ---- Choosing the vocabulary ------------------------------------------------------------------

  type Entry = (string, nat)

  /** More frequent first, then by term. */
  predicate EntryLe(a: Entry, b: Entry) { a.1 > b.1 || (a.1 == b.1 && LexLe(a.0, b.0)) }

  /** `entries` lists the pairs of a hash map in some order. */
  ghost predicate WalksMap(entries: seq<Entry>, m: map<string, nat>) {
    && (forall i, j :: 0 <= i < j < |entries| ==> entries[i] != entries[j])
    && (forall e: Entry :: e in entries <==> e.0 in m && m[e.0] == e.1)
  }

  function TopEntries(entries: seq<Entry>): (r: seq<Entry>)
    ensures |r| == Min(|entries|, MAX_DIMENSIONS)
  {
    var sorted := SortBy(entries, EntryLe);
    sorted[..Min(|sorted|, MAX_DIMENSIONS)]
  }

  datatype Embedder = Embedder(vocabulary: map<string, nat>, idf: seq<real>, dimensions: nat)

  function VocabularyOf(top: seq<Entry>): map<string, nat> {
    if top == [] then map[] else VocabularyOf(top[..|top| - 1])[top[|top| - 1].0 := |top| - 1]
  }

  /** `ln` is the natural logarithm; only its arguments matter here. */
  function IdfOf(top: seq<Entry>, docFreq: map<string, nat>, totalDocs: nat, ln: real -> real): (r: seq<real>)
    ensures |r| == |top| && forall i :: 0 <= i < |top| ==> r[i] == InverseFrequency(docFreq, totalDocs, ln, top[i].0)
  {
    seq(|top|, i requires 0 <= i < |top| => InverseFrequency(docFreq, totalDocs, ln, top[i].0))
  }

  function InverseFrequency(docFreq: map<string, nat>, totalDocs: nat, ln: real -> real, t: string): real {
    ln(totalDocs as real / (1.0 + DocumentsWith(docFreq, t) as real))
  }

  /** In how many documents a term occurs. */
  function DocumentsWith(docFreq: map<string, nat>, t: string): nat { if t in docFreq then docFreq[t] else 0 }

  function Build(entries: seq<Entry>, docFreq: map<string, nat>, totalDocs: nat, ln: real -> real): Embedder {
    var top := TopEntries(entries);
    Embedder(VocabularyOf(top), IdfOf(top, docFreq, totalDocs, ln), |top|)
  }

  lemma EntryOrder()
    ensures TotalPreorder(EntryLe)
    ensures forall a, b :: EntryLe(a, b) && EntryLe(b, a) ==> a == b
  {
    LexOrder();
    forall a: Entry, b: Entry | EntryLe(a, b) && EntryLe(b, a) ensures a == b {
      assert a.0 == b.0;
    }
  }

  /** Two walks of the same map are permutations of each other. */
  lemma WalksAgree(a: seq<Entry>, b: seq<Entry>, m: map<string, nat>)
    requires WalksMap(a, m) && WalksMap(b, m)
    ensures multiset(a) == multiset(b)
  {
    forall e: Entry ensures multiset(a)[e] == multiset(b)[e] {
      AtMostOnce(a, e);
      AtMostOnce(b, e);
      assert e in a <==> e in b;
    }
  }

  lemma CountsUnique(m: map<string, nat>, n: map<string, nat>, bag: multiset<string>)
    requires Counts(m, bag) && Counts(n, bag)
    ensures m == n
  {
  }

  // ---- What a built embedder looks like --------------------------------------------------------------

  ghost predicate DistinctTerms(top: seq<Entry>) {
    forall i, j :: 0 <= i < j < |top| ==> top[i].0 != top[j].0
  }

  lemma {:induction false} VocabularyMeaning(top: seq<Entry>)
    requires DistinctTerms(top)
    ensures var v := VocabularyOf(top);
            && |v| == |top|
            && (forall t :: t in v ==> v[t] < |top| && top[v[t]].0 == t)
            && (forall i :: 0 <= i < |top| ==> top[i].0 in v && v[top[i].0] == i)
  {
    if top != [] {
      var front := top[..|top| - 1];
      VocabularyMeaning(front);
      assert forall i :: 0 <= i < |front| ==> front[i] == top[i];
    }
  }

  lemma TopTermsDistinct(entries: seq<Entry>, m: map<string, nat>)
    requires WalksMap(entries, m)
    ensures DistinctTerms(TopEntries(entries))
    ensures forall e: Entry :: e in TopEntries(entries) ==> e.0 in m && m[e.0] == e.1
  {
    var sorted := SortBy(entries, EntryLe);
    forall i, j | 0 <= i < j < |sorted| ensures sorted[i].0 != sorted[j].0 {
      SortedOnce(entries, i, j);
      assert sorted[i] in entries && sorted[j] in entries;
    }
    forall e: Entry | e in TopEntries(entries) ensures e.0 in m && m[e.0] == e.1 {
      assert e in sorted;
      assert e in entries;
    }
  }

  lemma SortedOnce(entries: seq<Entry>, i: nat, j: nat)
    requires forall i, j :: 0 <= i < j < |entries| ==> entries[i] != entries[j]
    requires i < j < |SortBy(entries, EntryLe)|
    ensures SortBy(entries, EntryLe)[i] != SortBy(entries, EntryLe)[j]
  {
    var s := SortBy(entries, EntryLe);
    AtMostOnce(entries, s[i]);
    if s[i] == s[j] { TwiceCounted(s, i, j); }
  }

  /** `top` are the terms that come first by count and name; every other term comes after all of them. */
  lemma TopComesFirst(entries: seq<Entry>, m: map<string, nat>, inside: Entry, outside: Entry)
    requires WalksMap(entries, m) && inside in TopEntries(entries)
    requires outside in entries && outside !in TopEntries(entries)
    ensures EntryLe(inside, outside)
  {
    EntryOrder();
    SortBySorts(entries, EntryLe);
    var sorted, top := SortBy(entries, EntryLe), TopEntries(entries);
    var i :| 0 <= i < |top| && top[i] == inside;
    var j :| 0 <= j < |sorted| && sorted[j] == outside;
    assert forall k :: 0 <= k < |top| ==> sorted[k] == top[k] && top[k] in top;
    assert j >= |top|;
  }

  predicate HasTermAt(v: map<string, nat>, i: nat) { exists t :: t in v && v[t] == i }

  ghost predicate Bijection(v: map<string, nat>, n: nat) {
    && |v| == n
    && (forall t :: t in v ==> v[t] < n)
    && (forall i :: 0 <= i < n ==> HasTermAt(v, i))
    && (forall t, u :: t in v && u in v && v[t] == v[u] ==> t == u)
  }

  lemma VocabularyBijection(top: seq<Entry>)
    requires DistinctTerms(top)
    ensures Bijection(VocabularyOf(top), |top|)
  {
    VocabularyMeaning(top);
    var v := VocabularyOf(top);
    forall i | 0 <= i < |top| ensures HasTermAt(v, i) { assert v[top[i].0] == i; }
  }

  lemma {:induction false} DistinctSize<T>(s: seq<T>)
    requires forall i, j :: 0 <= i < j < |s| ==> s[i] != s[j]
    ensures |(set x | x in s)| == |s|
  {
    if s != [] {
      DistinctSize(s[1..]);
      assert s == [s[0]] + s[1..];
      assert (set x | x in s) == {s[0]} + (set x | x in s[1..]);
    }
  }

  lemma WalkLength(entries: seq<Entry>, m: map<string, nat>)
    requires WalksMap(entries, m)
    ensures |entries| == |m|
  {
    DistinctSize(entries);
    assert (set e | e in entries) == m.Items;
  }

  /** The vocabulary is a bijection onto the positions, one for each distinct term up to the limit. */
  lemma BuiltVocabulary(entries: seq<Entry>, m: map<string, nat>, docFreq: map<string, nat>, totalDocs: nat, ln: real -> real)
    requires WalksMap(entries, m)
    ensures var e := Build(entries, docFreq, totalDocs, ln);
            && e.dimensions == |e.idf| == Min(|m|, MAX_DIMENSIONS)
            && Bijection(e.vocabulary, e.dimensions)
  {
    TopTermsDistinct(entries, m);
    VocabularyBijection(TopEntries(entries));
    WalkLength(entries, m);
  }

  lemma TopMembership(entries: seq<Entry>, m: map<string, nat>, t: string)
    requires WalksMap(entries, m) && t in m
    ensures t in VocabularyOf(TopEntries(entries)) <==> (t, m[t]) in TopEntries(entries)
  {
    var top := TopEntries(entries);
    TopTermsDistinct(entries, m);
    VocabularyMeaning(top);
    var v := VocabularyOf(top);
    if t in v {
      assert top[v[t]] in top;
    }
  }

  /** No dropped term occurs more often than a kept one. */
  lemma KeptIsFrequent(entries: seq<Entry>, m: map<string, nat>, t: string, u: string)
    requires WalksMap(entries, m) && t in VocabularyOf(TopEntries(entries))
    requires u in m && u !in VocabularyOf(TopEntries(entries))
    ensures t in m && m[t] >= m[u]
    ensures m[t] == m[u] ==> LexLe(t, u)
    ensures |VocabularyOf(TopEntries(entries))| == MAX_DIMENSIONS
  {
    BuiltTopTerms(entries, m, t, u);
    TopTermsDistinct(entries, m);
    VocabularyMeaning(TopEntries(entries));
    if |entries| <= MAX_DIMENSIONS {
      TopMembership(entries, m, u);
      AllKept(entries, (u, m[u]));
    }
  }

  lemma AllKept(entries: seq<Entry>, e: Entry)
    requires |entries| <= MAX_DIMENSIONS && e in entries
    ensures e in TopEntries(entries)
  {
    var sorted := SortBy(entries, EntryLe);
    assert sorted[..|sorted|] == sorted;
  }

  ghost predicate Increasing(f: real -> real) { forall x, y :: 0.0 < x < y ==> f(x) < f(y) }

  lemma ShareShrinks(total: real, a: real, b: real)
    requires total > 0.0 && 0.0 <= b < a
    ensures 0.0 < total / (1.0 + a) < total / (1.0 + b)
  {
    var x, y := total / (1.0 + a), total / (1.0 + b);
    assert x * (1.0 + a) == total && y * (1.0 + b) == total;
  }

  /** Whatever increasing logarithm is taken, a term weighs more exactly when it is in fewer documents. */
  lemma RarerWeighsMore(entries: seq<Entry>, m: map<string, nat>, docFreq: map<string, nat>, totalDocs: nat,
                        ln: real -> real, t: string, u: string)
    requires WalksMap(entries, m) && Increasing(ln) && totalDocs > 0
    requires var e := Build(entries, docFreq, totalDocs, ln); t in e.vocabulary && u in e.vocabulary
    ensures var e := Build(entries, docFreq, totalDocs, ln);
            && e.vocabulary[t] < |e.idf| && e.vocabulary[u] < |e.idf|
            && (e.idf[e.vocabulary[t]] < e.idf[e.vocabulary[u]] <==> DocumentsWith(docFreq, t) > DocumentsWith(docFreq, u))
  {
    TopTermsDistinct(entries, m);
    WeightAt(TopEntries(entries), docFreq, totalDocs, ln, t);
    WeightAt(TopEntries(entries), docFreq, totalDocs, ln, u);
    WeightOrder(ln, totalDocs as real, DocumentsWith(docFreq, t), DocumentsWith(docFreq, u));
  }

  lemma WeightAt(top: seq<Entry>, docFreq: map<string, nat>, totalDocs: nat, ln: real -> real, t: string)
    requires DistinctTerms(top) && t in VocabularyOf(top)
    ensures VocabularyOf(top)[t] < |top|
    ensures IdfOf(top, docFreq, totalDocs, ln)[VocabularyOf(top)[t]]
         == InverseFrequency(docFreq, totalDocs, ln, t)
  {
    VocabularyMeaning(top);
  }

  lemma WeightOrder(ln: real -> real, total: real, a: nat, b: nat)
    requires Increasing(ln) && total > 0.0
    ensures ln(total / (1.0 + a as real)) < ln(total / (1.0 + b as real)) <==> a > b
  {
    if a > b { ShareShrinks(total, a as real, b as real); }
    if b > a { ShareShrinks(total, b as real, a as real); }
  }

  /** It holds the terms that come first by count and then name, in that order. */
  lemma BuiltTopTerms(entries: seq<Entry>, m: map<string, nat>, t: string, u: string)
    requires WalksMap(entries, m) && t in VocabularyOf(TopEntries(entries)) && u in m
    ensures t in m
    ensures u !in VocabularyOf(TopEntries(entries)) ==> EntryLe((t, m[t]), (u, m[u]))
    ensures u in VocabularyOf(TopEntries(entries)) ==>
      (VocabularyOf(TopEntries(entries))[t] <= VocabularyOf(TopEntries(entries))[u] <==> EntryLe((t, m[t]), (u, m[u])))
  {
    var top := TopEntries(entries);
    var v := VocabularyOf(top);
    TopTermsDistinct(entries, m);
    VocabularyMeaning(top);
    assert top[v[t]] in top;
    TopMembership(entries, m, u);
    assert (u, m[u]) in entries;
    if u !in v {
      TopComesFirst(entries, m, (t, m[t]), (u, m[u]));
    } else {
      assert top[v[u]] in top;
      TopSorted(entries, v[t], v[u]);
      TopSorted(entries, v[u], v[t]);
      EntryOrder();
    }
  }

  lemma TopSorted(entries: seq<Entry>, i: nat, j: nat)
    requires i < |TopEntries(entries)| && j < |TopEntries(entries)|
    ensures i <= j ==> EntryLe(TopEntries(entries)[i], TopEntries(entries)[j])
  {
    EntryOrder();
    SortBySorts(entries, EntryLe);
  }

  // ---- Independence of order -------------------------------------------------------------------------

  lemma {:induction false} AllTokensPick(corpus: seq<Tokens>, i: nat)
    requires i < |corpus|
    ensures AllTokens(corpus) == AllTokens(corpus[..i] + corpus[i + 1..]) + multiset(corpus[i])
    decreases |corpus|
  {
    var n := |corpus| - 1;
    if i == n {
      assert corpus[..i] + corpus[i + 1..] == corpus[..n];
    } else {
      AllTokensPick(corpus[..n], i);
      var rest := corpus[..i] + corpus[i + 1..];
      assert rest[..|rest| - 1] == corpus[..n][..i] + corpus[..n][i + 1..];
      assert rest[|rest| - 1] == corpus[n] && corpus[..n][i] == corpus[i];
    }
  }

  lemma WithoutOne<T>(s: seq<T>, i: nat)
    requires i < |s|
    ensures multiset(s[..i] + s[i + 1..]) == multiset(s) - multiset{s[i]}
  {
    assert s == s[..i] + [s[i]] + s[i + 1..];
  }

  /** The bag of tokens does not depend on the order of the documents. */
  lemma {:induction false} AllTokensPermuted(a: seq<Tokens>, b: seq<Tokens>)
    requires multiset(a) == multiset(b)
    ensures AllTokens(a) == AllTokens(b)
    decreases |a|
  {
    MultisetFacts(a, b);
    if a != [] {
      var n := |a| - 1;
      assert a[n] in b;
      var i :| 0 <= i < |b| && b[i] == a[n];
      AllTokensPick(b, i);
      WithoutOne(b, i);
      WithoutOne(a, n);
      assert a[..n] + a[n + 1..] == a[..n];
      AllTokensPermuted(a[..n], b[..i] + b[i + 1..]);
    }
  }

  lemma {:induction false} CountPermuted(a: seq<Tokens>, b: seq<Tokens>, p: Tokens -> bool)
    requires multiset(a) == multiset(b)
    ensures CountWhere(a, p) == CountWhere(b, p)
    decreases |a|
  {
    MultisetFacts(a, b);
    if a != [] {
      assert a[0] in b;
      var i :| 0 <= i < |b| && b[i] == a[0];
      var rest := b[..i] + b[i + 1..];
      WithoutOne(b, i);
      TailMultiset(a);
      CountPermuted(a[1..], rest, p);
      CountWhereAppend(b[..i], b[i + 1..], p);
      CountWhereAppend(b[..i], [b[i]] + b[i + 1..], p);
      assert b == b[..i] + ([b[i]] + b[i + 1..]);
      assert ([b[i]] + b[i + 1..])[1..] == b[i + 1..];
    }
  }

  lemma DocumentCountsUnique(a: seq<Tokens>, b: seq<Tokens>, m: map<string, nat>, n: map<string, nat>)
    requires multiset(a) == multiset(b) && CountsDocuments(m, a) && CountsDocuments(n, b)
    ensures m == n
  {
    forall t ensures DocumentFrequency(a, t) == DocumentFrequency(b, t) { CountPermuted(a, b, Mentions(t)); }
  }

  lemma SameEntriesSameTop(a: seq<Entry>, b: seq<Entry>)
    requires multiset(a) == multiset(b)
    ensures TopEntries(a) == TopEntries(b)
  {
    EntryOrder();
    SortByPermutation(a, b, EntryLe);
  }

  /** The embedder depends neither on the order of the corpus nor on how any hash map is walked. */
  lemma BuildIgnoresOrder(
    a: seq<Tokens>, b: seq<Tokens>, freqA: map<string, nat>, freqB: map<string, nat>,
    docA: map<string, nat>, docB: map<string, nat>, entriesA: seq<Entry>, entriesB: seq<Entry>, ln: real -> real)
    requires multiset(a) == multiset(b)
    requires Counts(freqA, AllTokens(a)) && Counts(freqB, AllTokens(b))
    requires CountsDocuments(docA, a) && CountsDocuments(docB, b)
    requires WalksMap(entriesA, freqA) && WalksMap(entriesB, freqB)
    ensures Build(entriesA, docA, |a|, ln) == Build(entriesB, docB, |b|, ln)
  {
    AllTokensPermuted(a, b);
    CountsUnique(freqA, freqB, AllTokens(a));
    DocumentCountsUnique(a, b, docA, docB);
    MultisetFacts(a, b);
    WalksAgree(entriesA, entriesB, freqA);
    SameEntriesSameTop(entriesA, entriesB);
  }

  // ---- Embedding a text --------------------------------------------------------------------------------

  /** An embedder made from a stored vocabulary. */
  function Restored(vocabulary: map<string, nat>, idf: seq<real>): Embedder {
    Embedder(vocabulary, idf, |vocabulary|)
  }

  function Zeros(n: nat): (r: seq<real>)
    ensures |r| == n && forall i :: 0 <= i < n ==> r[i] == 0.0
  {
    seq(n, _ => 0.0)
  }

  function Frequency(count: nat, total: nat): real
    requires total > 0
  {
    count as real / total as real
  }

  function TermFrequency(tokens: Tokens, t: string): real
    requires tokens != []
  {
    Frequency(multiset(tokens)[t], |tokens|)
  }

  function Weight(tf: real, idf: real): real { tf * idf }

  /** `vector[idx] = tf * idf[idx]`; `None` stands for an index that is out of range. */
  function PutTerm(e: Embedder, tokens: Tokens, w: seq<real>, t: string): Option<seq<real>>
    requires tokens != []
  {
    if t !in e.vocabulary then Some(w)
    else
      var i := e.vocabulary[t];
      if i < |e.idf| && i < |w| then Some(w[i := Weight(TermFrequency(tokens, t), e.idf[i])]) else None
  }

  /** The loop over the distinct terms of a text, in the order they are walked. */
  function Weights(e: Embedder, tokens: Tokens, walk: seq<string>): (r: Option<seq<real>>)
    requires tokens != []
    ensures r.Some? ==> |r.value| == e.dimensions
  {
    if walk == [] then Some(Zeros(e.dimensions)) else
    var before := Weights(e, tokens, walk[..|walk| - 1]);
    if before.None? then None else PutTerm(e, tokens, before.value, walk[|walk| - 1])
  }

  /** The vector of a text before normalization. */
  function Embed(e: Embedder, tokens: Tokens, walk: seq<string>): (r: Option<seq<real>>)
    ensures r.Some? ==> |r.value| == e.dimensions
    ensures tokens == [] ==> r.Some? && forall i :: 0 <= i < e.dimensions ==> r.value[i] == 0.0
  {
    if e.dimensions == 0 then Some([])
    else if tokens == [] then Some(Zeros(e.dimensions))
    else Weights(e, tokens, walk)
  }

  /** The loop, which stops at the first access out of range. */
  method EmbedTokens(e: Embedder, tokens: Tokens, walk: seq<string>) returns (r: Option<seq<real>>)
    requires WalksSet(walk, tokens)
    ensures r == Embed(e, tokens, walk)
  {
    if e.dimensions == 0 { return Some([]); }
    if tokens == [] { return Some(Zeros(e.dimensions)); }
    var counts := CountTokens(tokens, map[], multiset{});
    assert multiset{} + multiset(tokens) == multiset(tokens);
    var w := Zeros(e.dimensions);
    for k := 0 to |walk|
      invariant Weights(e, tokens, walk[..k]) == Some(w)
    {
      WeightsStep(e, tokens, walk, k);
      var t := walk[k];
      assert t in walk;
      assert t in multiset(tokens) && counts[t] == multiset(tokens)[t];
      var next := AddTerm(e, tokens, w, t, counts[t]);
      if next.None? {
        NoneStays(e, tokens, walk, k + 1);
        return None;
      }
      w := next.value;
    }
    assert walk[..|walk|] == walk;
    return Some(w);
  }

  /** One term: looks its index up and writes its weight there. */
  method AddTerm(e: Embedder, tokens: Tokens, w: seq<real>, t: string, count: nat) returns (r: Option<seq<real>>)
    requires tokens != [] && count == multiset(tokens)[t]
    ensures r == PutTerm(e, tokens, w, t)
  {
    if t !in e.vocabulary { return Some(w); }
    var i := e.vocabulary[t];
    if i >= |e.idf| || i >= |w| { return None; }
    var tf := Frequency(count, |tokens|);
    return Some(w[i := Weight(tf, e.idf[i])]);
  }

  lemma WeightsStep(e: Embedder, tokens: Tokens, walk: seq<string>, k: nat)
    requires tokens != [] && k < |walk|
    ensures Weights(e, tokens, walk[..k + 1])
         == (match Weights(e, tokens, walk[..k]) case None => None case Some(w) => PutTerm(e, tokens, w, walk[k]))
  {
    assert walk[..k + 1][..k] == walk[..k] && walk[..k + 1][k] == walk[k];
  }

  lemma {:induction false} NoneStays(e: Embedder, tokens: Tokens, walk: seq<string>, k: nat)
    requires tokens != [] && k <= |walk| && Weights(e, tokens, walk[..k]).None?
    ensures Weights(e, tokens, walk).None?
    decreases |walk| - k
  {
    if k < |walk| {
      assert walk[..k + 1][..k] == walk[..k];
      NoneStays(e, tokens, walk, k + 1);
    } else {
      assert walk[..k] == walk;
    }
  }

  /** Every index of the vocabulary is valid for the vector and for the weights. */
  predicate InRange(e: Embedder) {
    forall t :: t in e.vocabulary ==> e.vocabulary[t] < e.dimensions && e.vocabulary[t] < |e.idf|
  }

  /** The loop runs through exactly when every known term it meets has a valid index. */
  lemma {:induction false} WeightsDefined(e: Embedder, tokens: Tokens, walk: seq<string>)
    requires tokens != []
    ensures Weights(e, tokens, walk).Some? <==>
            forall j :: 0 <= j < |walk| && walk[j] in e.vocabulary ==>
              e.vocabulary[walk[j]] < e.dimensions && e.vocabulary[walk[j]] < |e.idf|
  {
    if walk != [] { WeightsDefined(e, tokens, walk[..|walk| - 1]); }
  }

  /** No text makes a restored embedder index out of range exactly when its indices are all valid. */
  lemma SafeForAllTexts(vocabulary: map<string, nat>, idf: seq<real>)
    ensures var e := Restored(vocabulary, idf);
            (forall tokens, walk :: WalksSet(walk, tokens) ==> Embed(e, tokens, walk).Some?) <==> InRange(e)
  {
    var e := Restored(vocabulary, idf);
    if InRange(e) {
      forall tokens, walk | WalksSet(walk, tokens) ensures Embed(e, tokens, walk).Some? {
        if tokens != [] { WeightsDefined(e, tokens, walk); }
      }
    } else {
      var t :| t in vocabulary && (vocabulary[t] >= e.dimensions || vocabulary[t] >= |e.idf|);
      assert vocabulary != map[];
      assert [t][0] == t;
      WeightsDefined(e, [t], [t]);
      assert WalksSet([t], [t]);
    }
  }

  /** Storing and restoring a built embedder gives it back, and it is safe. */
  lemma BuiltIsRestorable(entries: seq<Entry>, m: map<string, nat>, docFreq: map<string, nat>, totalDocs: nat, ln: real -> real)
    requires WalksMap(entries, m)
    ensures var e := Build(entries, docFreq, totalDocs, ln);
            Restored(e.vocabulary, e.idf) == e && InRange(e)
  {
    BuiltVocabulary(entries, m, docFreq, totalDocs, ln);
  }

  // ---- What the weights are ---------------------------------------------------------------------------

  /** The last walked term with this index, if there is one. */
  function LastTermAt(e: Embedder, walk: seq<string>, i: nat): Option<string> {
    if walk == [] then None
    else if walk[|walk| - 1] in e.vocabulary && e.vocabulary[walk[|walk| - 1]] == i then Some(walk[|walk| - 1])
    else LastTermAt(e, walk[..|walk| - 1], i)
  }

  /** At each index: the weight of the last term walked there, or zero. */
  lemma {:induction false} WeightsMeaning(e: Embedder, tokens: Tokens, walk: seq<string>, i: nat)
    requires tokens != [] && Weights(e, tokens, walk).Some? && i < e.dimensions
    ensures LastTermAt(e, walk, i).Some? ==> i < |e.idf|
    ensures Weights(e, tokens, walk).value[i]
         == (match LastTermAt(e, walk, i) case Some(t) => Weight(TermFrequency(tokens, t), e.idf[i]) case None => 0.0)
  {
    if walk != [] { WeightsMeaning(e, tokens, walk[..|walk| - 1], i); }
  }

  lemma {:induction false} LastTermMeaning(e: Embedder, walk: seq<string>, i: nat)
    ensures LastTermAt(e, walk, i).Some? ==>
      LastTermAt(e, walk, i).value in walk && LastTermAt(e, walk, i).value in e.vocabulary
      && e.vocabulary[LastTermAt(e, walk, i).value] == i
    ensures LastTermAt(e, walk, i).None? ==> forall t :: t in walk && t in e.vocabulary ==> e.vocabulary[t] != i
  {
    if walk != [] {
      LastTermMeaning(e, walk[..|walk| - 1], i);
      assert walk == walk[..|walk| - 1] + [walk[|walk| - 1]];
    }
  }

  /** Terms that share an index have no weight there. */
  predicate NoClash(e: Embedder) {
    forall t, u :: t in e.vocabulary && u in e.vocabulary && t != u && e.vocabulary[t] == e.vocabulary[u] ==>
      e.vocabulary[t] < |e.idf| && e.idf[e.vocabulary[t]] == 0.0
  }

  lemma SameAtIndex(e: Embedder, tokens: Tokens, a: seq<string>, b: seq<string>, i: nat)
    requires tokens != [] && NoClash(e) && WalksSet(a, tokens) && WalksSet(b, tokens) && i < e.dimensions
    requires Weights(e, tokens, a).Some? && Weights(e, tokens, b).Some?
    ensures Weights(e, tokens, a).value[i] == Weights(e, tokens, b).value[i]
  {
    WeightsMeaning(e, tokens, a, i);
    WeightsMeaning(e, tokens, b, i);
    LastTermMeaning(e, a, i);
    LastTermMeaning(e, b, i);
    var ta, tb := LastTermAt(e, a, i), LastTermAt(e, b, i);
    assert forall t :: t in a <==> t in b;
    if ta.Some? && ta != tb {
      TimesZero(TermFrequency(tokens, ta.value));
      TimesZero(TermFrequency(tokens, tb.value));
    }
  }

  lemma TimesZero(x: real)
    ensures x * 0.0 == 0.0
  {
  }

  lemma WalkDoesNotMatter(e: Embedder, tokens: Tokens, a: seq<string>, b: seq<string>)
    requires InRange(e) && NoClash(e) && WalksSet(a, tokens) && WalksSet(b, tokens)
    ensures Embed(e, tokens, a) == Embed(e, tokens, b)
  {
    if e.dimensions != 0 && tokens != [] {
      WeightsDefined(e, tokens, a);
      WeightsDefined(e, tokens, b);
      forall i | 0 <= i < e.dimensions ensures Weights(e, tokens, a).value[i] == Weights(e, tokens, b).value[i] {
        SameAtIndex(e, tokens, a, b, i);
      }
      assert Weights(e, tokens, a).value == Weights(e, tokens, b).value;
    }
  }

  lemma ClashFrequencies(t: string, u: string)
    requires t != u
    ensures TermFrequency([t, t, u], t) == 2.0 / 3.0 && TermFrequency([t, t, u], u) == 1.0 / 3.0
  {
    assert multiset([t, t, u]) == multiset{t, t, u};
  }

  lemma ClashIsVisible(e: Embedder, t: string, u: string)
    requires InRange(e) && t in e.vocabulary && u in e.vocabulary && t != u
    requires e.vocabulary[t] == e.vocabulary[u] && e.idf[e.vocabulary[t]] != 0.0
    ensures WalksSet([t, u], [t, t, u]) && WalksSet([u, t], [t, t, u])
    ensures Embed(e, [t, t, u], [t, u]) != Embed(e, [t, t, u], [u, t])
  {
    var tokens, i := [t, t, u], e.vocabulary[t];
    WeightsDefined(e, tokens, [t, u]);
    WeightsDefined(e, tokens, [u, t]);
    WeightsMeaning(e, tokens, [t, u], i);
    WeightsMeaning(e, tokens, [u, t], i);
    ClashFrequencies(t, u);
    DifferentMultiples(2.0 / 3.0, 1.0 / 3.0, e.idf[i]);
  }

  lemma DifferentMultiples(x: real, y: real, z: real)
    requires x != y && z != 0.0
    ensures x * z != y * z
  {
    assert (x - y) * z == x * z - y * z;
  }

  /**
   The vector of a text never depends on the order in which its terms are walked exactly
   when terms that share an index have no weight.
   */
  lemma WalkIndependence(e: Embedder)
    requires InRange(e)
    ensures (forall tokens, a, b :: WalksSet(a, tokens) && WalksSet(b, tokens) ==> Embed(e, tokens, a) == Embed(e, tokens, b))
       <==> NoClash(e)
  {
    if NoClash(e) {
      forall tokens, a, b | WalksSet(a, tokens) && WalksSet(b, tokens) ensures Embed(e, tokens, a) == Embed(e, tokens, b) {
        WalkDoesNotMatter(e, tokens, a, b);
      }
    } else {
      var t, u :| t in e.vocabulary && u in e.vocabulary && t != u && e.vocabulary[t] == e.vocabulary[u]
                  && e.idf[e.vocabulary[t]] != 0.0;
      ClashIsVisible(e, t, u);
    }
  }

  /** A built embedder has no clash. */
  lemma BuiltHasNoClash(entries: seq<Entry>, m: map<string, nat>, docFreq: map<string, nat>, totalDocs: nat, ln: real -> real)
    requires WalksMap(entries, m)
    ensures NoClash(Build(entries, docFreq, totalDocs, ln))
  {
    BuiltVocabulary(entries, m, docFreq, totalDocs, ln);
  }
}
