/**
 Bounded, cancellable embedding jobs over the chunk tables, and the byte codec of
 the stored vectors.
 */
module EmbeddingJob {
  import opened Prelude

  // ---- Vectors as blobs -----------------------------------------------------------

  /** The bit pattern of a 32-bit float; only its bytes matter here. */
  type Bits = n: nat | n < 0x1_0000_0000
  type Byte = n: nat | n < 0x100
  type Vector = seq<Bits>
  type Blob = seq<Byte>

  function LittleEndian(x: Bits): (r: Blob)
    ensures |r| == 4
  {
    [x % 0x100, x / 0x100 % 0x100, x / 0x100 / 0x100 % 0x100, x / 0x100 / 0x100 / 0x100]
  }

  function FromLittleEndian(b: Blob): Bits
    requires |b| == 4
  {
    var b0: int, b1: int, b2: int, b3: int := b[0], b[1], b[2], b[3];
    b0 + 0x100 * (b1 + 0x100 * (b2 + 0x100 * b3))
  }

  function VectorToBlob(v: Vector): Blob {
    if v == [] then [] else LittleEndian(v[0]) + VectorToBlob(v[1..])
  }

  /** Whole four-byte chunks; a shorter remainder is dropped. */
  function BlobToVector(b: Blob): Vector {
    if |b| < 4 then [] else [FromLittleEndian(b[..4])] + BlobToVector(b[4..])
  }

  lemma BytesOfInt(x: Bits)
    ensures FromLittleEndian(LittleEndian(x)) == x
  {
  }

  lemma ShiftByte(q: int, r: int)
    requires 0 <= r < 0x100
    ensures (r + 0x100 * q) / 0x100 == q && (r + 0x100 * q) % 0x100 == r
  {
  }

  lemma IntOfBytes(b: Blob)
    requires |b| == 4
    ensures LittleEndian(FromLittleEndian(b)) == b
  {
    var b1: int, b2: int, b3: int := b[1], b[2], b[3];
    ShiftByte(b1 + 0x100 * (b2 + 0x100 * b3), b[0]);
    ShiftByte(b2 + 0x100 * b3, b[1]);
    ShiftByte(b3, b[2]);
  }

  lemma {:induction false} BlobRoundTrip(v: Vector)
    ensures |VectorToBlob(v)| == 4 * |v| && BlobToVector(VectorToBlob(v)) == v
  {
    if v != [] {
      BytesOfInt(v[0]);
      BlobRoundTrip(v[1..]);
      assert VectorToBlob(v)[4..] == VectorToBlob(v[1..]);
      assert VectorToBlob(v)[..4] == LittleEndian(v[0]);
    }
  }

  lemma {:induction false} WholeChunks(b: Blob)
    ensures VectorToBlob(BlobToVector(b)) == b[..|b| - |b| % 4]
  {
    if |b| >= 4 {
      WholeChunks(b[4..]);
      IntOfBytes(b[..4]);
      EncodeCons(FromLittleEndian(b[..4]), BlobToVector(b[4..]));
      SplitFirst(b, |b| - |b| % 4);
    }
  }

  lemma EncodeCons(x: Bits, v: Vector)
    ensures VectorToBlob([x] + v) == LittleEndian(x) + VectorToBlob(v)
  {
  }

  lemma SplitFirst(b: Blob, n: nat)
    requires 4 <= n <= |b|
    ensures b[..n] == b[..4] + b[4..][..n - 4]
  {
  }

  /** Re-encoding a decoded blob gives it back exactly when its length is a multiple of four. */
  lemma BlobReencodes(b: Blob)
    ensures VectorToBlob(BlobToVector(b)) == b <==> |b| % 4 == 0
  {
    WholeChunks(b);
  }

  // ---- Tables ---------------------------------------------------------------------

  datatype Chunk = Chunk(id: string, document: string, content: string)

  type Embeddings = map<(string, string), Blob>

  /** What a TF-IDF model saves: its vocabulary and weights. */
  datatype ModelState = ModelState(vocabulary: map<string, nat>, idf: Vector)

  /** One source, or every chunk. */
  type Scope = Option<string>

  predicate InScope(c: Chunk, documents: map<string, string>, scope: Scope) {
    scope.None? || (c.document in documents && documents[c.document] == scope.value)
  }

  /** Chunks of the scope in id order: the joins of the count and page queries. */
  function Scoped(chunks: seq<Chunk>, documents: map<string, string>, scope: Scope): seq<Chunk> {
    if chunks == [] then [] else
    (if InScope(chunks[0], documents, scope) then [chunks[0]] else [])
    + Scoped(chunks[1..], documents, scope)
  }

  /** Those without an embedding of `model`. */
  function Missing(cs: seq<Chunk>, e: Embeddings, model: string): (r: seq<Chunk>)
    ensures |r| <= |cs|
  {
    if cs == [] then [] else
    (if (cs[0].id, model) in e then [] else [cs[0]]) + Missing(cs[1..], e, model)
  }

  /** The upserts of a batch. */
  function Store(e: Embeddings, batch: seq<Chunk>, model: string, embed: string -> Vector): Embeddings
    decreases |batch|
  {
    if batch == [] then e else
    Store(e[(batch[0].id, model) := VectorToBlob(embed(batch[0].content))], batch[1..], model, embed)
  }

  /** The table once every missing chunk of `cs` has been embedded. */
  function Complete(e: Embeddings, cs: seq<Chunk>, model: string, embed: string -> Vector): Embeddings {
    Store(e, Missing(cs, e, model), model, embed)
  }

  ghost predicate DistinctIds(cs: seq<Chunk>) {
    forall i, j :: 0 <= i < j < |cs| ==> cs[i].id != cs[j].id
  }

  lemma {:induction false} ScopedChunks(chunks: seq<Chunk>, documents: map<string, string>, scope: Scope)
    ensures forall c :: c in Scoped(chunks, documents, scope) <==> c in chunks && InScope(c, documents, scope)
    ensures scope.None? ==> Scoped(chunks, documents, scope) == chunks
  {
    if chunks != [] {
      ScopedChunks(chunks[1..], documents, scope);
      assert chunks == [chunks[0]] + chunks[1..];
    }
  }

  lemma {:induction false} ScopedDistinct(chunks: seq<Chunk>, documents: map<string, string>, scope: Scope)
    requires DistinctIds(chunks)
    ensures DistinctIds(Scoped(chunks, documents, scope))
  {
    if chunks != [] {
      ScopedDistinct(chunks[1..], documents, scope);
      ScopedChunks(chunks[1..], documents, scope);
      var rest := Scoped(chunks[1..], documents, scope);
      forall j | 0 <= j < |rest| ensures rest[j].id != chunks[0].id {
        assert rest[j] in rest;
        assert rest[j] in chunks[1..];
      }
    }
  }

  lemma {:induction false} MissingChunks(cs: seq<Chunk>, e: Embeddings, model: string)
    ensures forall c :: c in Missing(cs, e, model) <==> c in cs && (c.id, model) !in e
    ensures DistinctIds(cs) ==> DistinctIds(Missing(cs, e, model))
  {
    if cs != [] {
      MissingChunks(cs[1..], e, model);
      assert cs == [cs[0]] + cs[1..];
      assert DistinctIds(cs) ==> DistinctIds(cs[1..]);
      var rest := Missing(cs[1..], e, model);
      forall j | 0 <= j < |rest| && DistinctIds(cs) ensures rest[j].id != cs[0].id {
        assert rest[j] in cs[1..];
      }
    }
  }

  ghost predicate InBatch(batch: seq<Chunk>, model: string, k: (string, string)) {
    exists i :: 0 <= i < |batch| && k == (batch[i].id, model)
  }

  lemma InBatchStep(batch: seq<Chunk>, model: string, k: (string, string))
    requires batch != []
    ensures InBatch(batch, model, k) <==> k == (batch[0].id, model) || InBatch(batch[1..], model, k)
  {
    if i :| 0 <= i < |batch| - 1 && k == (batch[1..][i].id, model) {
      assert k == (batch[i + 1].id, model);
    }
    if i :| 1 <= i < |batch| && k == (batch[i].id, model) {
      assert k == (batch[1..][i - 1].id, model);
    }
  }

  lemma {:induction false} StoreKey(e: Embeddings, batch: seq<Chunk>, model: string, embed: string -> Vector, k: (string, string))
    ensures k in Store(e, batch, model, embed) <==> k in e || InBatch(batch, model, k)
    ensures k in e && !InBatch(batch, model, k) ==> Store(e, batch, model, embed)[k] == e[k]
    decreases |batch|
  {
    if batch != [] {
      InBatchStep(batch, model, k);
      StoreKey(e[(batch[0].id, model) := VectorToBlob(embed(batch[0].content))], batch[1..], model, embed, k);
    }
  }

  lemma {:induction false} StoreValue(e: Embeddings, batch: seq<Chunk>, model: string, embed: string -> Vector, i: nat)
    requires DistinctIds(batch) && i < |batch|
    ensures (batch[i].id, model) in Store(e, batch, model, embed)
    ensures Store(e, batch, model, embed)[(batch[i].id, model)] == VectorToBlob(embed(batch[i].content))
    decreases |batch|
  {
    var e1 := e[(batch[0].id, model) := VectorToBlob(embed(batch[0].content))];
    if i == 0 {
      assert !InBatch(batch[1..], model, (batch[0].id, model));
      StoreKey(e1, batch[1..], model, embed, (batch[0].id, model));
    } else {
      StoreValue(e1, batch[1..], model, embed, i - 1);
    }
  }

  /** Storing a batch writes one vector per chunk of it and touches no other row. */
  lemma StoreRows(e: Embeddings, batch: seq<Chunk>, model: string, embed: string -> Vector)
    requires DistinctIds(batch)
    ensures var e' := Store(e, batch, model, embed);
            && (forall k :: k in e' <==> k in e || InBatch(batch, model, k))
            && (forall i :: 0 <= i < |batch| ==>
                  (batch[i].id, model) in e' && e'[(batch[i].id, model)] == VectorToBlob(embed(batch[i].content)))
            && (forall k :: k in e && !InBatch(batch, model, k) ==> e'[k] == e[k])
  {
    var e' := Store(e, batch, model, embed);
    forall k
      ensures k in e' <==> k in e || InBatch(batch, model, k)
      ensures k in e && !InBatch(batch, model, k) ==> e'[k] == e[k]
    {
      StoreKey(e, batch, model, embed, k);
    }
    forall i | 0 <= i < |batch|
      ensures (batch[i].id, model) in e' && e'[(batch[i].id, model)] == VectorToBlob(embed(batch[i].content))
    {
      StoreValue(e, batch, model, embed, i);
    }
  }

  lemma {:induction false} StoreAppend(
    e: Embeddings, a: seq<Chunk>, b: seq<Chunk>, model: string, embed: string -> Vector)
    ensures Store(e, a + b, model, embed) == Store(Store(e, a, model, embed), b, model, embed)
    decreases |a|
  {
    if a == [] {
      assert a + b == b;
    } else {
      assert (a + b)[1..] == a[1..] + b;
      StoreAppend(e[(a[0].id, model) := VectorToBlob(embed(a[0].content))], a[1..], b, model, embed);
    }
  }

  /** Once the first `n` missing chunks have rows, the rest is what is missing. */
  lemma {:induction false} MissingShrinks(cs: seq<Chunk>, e: Embeddings, e': Embeddings, model: string, n: nat)
    requires DistinctIds(cs) && n <= |Missing(cs, e, model)|
    requires forall i :: 0 <= i < |cs| ==>
      ((cs[i].id, model) in e' <==> (cs[i].id, model) in e || cs[i] in Missing(cs, e, model)[..n])
    ensures Missing(cs, e', model) == Missing(cs, e, model)[n..]
  {
    if cs != [] {
      var m, tail, rest := Missing(cs, e, model), cs[1..], Missing(cs[1..], e, model);
      assert forall i :: 0 <= i < |tail| ==> tail[i] == cs[i + 1] && tail[i] != cs[0];
      if (cs[0].id, model) in e {
        assert m == rest;
        MissingShrinks(tail, e, e', model, n);
      } else if n == 0 {
        assert m == [cs[0]] + rest && m[..0] == [] && rest[..0] == [];
        MissingShrinks(tail, e, e', model, 0);
      } else {
        TakenFirst(cs[0], rest, n);
        MissingShrinks(tail, e, e', model, n - 1);
      }
    }
  }

  lemma TakenFirst(c: Chunk, rest: seq<Chunk>, n: nat)
    requires 0 < n <= |rest| + 1
    ensures ([c] + rest)[..n] == [c] + rest[..n - 1] && ([c] + rest)[n..] == rest[n - 1..]
    ensures c in ([c] + rest)[..n]
    ensures forall d :: d != c ==> (d in ([c] + rest)[..n] <==> d in rest[..n - 1])
  {
    assert ([c] + rest)[..n][0] == c;
  }

  /** A chunk has a row after a batch if it had one before or was in the batch. */
  lemma RowAfterBatch(e: Embeddings, cs: seq<Chunk>, batch: seq<Chunk>, model: string,
                      embed: string -> Vector, c: Chunk)
    requires DistinctIds(cs) && DistinctIds(batch) && c in cs && (forall b :: b in batch ==> b in cs)
    ensures (c.id, model) in Store(e, batch, model, embed) <==> (c.id, model) in e || c in batch
  {
    StoreRows(e, batch, model, embed);
    if k :| 0 <= k < |batch| && (c.id, model) == (batch[k].id, model) {
      assert batch[k] in batch;
      SameIdSameChunk(cs, c, batch[k]);
    }
  }

  lemma RowsAfterPrefix(e: Embeddings, cs: seq<Chunk>, model: string, embed: string -> Vector, n: nat)
    requires DistinctIds(cs) && n <= |Missing(cs, e, model)|
    ensures var batch := Missing(cs, e, model)[..n];
            forall i :: 0 <= i < |cs| ==>
              ((cs[i].id, model) in Store(e, batch, model, embed) <==> (cs[i].id, model) in e || cs[i] in batch)
  {
    var m := Missing(cs, e, model);
    var batch := m[..n];
    MissingChunks(cs, e, model);
    forall b | b in batch ensures b in cs { assert b in m; }
    forall i | 0 <= i < |cs|
      ensures (cs[i].id, model) in Store(e, batch, model, embed) <==> (cs[i].id, model) in e || cs[i] in batch
    {
      RowAfterBatch(e, cs, batch, model, embed, cs[i]);
    }
  }

  /**
   Interrupting a job after any number of stored chunks changes neither what is
   left to do nor the table that finishing leads to.
   */
  lemma BatchKeepsGoal(e: Embeddings, cs: seq<Chunk>, model: string, embed: string -> Vector, n: nat)
    requires DistinctIds(cs) && n <= |Missing(cs, e, model)|
    ensures var e' := Store(e, Missing(cs, e, model)[..n], model, embed);
            && Missing(cs, e', model) == Missing(cs, e, model)[n..]
            && Complete(e', cs, model, embed) == Complete(e, cs, model, embed)
  {
    var m := Missing(cs, e, model);
    RowsAfterPrefix(e, cs, model, embed, n);
    MissingShrinks(cs, e, Store(e, m[..n], model, embed), model, n);
    StoreInTwoParts(e, m, n, model, embed);
  }

  lemma StoreInTwoParts(e: Embeddings, m: seq<Chunk>, n: nat, model: string, embed: string -> Vector)
    requires n <= |m|
    ensures Store(Store(e, m[..n], model, embed), m[n..], model, embed) == Store(e, m, model, embed)
  {
    assert m == m[..n] + m[n..];
    StoreAppend(e, m[..n], m[n..], model, embed);
  }

  lemma SameIdSameChunk(cs: seq<Chunk>, c: Chunk, d: Chunk)
    requires DistinctIds(cs) && c in cs && d in cs && c.id == d.id
    ensures c == d
  {
  }

  /** A finished table has exactly one vector per chunk, and other rows are untouched. */
  lemma CompleteMeaning(e: Embeddings, cs: seq<Chunk>, model: string, embed: string -> Vector)
    requires DistinctIds(cs)
    ensures var e' := Complete(e, cs, model, embed);
            && Missing(cs, e', model) == []
            && (forall c :: c in cs ==> (c.id, model) in e')
            && (forall c :: c in cs && (c.id, model) !in e ==>
                  e'[(c.id, model)] == VectorToBlob(embed(c.content)))
            && (forall k :: k in e ==> k in e' && e'[k] == e[k])
            && (forall k :: k in e' ==> k in e || (k.1 == model && exists c :: c in cs && c.id == k.0))
  {
    var m := Missing(cs, e, model);
    BatchKeepsGoal(e, cs, model, embed, |m|);
    assert m[..|m|] == m;
    CompleteRows(e, cs, model, embed);
    CompleteOthers(e, cs, model, embed);
  }

  lemma CompleteRows(e: Embeddings, cs: seq<Chunk>, model: string, embed: string -> Vector)
    requires DistinctIds(cs)
    ensures var e' := Complete(e, cs, model, embed);
            && (forall c :: c in cs ==> (c.id, model) in e')
            && (forall c :: c in cs && (c.id, model) !in e ==>
                  e'[(c.id, model)] == VectorToBlob(embed(c.content)))
  {
    var m := Missing(cs, e, model);
    MissingChunks(cs, e, model);
    StoreRows(e, m, model, embed);
    forall c | c in cs && (c.id, model) !in e
      ensures (c.id, model) in Store(e, m, model, embed)
      ensures Store(e, m, model, embed)[(c.id, model)] == VectorToBlob(embed(c.content))
    {
      assert c in m;
      var i :| 0 <= i < |m| && m[i] == c;
      assert (m[i].id, model) in Store(e, m, model, embed);
    }
  }

  lemma CompleteOthers(e: Embeddings, cs: seq<Chunk>, model: string, embed: string -> Vector)
    requires DistinctIds(cs)
    ensures var e' := Complete(e, cs, model, embed);
            && (forall k :: k in e ==> k in e' && e'[k] == e[k])
            && (forall k :: k in e' ==> k in e || (k.1 == model && exists c :: c in cs && c.id == k.0))
  {
    var m := Missing(cs, e, model);
    var e' := Complete(e, cs, model, embed);
    MissingChunks(cs, e, model);
    StoreRows(e, m, model, embed);
    forall k | k in e ensures k in e' && e'[k] == e[k] {
      forall i | 0 <= i < |m| ensures k != (m[i].id, model) { assert m[i] in m; }
    }
    forall k | k in e' && k !in e ensures k.1 == model && exists c :: c in cs && c.id == k.0 {
      var i :| 0 <= i < |m| && k == (m[i].id, model);
      assert m[i] in m;
    }
  }

  // ---- Jobs -----------------------------------------------------------------------

  datatype JobError = Cancelled | EmbeddingFailed | CardinalityMismatch | ProviderUnavailable

  datatype EmbedResult = EmbedResult(embedded: nat, skipped: nat, model: string)

  /** How a call of the embedder may go wrong. */
  datatype Fault = NoFault | Fails | WrongCount(count: nat)

  /** The configured provider; a saved TF-IDF state is reused, other models come ready. */
  datatype Provider =
    | TfIdf(build: seq<string> -> ModelState, apply: (ModelState, string) -> Vector)
    | External(name: string, ready: bool, embedText: string -> Vector)

  const TFIDF_MODEL: string := "tfidf-v1"

  function ModelName(p: Provider): (r: string)
    ensures r == match p case TfIdf(_, _) => "tfidf-v1" case External(name, _, _) => name
  { if p.TfIdf? then TFIDF_MODEL else p.name }

  function Contents(cs: seq<Chunk>): seq<string> {
    if cs == [] then [] else [cs[0].content] + Contents(cs[1..])
  }

  /** The state a TF-IDF job works with: the saved one, or one built from all chunks. */
  function StateFor(states: map<string, ModelState>, chunks: seq<Chunk>, p: Provider): ModelState
    requires p.TfIdf?
  {
    if TFIDF_MODEL in states then states[TFIDF_MODEL] else p.build(Contents(chunks))
  }

  function EmbedWith(p: Provider, state: ModelState): string -> Vector
    requires p.TfIdf?
  {
    (text: string) => p.apply(state, text)
  }

  /** The embedding function of a job on these tables. */
  function EmbedderOf(states: map<string, ModelState>, chunks: seq<Chunk>, p: Provider): string -> Vector {
    if p.TfIdf? then EmbedWith(p, StateFor(states, chunks, p)) else p.embedText
  }

  /** The answers a control plane has prepared; where they run out, all goes well. */
  datatype Plan = Plan(checkpoints: seq<bool>, faults: seq<Fault>)

  predicate GoAt(p: Plan, i: nat) { i < |p.checkpoints| ==> p.checkpoints[i] }

  function FaultAt(p: Plan, i: nat): Fault { if i < |p.faults| then p.faults[i] else NoFault }

  function Rest<T>(s: seq<T>): seq<T> { if s == [] then [] else s[1..] }

  /** The plan after a checkpoint. */
  function Passed(p: Plan): Plan { p.(checkpoints := Rest(p.checkpoints)) }

  /** The plan after a call of the embedder. */
  function Called(p: Plan): Plan { p.(faults := Rest(p.faults)) }

  /** The embedder fails, or does not return `n` vectors. */
  function EmbedError(f: Fault, n: nat): Option<JobError> {
    match f
    case NoFault => None
    case Fails => Some(EmbeddingFailed)
    case WrongCount(count) => if count != n then Some(CardinalityMismatch) else None
  }

  /** How a job goes: the error that stops it, how many chunks it stores, the answers left. */
  datatype Course = Course(error: Option<JobError>, stored: nat, left: Plan)

  /** A batch of `n` chunks: embedded, then a checkpoint, then stored. */
  function BatchCourse(p: Plan, n: nat): (c: Course)
    ensures c.error.None? ==> c.stored == n
    ensures c.error.Some? ==> c.stored == 0
  {
    if EmbedError(FaultAt(p, 0), n).Some? then Course(EmbedError(FaultAt(p, 0), n), 0, Called(p))
    else if !GoAt(p, 0) then Course(Some(Cancelled), 0, Passed(Called(p)))
    else Course(None, n, Passed(Called(p)))
  }

  /** One round of the loop: a checkpoint, then a batch if anything is missing. */
  function RoundCourse(p: Plan, missing: nat, size: nat): (c: Course)
    requires size > 0
    ensures c.stored <= missing
    ensures c.error.None? ==> c.stored == Min(missing, size)
    ensures c.error.Some? ==> c.stored == 0
  {
    if !GoAt(p, 0) then Course(Some(Cancelled), 0, Passed(p))
    else if missing == 0 then Course(None, 0, Passed(p))
    else BatchCourse(Passed(p), Min(missing, size))
  }

  /** The loop over `missing` chunks ends with the round that finds nothing missing. */
  function LoopCourse(p: Plan, missing: nat, size: nat): (c: Course)
    requires size > 0
    ensures c.stored <= missing
    ensures c.error.None? ==> c.stored == missing
    decreases missing
  {
    var round := RoundCourse(p, missing, size);
    if round.stored == 0 then round else
    Later(LoopCourse(round.left, missing - round.stored, size), round.stored)
  }

  /** Before the loop: a checkpoint, the provider, and another checkpoint where a state is built. */
  function StartCourse(p: Plan, provider: Provider, builds: bool): (c: Course)
    ensures c.stored == 0
  {
    if !GoAt(p, 0) then Course(Some(Cancelled), 0, Passed(p))
    else if provider.External? && !provider.ready then Course(Some(ProviderUnavailable), 0, Passed(p))
    else if provider.TfIdf? && builds then
      Course(if GoAt(p, 1) then None else Some(Cancelled), 0, Passed(Passed(p)))
    else Course(None, 0, Passed(p))
  }

  /** A whole job: its start, and the loop if nothing stops the start. */
  function JobCourse(p: Plan, provider: Provider, builds: bool, missing: nat, size: nat): (c: Course)
    requires size > 0
    ensures c.stored <= missing
    ensures c.error.None? ==> c.stored == missing
  {
    var start := StartCourse(p, provider, builds);
    if start.error.Some? then start else LoopCourse(start.left, missing, size)
  }

  /** The first `b` batches, all full, meet nothing that stops them. */
  ghost predicate Clean(p: Plan, size: nat, b: nat) {
    && (forall i :: 0 <= i < 2 * b ==> GoAt(p, i))
    && (forall i :: 0 <= i < b ==> EmbedError(FaultAt(p, i), size).None?)
  }

  /** The plan after `b` batches. */
  function After(p: Plan, b: nat): Plan {
    Plan(p.checkpoints[Min(2 * b, |p.checkpoints|)..], p.faults[Min(b, |p.faults|)..])
  }

  lemma AfterOne(p: Plan, b: nat)
    requires b > 0
    ensures After(Passed(Called(Passed(p))), b - 1) == After(p, b)
  {
  }

  lemma CleanTail(p: Plan, size: nat, b: nat)
    requires b > 0 && Clean(p, size, b)
    ensures Clean(Passed(Called(Passed(p))), size, b - 1)
  {
    var q := Passed(Called(Passed(p)));
    forall i | 0 <= i < 2 * (b - 1) ensures GoAt(q, i) { assert GoAt(p, i + 2); }
    forall i | 0 <= i < b - 1 ensures FaultAt(q, i) == FaultAt(p, i + 1) {}
    forall i | 0 <= i < b - 1 ensures EmbedError(FaultAt(q, i), size).None? {
      assert EmbedError(FaultAt(p, i + 1), size).None?;
    }
  }

  /** How many chunks `b` full batches hold. */
  function Full(b: nat, size: nat): nat { if b == 0 then 0 else size + Full(b - 1, size) }

  lemma {:induction false} FullTimes(b: nat, size: nat)
    ensures Full(b, size) == b * size
  {
    if b > 0 { FullTimes(b - 1, size); }
  }

  /** After `b` full batches the loop goes on as if it began there. */
  ghost predicate Skips(p: Plan, missing: nat, size: nat, b: nat) {
    size > 0 && Full(b, size) <= missing
    && LoopCourse(p, missing, size) == Later(LoopCourse(After(p, b), missing - Full(b, size), size), Full(b, size))
  }

  lemma {:induction false} CourseSkips(p: Plan, missing: nat, size: nat, b: nat)
    requires size > 0 && Full(b, size) <= missing && Clean(p, size, b)
    ensures Skips(p, missing, size, b)
    decreases b
  {
    if b == 0 {
      assert After(p, 0) == p;
    } else {
      CleanTail(p, size, b);
      CourseSkips(Passed(Called(Passed(p))), missing - size, size, b - 1);
      SkipsStep(p, missing, size, b);
    }
  }

  lemma SkipsStep(p: Plan, missing: nat, size: nat, b: nat)
    requires b > 0 && size <= missing && Clean(p, size, b)
    requires Skips(Passed(Called(Passed(p))), missing - size, size, b - 1)
    ensures Skips(p, missing, size, b)
  {
    AfterOne(p, b);
    SkipOneMore(p, missing, size, b, LoopCourse(After(p, b), missing - Full(b, size), size), Full(b - 1, size));
  }

  lemma SkipOneMore(p: Plan, missing: nat, size: nat, b: nat, rest: Course, done: nat)
    requires size > 0 && b > 0 && size <= missing && Clean(p, size, b)
    requires LoopCourse(Passed(Called(Passed(p))), missing - size, size) == Later(rest, done)
    ensures LoopCourse(p, missing, size) == Later(rest, size + done)
  {
    FirstBatch(p, missing, size, b);
  }

  /** A course that begins after `n` chunks have been stored. */
  function Later(c: Course, n: nat): Course { c.(stored := n + c.stored) }

  lemma FirstBatch(p: Plan, missing: nat, size: nat, b: nat)
    requires size > 0 && b > 0 && size <= missing && Clean(p, size, b)
    ensures LoopCourse(p, missing, size) == Later(LoopCourse(Passed(Called(Passed(p))), missing - size, size), size)
  {
    assert GoAt(p, 0) && GoAt(p, 1) && EmbedError(FaultAt(p, 0), size).None?;
    assert RoundCourse(p, missing, size) == Course(None, size, Passed(Called(Passed(p))));
  }

  /**
   A job cut in batch `b` stops with the error of what cut it, and exactly the `b` batches
   before it are stored.
   */
  lemma CutCourse(p: Plan, missing: nat, size: nat, b: nat)
    requires size > 0 && b * size <= missing && Clean(p, size, b)
    ensures var c, n := LoopCourse(p, missing, size), Min(missing - b * size, size);
            && (!GoAt(p, 2 * b) ==> c.error == Some(Cancelled) && c.stored == b * size)
            && (GoAt(p, 2 * b) && n > 0 && EmbedError(FaultAt(p, b), n).Some? ==>
                  c.error == EmbedError(FaultAt(p, b), n) && c.stored == b * size)
            && (GoAt(p, 2 * b) && n > 0 && EmbedError(FaultAt(p, b), n).None? && !GoAt(p, 2 * b + 1) ==>
                  c.error == Some(Cancelled) && c.stored == b * size)
            && (GoAt(p, 2 * b) && n == 0 ==> c.error == None && c.stored == missing)
  {
    FullTimes(b, size);
    CourseSkips(p, missing, size, b);
    var q := After(p, b);
    assert GoAt(q, 0) == GoAt(p, 2 * b) && GoAt(Passed(q), 0) == GoAt(p, 2 * b + 1);
    assert FaultAt(q, 0) == FaultAt(p, b) == FaultAt(Passed(q), 0);
  }

  /** A job that nothing stops stores everything that is missing. */
  lemma {:induction false} QuietCourse(p: Plan, missing: nat, size: nat)
    requires size > 0
    requires forall i :: 0 <= i < |p.checkpoints| ==> p.checkpoints[i]
    requires forall i :: 0 <= i < |p.faults| ==> p.faults[i] == NoFault
    ensures LoopCourse(p, missing, size).error == None
    decreases missing
  {
    var round := RoundCourse(p, missing, size);
    if round.stored > 0 { QuietCourse(round.left, missing - round.stored, size); }
  }

  function Outcome<T>(c: Course, value: T): Result<T, JobError> {
    if c.error.Some? then Err(c.error.value) else Ok(value)
  }

  /** `course` is what was stored so far and then the course of the rest. */
  ghost predicate Continues(course: Course, embedded: nat, p: Plan, missing: nat, size: nat)
    requires size > 0
  {
    embedded <= missing
    && course == Later(LoopCourse(p, missing - embedded, size), embedded)
  }

  function PlanSize(p: Plan): nat { |p.checkpoints| + |p.faults| }

  /** A job that is stopped has used up an answer. */
  lemma {:induction false} CourseUses(p: Plan, missing: nat, size: nat)
    requires size > 0
    ensures var c := LoopCourse(p, missing, size);
            && PlanSize(c.left) <= PlanSize(p)
            && (c.error.Some? ==> PlanSize(c.left) < PlanSize(p) && c.error.value != ProviderUnavailable)
    decreases missing
  {
    var round := RoundCourse(p, missing, size);
    if round.stored > 0 { CourseUses(round.left, missing - round.stored, size); }
  }

  lemma NothingYet(e: Embeddings, todo: seq<Chunk>, model: string, embed: string -> Vector)
    ensures Store(e, todo[..0], model, embed) == e && Store(e, todo[|todo|..], model, embed) == e
    ensures todo[..|todo|] == todo
  {
  }

  /** What a job starts from: the table, the missing chunks and the prepared answers. */
  datatype Job = Job(
    start: Embeddings, todo: seq<Chunk>, plan: Plan, size: nat, model: string, embed: string -> Vector)

  /** The table once the first `n` missing chunks are stored. */
  function StoredTo(job: Job, n: nat): Embeddings
    requires n <= |job.todo|
  {
    Store(job.start, job.todo[..n], job.model, job.embed)
  }

  ghost predicate RoundRan(job: Job, r: Result<nat, JobError>, e: Embeddings, left: Plan) {
    job.size > 0
    && var c := RoundCourse(job.plan, |job.todo|, job.size);
       r == Outcome(c, c.stored) && e == StoredTo(job, c.stored) && left == c.left
  }

  ghost predicate LoopRan(job: Job, r: Result<nat, JobError>, e: Embeddings, left: Plan) {
    job.size > 0
    && var c := LoopCourse(job.plan, |job.todo|, job.size);
       r == Outcome(c, c.stored) && e == StoredTo(job, c.stored) && left == c.left
  }

  /** The first `embedded` chunks have been stored, and the rest of the course lies ahead. */
  ghost predicate Underway(job: Job, embedded: nat, e: Embeddings, p: Plan) {
    && job.size > 0 && embedded <= |job.todo| && e == StoredTo(job, embedded)
    && Continues(LoopCourse(job.plan, |job.todo|, job.size), embedded, p, |job.todo|, job.size)
  }

  lemma LeftToDo(job: Job, cs: seq<Chunk>, embedded: nat, e: Embeddings, p: Plan)
    requires DistinctIds(cs) && job.todo == Missing(cs, job.start, job.model) && Underway(job, embedded, e, p)
    ensures Missing(cs, e, job.model) == job.todo[embedded..]
  {
    BatchKeepsGoal(job.start, cs, job.model, job.embed, embedded);
  }

  lemma RoundStep(course: Course, embedded: nat, p: Plan, missing: nat, size: nat, round: Course)
    requires size > 0 && Continues(course, embedded, p, missing, size)
    requires round == RoundCourse(p, missing - embedded, size)
    ensures round.stored == 0 ==> course == round.(stored := embedded)
    ensures round.stored > 0 ==> Continues(course, embedded + round.stored, round.left, missing, size)
  {
  }

  lemma StoredInTwoSteps(job: Job, embedded: nat, next: Job, n: nat)
    requires embedded + n <= |job.todo|
    requires next == job.(start := StoredTo(job, embedded), todo := job.todo[embedded..], plan := next.plan)
    ensures StoredTo(next, n) == StoredTo(job, embedded + n)
  {
    assert job.todo[..embedded + n] == job.todo[..embedded] + job.todo[embedded..][..n];
    StoreAppend(job.start, job.todo[..embedded], job.todo[embedded..][..n], job.model, job.embed);
  }

  /** A round brings the job further, or ends it. */
  lemma Advance(job: Job, embedded: nat, next: Job, r: Result<nat, JobError>, e: Embeddings, left: Plan)
    requires embedded <= |job.todo| && Underway(job, embedded, next.start, next.plan)
    requires next == job.(start := next.start, todo := job.todo[embedded..], plan := next.plan)
    requires RoundRan(next, r, e, left)
    ensures r.Err? ==> LoopRan(job, Err(r.error), e, left)
    ensures r == Ok(0) ==> LoopRan(job, Ok(embedded), e, left)
    ensures r.Ok? && r.value > 0 ==> Underway(job, embedded + r.value, e, left)
  {
    var round := RoundCourse(next.plan, |next.todo|, job.size);
    RoundStep(LoopCourse(job.plan, |job.todo|, job.size), embedded, next.plan, |job.todo|, job.size, round);
    StoredInTwoSteps(job, embedded, next, round.stored);
  }

  /** The vector a job on one source finishes with, for a chunk that had none. */
  lemma JobVector(e: Embeddings, states: map<string, ModelState>, chunks: seq<Chunk>, documents: map<string, string>,
                  source: string, p: Provider, c: Chunk)
    requires DistinctIds(chunks) && c in Scoped(chunks, documents, Some(source)) && (c.id, ModelName(p)) !in e
    ensures var e' := Complete(e, Scoped(chunks, documents, Some(source)), ModelName(p), EmbedderOf(states, chunks, p));
            && (c.id, ModelName(p)) in e'
            && e'[(c.id, ModelName(p))] == VectorToBlob(
                 match p
                 case External(_, _, embedText) => embedText(c.content)
                 case TfIdf(build, apply) =>
                   apply(if "tfidf-v1" in states then states["tfidf-v1"] else build(Contents(chunks)), c.content))
  {
    ScopedDistinct(chunks, documents, Some(source));
    CompleteMeaning(e, Scoped(chunks, documents, Some(source)), ModelName(p), EmbedderOf(states, chunks, p));
  }

  /** However a job goes, its goal stays; one without an error has reached it. */
  lemma CourseMeaning(e: Embeddings, cs: seq<Chunk>, p: Plan, size: nat, model: string, embed: string -> Vector)
    requires DistinctIds(cs) && size > 0
    ensures var todo := Missing(cs, e, model);
            var c := LoopCourse(p, |todo|, size);
            var e' := Store(e, todo[..c.stored], model, embed);
            && Complete(e', cs, model, embed) == Complete(e, cs, model, embed)
            && (c.error.None? ==> e' == Complete(e, cs, model, embed))
            && PlanSize(c.left) <= PlanSize(p)
            && (c.error.Some? ==> PlanSize(c.left) < PlanSize(p) && c.error.value != ProviderUnavailable)
  {
    var todo := Missing(cs, e, model);
    CourseUses(p, |todo|, size);
    BatchKeepsGoal(e, cs, model, embed, LoopCourse(p, |todo|, size).stored);
    NothingYet(e, todo, model, embed);
  }

  function ErrorOf<T>(r: Result<T, JobError>): Option<JobError> {
    match r
    case Ok(_) => None
    case Err(e) => Some(e)
  }

  /** A job that gets past its first checkpoints builds the TF-IDF state that is not saved yet. */
  predicate Builds(provider: Provider, states: map<string, ModelState>, p: Plan) {
    provider.TfIdf? && TFIDF_MODEL !in states && GoAt(p, 0) && GoAt(p, 1)
  }

  /** The caller's control plane: what each checkpoint and each embedder call will do. */
  class Control {
    var checkpoints: seq<bool>
    var faults: seq<Fault>

    constructor (checkpoints: seq<bool>, faults: seq<Fault>)
      ensures this.checkpoints == checkpoints && this.faults == faults
    {
      this.checkpoints, this.faults := checkpoints, faults;
    }

    ghost function Prepared(): Plan
      reads this
    {
      Plan(checkpoints, faults)
    }

    /** How many answers are still prepared: every interruption uses one up. */
    ghost function Pending(): nat
      reads this
    {
      PlanSize(Prepared())
    }

    /** Consumes one answer; a control plane that has run out lets the job go on. */
    method Checkpoint() returns (ok: bool)
      modifies this`checkpoints
      ensures ok == old(GoAt(Prepared(), 0)) && Prepared() == old(Passed(Prepared()))
    {
      if checkpoints == [] { return true; }
      ok := checkpoints[0];
      checkpoints := checkpoints[1..];
    }

    method NextFault() returns (f: Fault)
      modifies this`faults
      ensures f == old(FaultAt(Prepared(), 0)) && Prepared() == old(Called(Prepared()))
    {
      if faults == [] { return NoFault; }
      f := faults[0];
      faults := faults[1..];
    }
  }

  class ChunkDb {
    var chunks: seq<Chunk>              // in id order
    var documents: map<string, string>  // document to source
    var embeddings: Embeddings
    var states: map<string, ModelState>

    ghost predicate Valid()
      reads this
    {
      forall i, j :: 0 <= i < j < |chunks| ==>
        LexLe(chunks[i].id, chunks[j].id) && chunks[i].id != chunks[j].id
    }

    function ScopeChunks(scope: Scope): seq<Chunk>
      reads this
    {
      Scoped(chunks, documents, scope)
    }

    /** One page of chunks that miss an embedding; the limit is at least one. */
    method MissingBatch(scope: Scope, model: string, limit: nat) returns (batch: seq<Chunk>)
      ensures var m := Missing(ScopeChunks(scope), embeddings, model);
              batch == m[..Min(|m|, Max(limit, 1))]
    {
      batch := [];
      var i := 0;
      while i < |chunks| && |batch| < Max(limit, 1)
        invariant 0 <= i <= |chunks| && |batch| <= Max(limit, 1)
        invariant batch == Missing(Scoped(chunks[..i], documents, scope), embeddings, model)
      {
        PageGrows(chunks, i, documents, scope, embeddings, model);
        if InScope(chunks[i], documents, scope) && (chunks[i].id, model) !in embeddings {
          batch := batch + [chunks[i]];
        }
        i := i + 1;
      }
      PageRest(chunks, i, documents, scope, embeddings, model);
    }

    /** One transaction of upserts. */
    method StoreBatch(batch: seq<Chunk>, vectors: seq<Vector>, model: string, ghost embed: string -> Vector)
      requires |vectors| == |batch|
      requires forall i :: 0 <= i < |batch| ==> vectors[i] == embed(batch[i].content)
      modifies this`embeddings
      ensures embeddings == Store(old(embeddings), batch, model, embed)
    {
      var i := 0;
      while i < |batch|
        invariant 0 <= i <= |batch|
        invariant Store(embeddings, batch[i..], model, embed) == Store(old(embeddings), batch, model, embed)
      {
        assert batch[i..][0] == batch[i] && batch[i..][1..] == batch[i + 1..];
        embeddings := embeddings[(batch[i].id, model) := VectorToBlob(vectors[i])];
        i := i + 1;
      }
      assert batch[i..] == [];
    }

    /** Embeds one batch and stores it, unless the embedder or a checkpoint stops it first. */
    method PersistBatch(batch: seq<Chunk>, model: string, embed: string -> Vector, control: Control)
      returns (r: Result<(), JobError>)
      modifies this`embeddings, control
      ensures r.Ok? ==> embeddings == Store(old(embeddings), batch, model, embed)
      ensures r.Err? ==> embeddings == old(embeddings)
      ensures control.Pending() <= old(control.Pending())
      ensures r.Err? ==> r.error != ProviderUnavailable && control.Pending() < old(control.Pending())
      ensures r == Err(EmbeddingFailed) <==> old(FaultAt(control.Prepared(), 0)) == Fails
      ensures r == Err(CardinalityMismatch) <==>
        old(FaultAt(control.Prepared(), 0)).WrongCount? && old(FaultAt(control.Prepared(), 0)).count != |batch|
      ensures r == Err(Cancelled) <==>
        old(EmbedError(FaultAt(control.Prepared(), 0), |batch|)).None? && !old(GoAt(control.Prepared(), 0))
      ensures r == Outcome(old(BatchCourse(control.Prepared(), |batch|)), ())
      ensures control.Prepared() == old(BatchCourse(control.Prepared(), |batch|)).left
    {
      var fault := control.NextFault();
      if fault == Fails { return Err(EmbeddingFailed); }
      var vectors := seq(|batch|, i requires 0 <= i < |batch| => embed(batch[i].content));
      if fault.WrongCount? && fault.count != |batch| { return Err(CardinalityMismatch); }
      var go := control.Checkpoint();
      if !go { return Err(Cancelled); }
      StoreBatch(batch, vectors, model, embed);
      return Ok(());
    }

    /** The work that lies before a job started now. */
    ghost function JobHere(scope: Scope, model: string, embed: string -> Vector, batchSize: nat, control: Control): Job
      reads this, control
    {
      Job(embeddings, Missing(ScopeChunks(scope), embeddings, model), control.Prepared(), Max(batchSize, 1), model, embed)
    }

    /** One round of the loop: the first missing page is embedded and stored. */
    method EmbedNext(scope: Scope, model: string, embed: string -> Vector, batchSize: nat, control: Control)
      returns (r: Result<nat, JobError>)
      modifies this`embeddings, control
      ensures RoundRan(old(JobHere(scope, model, embed, batchSize, control)), r, embeddings, control.Prepared())
    {
      NothingYet(embeddings, Missing(ScopeChunks(scope), embeddings, model), model, embed);
      var go := control.Checkpoint();
      if !go { return Err(Cancelled); }
      var batch := MissingBatch(scope, model, batchSize);
      if batch == [] { return Ok(0); }
      var done := PersistBatch(batch, model, embed, control);
      if done.Err? { return Err(done.error); }
      return Ok(|batch|);
    }

    /** Re-reads the first missing page until nothing is missing. */
    method EmbedLoop(scope: Scope, model: string, embed: string -> Vector, batchSize: nat, control: Control)
      returns (r: Result<nat, JobError>)
      requires Valid()
      modifies this`embeddings, control
      ensures LoopRan(old(JobHere(scope, model, embed, batchSize, control)), r, embeddings, control.Prepared())
    {
      ghost var cs, job := ScopeChunks(scope), JobHere(scope, model, embed, batchSize, control);
      ScopedDistinct(chunks, documents, scope);
      NothingYet(embeddings, job.todo, model, embed);
      var embedded: nat := 0;
      while true
        invariant cs == ScopeChunks(scope)
        invariant Underway(job, embedded, embeddings, control.Prepared())
        decreases |job.todo| - embedded
      {
        ghost var next := JobHere(scope, model, embed, batchSize, control);
        LeftToDo(job, cs, embedded, embeddings, control.Prepared());
        assert next == job.(start := embeddings, todo := job.todo[embedded..], plan := control.Prepared());
        var n := EmbedNext(scope, model, embed, batchSize, control);
        Advance(job, embedded, next, n, embeddings, control.Prepared());
        if n.Err? { return Err(n.error); }
        if n.value == 0 { return Ok(embedded); }
        embedded := embedded + n.value;
      }
    }

    /** However the loop is cut, its goal stays; a loop that is not cut reaches it. */
    method EmbedMissing(scope: Scope, model: string, embed: string -> Vector, batchSize: nat, control: Control)
      returns (r: Result<nat, JobError>)
      requires Valid()
      modifies this`embeddings, control
      ensures r.Ok? ==> embeddings == old(Complete(embeddings, ScopeChunks(scope), model, embed))
      ensures r.Ok? ==> r.value == |old(Missing(ScopeChunks(scope), embeddings, model))|
      ensures r.Err? ==>
        Complete(embeddings, ScopeChunks(scope), model, embed)
        == old(Complete(embeddings, ScopeChunks(scope), model, embed))
      ensures control.Pending() <= old(control.Pending())
      ensures r.Err? ==> r.error != ProviderUnavailable && control.Pending() < old(control.Pending())
      ensures LoopRan(old(JobHere(scope, model, embed, batchSize, control)), r, embeddings, control.Prepared())
    {
      ScopedDistinct(chunks, documents, scope);
      CourseMeaning(embeddings, ScopeChunks(scope), control.Prepared(), Max(batchSize, 1), model, embed);
      r := EmbedLoop(scope, model, embed, batchSize, control);
    }

    /** Loads the saved TF-IDF state, or builds it from every chunk and saves it. */
    method LoadOrBuildTfIdf(provider: Provider, control: Control) returns (r: Result<ModelState, JobError>)
      requires provider.TfIdf?
      modifies this`states, control
      ensures r.Ok? ==> r.value == old(StateFor(states, chunks, provider))
      ensures StateFor(states, chunks, provider) == old(StateFor(states, chunks, provider))
      ensures control.Pending() <= old(control.Pending())
      ensures r.Err? ==> control.Pending() < old(control.Pending())
      ensures TFIDF_MODEL in old(states) ==>
        r.Ok? && states == old(states) && control.Prepared() == old(control.Prepared())
      ensures TFIDF_MODEL !in old(states) ==> control.Prepared() == Passed(old(control.Prepared()))
      ensures r == Err(Cancelled) <==> TFIDF_MODEL !in old(states) && !GoAt(old(control.Prepared()), 0)
      ensures r.Err? ==> r.error == Cancelled && states == old(states)
      ensures r.Ok? ==> states == old(states)[TFIDF_MODEL := r.value]
    {
      if TFIDF_MODEL in states { return Ok(states[TFIDF_MODEL]); }
      var go := control.Checkpoint();
      if !go { return Err(Cancelled); }
      var state := provider.build(Contents(chunks));
      states := states[TFIDF_MODEL := state];
      return Ok(state);
    }

    /** The start of a job: the first checkpoint and the embedder of the configured provider. */
    method PrepareEmbedder(provider: Provider, control: Control) returns (r: Result<string -> Vector, JobError>)
      modifies this`states, control
      ensures ErrorOf(r) == old(StartCourse(control.Prepared(), provider, TFIDF_MODEL !in states)).error
      ensures control.Prepared() == old(StartCourse(control.Prepared(), provider, TFIDF_MODEL !in states)).left
      ensures states == if old(Builds(provider, states, control.Prepared()))
                        then old(states)[TFIDF_MODEL := provider.build(Contents(chunks))] else old(states)
      ensures r.Ok? ==> r.value == old(EmbedderOf(states, chunks, provider))
      ensures EmbedderOf(states, chunks, provider) == old(EmbedderOf(states, chunks, provider))
    {
      var go := control.Checkpoint();
      if !go { return Err(Cancelled); }
      if provider.TfIdf? {
        var loaded := LoadOrBuildTfIdf(provider, control);
        if loaded.Err? { return Err(loaded.error); }
        return Ok(EmbedWith(provider, loaded.value));
      } else if !provider.ready {
        return Err(ProviderUnavailable);
      }
      return Ok(provider.embedText);
    }

    /** The table that an uninterrupted job on one source leaves. */
    ghost function Goal(source: string, provider: Provider): Embeddings
      reads this
    {
      Complete(embeddings, ScopeChunks(Some(source)), ModelName(provider), EmbedderOf(states, chunks, provider))
    }

    ghost function CourseHere(source: string, batchSize: nat, provider: Provider, control: Control): Course
      reads this, control
    {
      JobCourse(control.Prepared(), provider, TFIDF_MODEL !in states,
                |Missing(ScopeChunks(Some(source)), embeddings, ModelName(provider))|, Max(batchSize, 1))
    }

    /** The table with as many of the source's missing chunks as the course stores. */
    ghost function SourceStored(source: string, batchSize: nat, provider: Provider, control: Control): Embeddings
      reads this, control
    {
      StoredTo(JobHere(Some(source), ModelName(provider), EmbedderOf(states, chunks, provider), batchSize, control),
               CourseHere(source, batchSize, provider, control).stored)
    }

    /** Embeds what one source misses; a cut job keeps the goal of the next attempt. */
    method RunSource(source: string, batchSize: nat, provider: Provider, control: Control)
      returns (r: Result<EmbedResult, JobError>)
      requires Valid()
      modifies this`embeddings, this`states, control
      ensures r.Ok? ==> embeddings == old(Goal(source, provider))
      ensures r.Ok? ==>
        && r.value.model == ModelName(provider)
        && r.value.embedded == |old(Missing(ScopeChunks(Some(source)), embeddings, ModelName(provider)))|
        && r.value.embedded + r.value.skipped == |ScopeChunks(Some(source))|
      ensures r.Err? ==> Goal(source, provider) == old(Goal(source, provider))
      ensures EmbedderOf(states, chunks, provider) == old(EmbedderOf(states, chunks, provider))
      ensures control.Pending() <= old(control.Pending())
      ensures r.Err? && r.error != ProviderUnavailable ==> control.Pending() < old(control.Pending())
      ensures r == Err(ProviderUnavailable) <==>
        old(GoAt(control.Prepared(), 0)) && provider.External? && !provider.ready
      ensures !old(GoAt(control.Prepared(), 0)) ==>
        r == Err(Cancelled) && embeddings == old(embeddings) && states == old(states)
      ensures states == if old(Builds(provider, states, control.Prepared()))
                        then old(states)[TFIDF_MODEL := provider.build(Contents(chunks))] else old(states)
      ensures old(CourseHere(source, batchSize, provider, control)).error == ErrorOf(r)
      ensures control.Prepared() == old(CourseHere(source, batchSize, provider, control)).left
      ensures embeddings == old(SourceStored(source, batchSize, provider, control))
    {
      NothingYet(embeddings, Missing(ScopeChunks(Some(source)), embeddings, ModelName(provider)),
                 ModelName(provider), EmbedderOf(states, chunks, provider));
      var embed :- PrepareEmbedder(provider, control);
      var total := |ScopeChunks(Some(source))|;
      var embedded :- EmbedMissing(Some(source), ModelName(provider), embed, batchSize, control);
      return Ok(EmbedResult(embedded, Max(total - embedded, 0), ModelName(provider)));
    }

    /**
     Any schedule of cancelled checkpoints and embedder failures, with any batch
     size per attempt: retrying ends, and ends with the uninterrupted job's table.
     */
    method RunUntilDone(source: string, batchSizes: nat -> nat, provider: Provider, control: Control)
      returns (attempts: nat)
      requires Valid() && (provider.External? ==> provider.ready)
      modifies this`embeddings, this`states, control
      ensures embeddings == old(Goal(source, provider))
      ensures EmbedderOf(states, chunks, provider) == old(EmbedderOf(states, chunks, provider))
      ensures attempts <= old(control.Pending())
    {
      attempts := 0;
      while true
        invariant Goal(source, provider) == old(Goal(source, provider))
        invariant EmbedderOf(states, chunks, provider) == old(EmbedderOf(states, chunks, provider))
        invariant attempts + control.Pending() <= old(control.Pending())
        decreases control.Pending()
      {
        var r := RunSource(source, batchSizes(attempts), provider, control);
        if r.Ok? { return; }
        attempts := attempts + 1;
      }
    }

    /** Embeds several sources one after the other, retrying each until it is done. */
    method EmbedSources(sources: seq<string>, batchSizes: nat -> nat, provider: Provider, control: Control)
      requires Valid() && (provider.External? ==> provider.ready)
      modifies this`embeddings, this`states, control
      ensures embeddings == old(Complete(embeddings, Covered(chunks, documents, AsSet(sources)), ModelName(provider),
                                         EmbedderOf(states, chunks, provider)))
      ensures EmbedderOf(states, chunks, provider) == old(EmbedderOf(states, chunks, provider))
    {
      ghost var embed, model := EmbedderOf(states, chunks, provider), ModelName(provider);
      NothingCovered(chunks, documents, embeddings, model, embed);
      for i := 0 to |sources|
        invariant EmbedderOf(states, chunks, provider) == embed
        invariant embeddings == old(Complete(embeddings, Covered(chunks, documents, AsSet(sources[..i])), model, embed))
      {
        CoverOneMore(chunks, documents, old(embeddings), sources, i, model, embed);
        var attempts := RunUntilDone(sources[i], batchSizes, provider, control);
      }
      assert sources[..|sources|] == sources;
    }

    /** `DELETE FROM embeddings WHERE model = ?`. */
    method DeleteModel(model: string)
      modifies this`embeddings
      ensures embeddings == WithoutModel(old(embeddings), model)
    {
      embeddings := WithoutModel(embeddings, model);
    }

    /** The start of a rebuild, which builds and saves a fresh TF-IDF state. */
    method PrepareRebuild(provider: Provider, control: Control) returns (error: Option<JobError>)
      modifies this`states, control
      ensures error == old(StartCourse(control.Prepared(), provider, true)).error
      ensures control.Prepared() == old(StartCourse(control.Prepared(), provider, true)).left
      ensures states == if error.None? && provider.TfIdf?
                        then old(states)[TFIDF_MODEL := provider.build(Contents(chunks))] else old(states)
    {
      var go := control.Checkpoint();
      if !go { return Some(Cancelled); }
      if provider.TfIdf? {
        go := control.Checkpoint();
        if !go { return Some(Cancelled); }
        states := states[TFIDF_MODEL := provider.build(Contents(chunks))];
      } else if !provider.ready {
        return Some(ProviderUnavailable);
      }
      return None;
    }

    /** Deletes the model's vectors and embeds every chunk. */
    method RebuildTable(model: string, embed: string -> Vector, batchSize: nat, control: Control)
      returns (r: Result<nat, JobError>)
      requires Valid()
      modifies this`embeddings, control
      ensures LoopRan(Job(WithoutModel(old(embeddings), model), chunks, old(control.Prepared()), Max(batchSize, 1),
                          model, embed), r, embeddings, control.Prepared())
    {
      ScopedChunks(chunks, documents, None);
      NothingStored(chunks, embeddings, model);
      DeleteModel(model);
      r := EmbedLoop(None, model, embed, batchSize, control);
    }

    ghost function RebuildCourse(batchSize: nat, provider: Provider, control: Control): (c: Course)
      reads this, control
      ensures c.stored <= |chunks|
    {
      JobCourse(control.Prepared(), provider, true, |chunks|, Max(batchSize, 1))
    }

    /** Recomputes every vector of one model; the vectors of other models stay as they are. */
    method RebuildAll(batchSize: nat, provider: Provider, control: Control)
      returns (r: Result<EmbedResult, JobError>, ghost begun: bool)
      requires Valid()
      modifies this`embeddings, this`states, control
      ensures r.Ok? ==>
        && embeddings == Rebuilt(old(embeddings), chunks, ModelName(provider), FreshEmbedder(provider, chunks))
        && r.value == EmbedResult(|chunks|, 0, ModelName(provider))
      ensures WithoutModel(embeddings, ModelName(provider)) == old(WithoutModel(embeddings, ModelName(provider)))
      ensures provider.External? ==> states == old(states)
      ensures r == Err(ProviderUnavailable) <==>
        old(GoAt(control.Prepared(), 0)) && provider.External? && !provider.ready
      ensures !old(GoAt(control.Prepared(), 0)) ==> r == Err(Cancelled) && !begun
      ensures old(RebuildCourse(batchSize, provider, control)).error == ErrorOf(r)
      ensures control.Prepared() == old(RebuildCourse(batchSize, provider, control)).left
      ensures begun <==> old(StartCourse(control.Prepared(), provider, true)).error.None?
      ensures begun ==>
        embeddings == Store(old(WithoutModel(embeddings, ModelName(provider))),
                            chunks[..old(RebuildCourse(batchSize, provider, control)).stored],
                            ModelName(provider), FreshEmbedder(provider, chunks))
      ensures r.Ok? ==> begun
      ensures !begun ==> embeddings == old(embeddings) && states == old(states)
      ensures begun ==>
        && EmbedderOf(states, chunks, provider) == FreshEmbedder(provider, chunks)
        && Complete(embeddings, chunks, ModelName(provider), FreshEmbedder(provider, chunks))
           == Rebuilt(old(embeddings), chunks, ModelName(provider), FreshEmbedder(provider, chunks))
    {
      begun := false;
      var model := ModelName(provider);
      var stop := PrepareRebuild(provider, control);
      if stop.Some? { return Err(stop.value), begun; }
      begun := true;
      RebuildMeaning(embeddings, chunks, control.Prepared(), Max(batchSize, 1), model, FreshEmbedder(provider, chunks));
      var done := RebuildTable(model, FreshEmbedder(provider, chunks), batchSize, control);
      if done.Err? { return Err(done.error), begun; }
      return Ok(EmbedResult(done.value, 0, model)), begun;
    }
  }

  ghost function AsSet(sources: seq<string>): set<string> { set s | s in sources }

  predicate InSources(c: Chunk, documents: map<string, string>, sources: set<string>) {
    c.document in documents && documents[c.document] in sources
  }

  /** The chunks of several sources. */
  function Covered(chunks: seq<Chunk>, documents: map<string, string>, sources: set<string>): seq<Chunk> {
    if chunks == [] then [] else
    (if InSources(chunks[0], documents, sources) then [chunks[0]] else [])
    + Covered(chunks[1..], documents, sources)
  }

  lemma {:induction false} CoveredChunks(chunks: seq<Chunk>, documents: map<string, string>, sources: set<string>)
    ensures forall c :: c in Covered(chunks, documents, sources) <==> c in chunks && InSources(c, documents, sources)
  {
    if chunks != [] {
      CoveredChunks(chunks[1..], documents, sources);
      assert chunks == [chunks[0]] + chunks[1..];
    }
  }

  lemma {:induction false} CoveredDistinct(chunks: seq<Chunk>, documents: map<string, string>, sources: set<string>)
    requires DistinctIds(chunks)
    ensures DistinctIds(Covered(chunks, documents, sources))
  {
    if chunks != [] {
      CoveredDistinct(chunks[1..], documents, sources);
      CoveredChunks(chunks[1..], documents, sources);
      var rest := Covered(chunks[1..], documents, sources);
      forall j | 0 <= j < |rest| ensures rest[j].id != chunks[0].id {
        assert rest[j] in rest;
        assert rest[j] in chunks[1..];
      }
    }
  }

  /** Finishing two sets of chunks one after the other is finishing their union. */
  lemma CompleteUnion(e: Embeddings, a: seq<Chunk>, b: seq<Chunk>, cs: seq<Chunk>, model: string, embed: string -> Vector)
    requires DistinctIds(a) && DistinctIds(b) && DistinctIds(cs) && (forall c :: c in cs <==> c in a || c in b)
    ensures Complete(Complete(e, a, model, embed), b, model, embed) == Complete(e, cs, model, embed)
  {
    var e1 := Complete(e, a, model, embed);
    var e2, e3 := Complete(e1, b, model, embed), Complete(e, cs, model, embed);
    forall k ensures (k in e2 <==> k in e3) && (k in e2 && k in e3 ==> e2[k] == e3[k]) {
      CompleteAt(e, a, model, embed, k);
      CompleteAt(e1, b, model, embed, k);
      CompleteAt(e, cs, model, embed, k);
      UnionAt(e, a, b, cs, model, embed, k);
    }
    assert e2.Keys == e3.Keys;
  }

  /** What finishing `cs` puts under `k`, if the table had nothing there. */
  ghost function NewBlob(cs: seq<Chunk>, model: string, embed: string -> Vector, k: (string, string)): Option<Blob> {
    if k.1 == model && exists c :: c in cs && c.id == k.0 then
      var c :| c in cs && c.id == k.0;
      Some(VectorToBlob(embed(c.content)))
    else
      None
  }

  lemma CompleteAt(e: Embeddings, cs: seq<Chunk>, model: string, embed: string -> Vector, k: (string, string))
    requires DistinctIds(cs)
    ensures var e' := Complete(e, cs, model, embed);
            && (k in e' <==> k in e || NewBlob(cs, model, embed, k).Some?)
            && (k in e ==> e'[k] == e[k])
            && (k !in e && k in e' ==> Some(e'[k]) == NewBlob(cs, model, embed, k))
  {
    CompleteMeaning(e, cs, model, embed);
    if k.1 == model && exists c :: c in cs && c.id == k.0 {
      var c :| c in cs && c.id == k.0;
      assert k == (c.id, model);
    }
  }

  lemma UnionAt(e: Embeddings, a: seq<Chunk>, b: seq<Chunk>, cs: seq<Chunk>, model: string, embed: string -> Vector,
                k: (string, string))
    requires DistinctIds(a) && DistinctIds(b) && DistinctIds(cs) && (forall c :: c in cs <==> c in a || c in b)
    ensures NewBlob(cs, model, embed, k)
         == if NewBlob(a, model, embed, k).Some? then NewBlob(a, model, embed, k) else NewBlob(b, model, embed, k)
  {
    forall c, d | c in cs && d in cs && c.id == d.id ensures c == d { SameIdSameChunk(cs, c, d); }
  }

  lemma NothingCovered(chunks: seq<Chunk>, documents: map<string, string>, e: Embeddings, model: string,
                       embed: string -> Vector)
    ensures Complete(e, Covered(chunks, documents, AsSet([])), model, embed) == e
  {
    var none: seq<string> := [];
    assert AsSet(none) == {};
    CoveredByNone(chunks, documents);
  }

  lemma {:induction false} CoveredByNone(chunks: seq<Chunk>, documents: map<string, string>)
    ensures Covered(chunks, documents, {}) == []
  {
    if chunks != [] { CoveredByNone(chunks[1..], documents); }
  }

  lemma CoverOneMore(chunks: seq<Chunk>, documents: map<string, string>, e: Embeddings, sources: seq<string>, i: nat,
                     model: string, embed: string -> Vector)
    requires DistinctIds(chunks) && i < |sources|
    ensures Complete(Complete(e, Covered(chunks, documents, AsSet(sources[..i])), model, embed),
                     Scoped(chunks, documents, Some(sources[i])), model, embed)
         == Complete(e, Covered(chunks, documents, AsSet(sources[..i + 1])), model, embed)
  {
    var before, after := AsSet(sources[..i]), AsSet(sources[..i + 1]);
    assert sources[..i + 1] == sources[..i] + [sources[i]];
    assert after == before + {sources[i]};
    CoveredChunks(chunks, documents, before);
    CoveredChunks(chunks, documents, after);
    ScopedChunks(chunks, documents, Some(sources[i]));
    CoveredDistinct(chunks, documents, before);
    CoveredDistinct(chunks, documents, after);
    ScopedDistinct(chunks, documents, Some(sources[i]));
    CompleteUnion(e, Covered(chunks, documents, before), Scoped(chunks, documents, Some(sources[i])),
                  Covered(chunks, documents, after), model, embed);
  }

  lemma {:induction false} EverythingCovered(chunks: seq<Chunk>, documents: map<string, string>, sources: set<string>)
    requires forall c :: c in chunks ==> InSources(c, documents, sources)
    ensures Covered(chunks, documents, sources) == chunks
  {
    if chunks != [] {
      assert chunks[0] in chunks && (forall c :: c in chunks[1..] ==> c in chunks);
      EverythingCovered(chunks[1..], documents, sources);
    }
  }

  /**
   A rebuild that was cut after its deletion is finished by the jobs of all sources: they
   leave the table the rebuild would have left, however often they are cut themselves.
   */
  method ResumeRebuild(db: ChunkDb, sources: seq<string>, batchSize: nat, batchSizes: nat -> nat, provider: Provider,
                       control: Control)
    returns (ghost begun: bool)
    requires db.Valid() && (provider.External? ==> provider.ready)
    requires forall c :: c in db.chunks ==> InSources(c, db.documents, AsSet(sources))
    modifies db`embeddings, db`states, control
    ensures begun ==>
      db.embeddings == Rebuilt(old(db.embeddings), db.chunks, ModelName(provider), FreshEmbedder(provider, db.chunks))
    ensures !begun ==>
      db.embeddings == old(Complete(db.embeddings, db.chunks, ModelName(provider), EmbedderOf(db.states, db.chunks, provider)))
  {
    var r;
    r, begun := db.RebuildAll(batchSize, provider, control);
    EverythingCovered(db.chunks, db.documents, AsSet(sources));
    db.EmbedSources(sources, batchSizes, provider, control);
  }

  function WithoutModel(e: Embeddings, model: string): Embeddings {
    map k | k in e && k.1 != model :: e[k]
  }

  /** The embedding function of a rebuild, which never reuses a saved state. */
  function FreshEmbedder(p: Provider, chunks: seq<Chunk>): string -> Vector {
    if p.TfIdf? then EmbedWith(p, p.build(Contents(chunks))) else p.embedText
  }

  ghost function Rebuilt(e: Embeddings, chunks: seq<Chunk>, model: string, embed: string -> Vector): Embeddings {
    Store(WithoutModel(e, model), chunks, model, embed)
  }

  lemma {:induction false} NothingStored(cs: seq<Chunk>, e: Embeddings, model: string)
    ensures Missing(cs, WithoutModel(e, model), model) == cs
  {
    if cs != [] { NothingStored(cs[1..], e, model); }
  }

  lemma WithoutIdempotent(e: Embeddings, model: string)
    ensures WithoutModel(WithoutModel(e, model), model) == WithoutModel(e, model)
  {
  }

  lemma {:induction false} StoreKeepsOthers(e: Embeddings, batch: seq<Chunk>, model: string, embed: string -> Vector)
    ensures WithoutModel(Store(e, batch, model, embed), model) == WithoutModel(e, model)
    decreases |batch|
  {
    if batch != [] {
      var e1 := e[(batch[0].id, model) := VectorToBlob(embed(batch[0].content))];
      StoreKeepsOthers(e1, batch[1..], model, embed);
      assert WithoutModel(e1, model) == WithoutModel(e, model);
    }
  }

  /** Wherever a rebuild is cut, other models are untouched and its goal stays. */
  lemma RebuildMeaning(e: Embeddings, chunks: seq<Chunk>, p: Plan, size: nat, model: string, embed: string -> Vector)
    requires DistinctIds(chunks) && size > 0
    ensures var c := LoopCourse(p, |chunks|, size);
            var e' := Store(WithoutModel(e, model), chunks[..c.stored], model, embed);
            && WithoutModel(e', model) == WithoutModel(e, model)
            && Complete(e', chunks, model, embed) == Rebuilt(e, chunks, model, embed)
            && (c.error.None? ==> e' == Rebuilt(e, chunks, model, embed))
            && (c.error.Some? ==> c.error.value != ProviderUnavailable)
  {
    var kept := WithoutModel(e, model);
    NothingStored(chunks, e, model);
    CourseMeaning(kept, chunks, p, size, model, embed);
    StoreKeepsOthers(kept, chunks[..LoopCourse(p, |chunks|, size).stored], model, embed);
    WithoutIdempotent(e, model);
  }

  /** After a rebuild the model has exactly one vector per chunk, all from the fresh state. */
  lemma RebuiltRows(e: Embeddings, chunks: seq<Chunk>, model: string, embed: string -> Vector)
    requires DistinctIds(chunks)
    ensures var e' := Rebuilt(e, chunks, model, embed);
            && (forall i :: 0 <= i < |chunks| ==>
                  (chunks[i].id, model) in e' && e'[(chunks[i].id, model)] == VectorToBlob(embed(chunks[i].content)))
            && (forall k :: k in e' && k.1 == model ==> exists i :: 0 <= i < |chunks| && k.0 == chunks[i].id)
            && WithoutModel(e', model) == WithoutModel(e, model)
  {
    var e0 := WithoutModel(e, model);
    StoreRows(e0, chunks, model, embed);
    StoreKeepsOthers(e0, chunks, model, embed);
    WithoutIdempotent(e, model);
  }

  lemma {:induction false} MissingAppend(a: seq<Chunk>, b: seq<Chunk>, e: Embeddings, model: string)
    ensures Missing(a + b, e, model) == Missing(a, e, model) + Missing(b, e, model)
  {
    if a == [] {
      assert a + b == b;
    } else {
      var head := if (a[0].id, model) in e then [] else [a[0]];
      MissingAppend(a[1..], b, e, model);
      assert (a + b)[0] == a[0] && (a + b)[1..] == a[1..] + b;
      assert Missing(a + b, e, model) == head + Missing(a[1..] + b, e, model);
      assert Missing(a, e, model) == head + Missing(a[1..], e, model);
    }
  }

  lemma {:induction false} ScopedAppend(a: seq<Chunk>, b: seq<Chunk>, documents: map<string, string>, scope: Scope)
    ensures Scoped(a + b, documents, scope) == Scoped(a, documents, scope) + Scoped(b, documents, scope)
  {
    if a == [] {
      assert a + b == b;
    } else {
      var head := if InScope(a[0], documents, scope) then [a[0]] else [];
      ScopedAppend(a[1..], b, documents, scope);
      assert (a + b)[0] == a[0] && (a + b)[1..] == a[1..] + b;
      assert Scoped(a + b, documents, scope) == head + Scoped(a[1..] + b, documents, scope);
      assert Scoped(a, documents, scope) == head + Scoped(a[1..], documents, scope);
    }
  }

  lemma PageGrows(chunks: seq<Chunk>, i: nat, documents: map<string, string>, scope: Scope,
                  e: Embeddings, model: string)
    requires i < |chunks|
    ensures Missing(Scoped(chunks[..i + 1], documents, scope), e, model)
         == Missing(Scoped(chunks[..i], documents, scope), e, model)
          + (if InScope(chunks[i], documents, scope) && (chunks[i].id, model) !in e then [chunks[i]] else [])
  {
    var a, b := chunks[..i], [chunks[i]];
    assert chunks[..i + 1] == a + b;
    ScopedAppend(a, b, documents, scope);
    MissingAppend(Scoped(a, documents, scope), Scoped(b, documents, scope), e, model);
  }

  lemma PageRest(chunks: seq<Chunk>, i: nat, documents: map<string, string>, scope: Scope,
                 e: Embeddings, model: string)
    requires i <= |chunks|
    ensures Missing(Scoped(chunks, documents, scope), e, model)
         == Missing(Scoped(chunks[..i], documents, scope), e, model)
          + Missing(Scoped(chunks[i..], documents, scope), e, model)
  {
    assert chunks == chunks[..i] + chunks[i..];
    ScopedAppend(chunks[..i], chunks[i..], documents, scope);
    MissingAppend(Scoped(chunks[..i], documents, scope), Scoped(chunks[i..], documents, scope), e, model);
  }
}
