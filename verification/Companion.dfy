/**
 Companion packs: validation of sprite grids and animations, normalization to
 frame numbers, and the look tracks of the second Codex dialect.
 */
module Companion {
  import opened Prelude

  const U32_MAX: nat := 0xFFFF_FFFF
  const U64_MAX: nat := 0xFFFF_FFFF_FFFF_FFFF

  type u32 = n: nat | n <= 0xFFFF_FFFF
  type u16 = n: nat | n <= 0xFFFF

  const SCHEMA_VERSION: nat := 1
  const MAX_SPRITESHEET_BYTES: nat := 10 * 1024 * 1024
  const MAX_DECODED_BYTES: nat := 32 * 1024 * 1024
  const MAX_FRAME_EDGE: nat := 512
  const MAX_GRID_EDGE: nat := 16
  const MAX_TOTAL_FRAMES: nat := 256
  const MAX_FPS: nat := 60

  datatype Grid = Grid(width: u32, height: u32, columns: u32, rows: u32)

  datatype Animation = Animation(
    row: u32, startColumn: u32, frames: u32, fps: u16, looping: bool, fallback: Option<string>)

  datatype Manifest = Manifest(
    schemaVersion: nat, id: string, displayName: string, spritesheet: string,
    frame: Grid, animations: map<string, Animation>)

  datatype Track = Track(frames: seq<u16>, fps: real, looping: bool, fallback: Option<string>)

  type Tracks = map<string, Track>

  function SatMul(a: u32, b: u32): u32 { if a * b <= U32_MAX then a * b else U32_MAX }

  function SatAdd(a: u32, b: u32): u32 { if a + b <= U32_MAX then a + b else U32_MAX }

  function SatMul64(a: nat, b: nat): nat { if a * b <= U64_MAX then a * b else U64_MAX }

  // ---- Validation ---------------------------------------------------------------------------

  predicate WithinBudget(width: u32, height: u32) {
    SatMul64(SatMul64(width, height), 4) <= MAX_DECODED_BYTES
  }

  predicate ValidEdges(f: Grid) {
    0 < f.width <= MAX_FRAME_EDGE && 0 < f.height <= MAX_FRAME_EDGE
  }

  predicate ValidCells(f: Grid) {
    && 0 < f.columns <= MAX_GRID_EDGE && 0 < f.rows <= MAX_GRID_EDGE
    && SatMul(f.columns, f.rows) <= MAX_TOTAL_FRAMES
  }

  /** `validate_frame_grid` accepts the grid. */
  predicate ValidGrid(f: Grid) {
    ValidEdges(f) && ValidCells(f) && WithinBudget(SatMul(f.width, f.columns), SatMul(f.height, f.rows))
  }

  predicate ValidFallback(name: string, fallback: Option<string>, names: set<string>) {
    fallback.Some? ==> fallback.value != name && fallback.value in names
  }

  predicate ValidAnimation(name: string, a: Animation, f: Grid, names: set<string>) {
    && !IsBlank(name)
    && a.frames != 0 && 0 < a.fps <= MAX_FPS
    && a.row < f.rows && a.startColumn < f.columns
    && SatAdd(a.startColumn, a.frames) <= f.columns
    && ValidFallback(name, a.fallback, names)
  }

  /** `validate_companion_pack` accepts; `safePath` judges the relative asset path. */
  predicate ValidPack(m: Manifest, spritesheetSize: nat, safePath: string -> bool) {
    && m.schemaVersion == SCHEMA_VERSION
    && !IsBlank(m.id) && !IsBlank(m.displayName)
    && safePath(m.spritesheet)
    && 0 < spritesheetSize <= MAX_SPRITESHEET_BYTES
    && ValidGrid(m.frame)
    && m.animations != map[]
    && forall name :: name in m.animations ==> ValidAnimation(name, m.animations[name], m.frame, m.animations.Keys)
  }

  predicate ValidTrack(name: string, t: Track, total: nat, names: set<string>) {
    && !IsBlank(name)
    && t.frames != [] && 0.0 < t.fps <= MAX_FPS as real
    && (forall i :: 0 <= i < |t.frames| ==> t.frames[i] < total)
    && ValidFallback(name, t.fallback, names)
  }

  /** `validate_normalized_animations` accepts the tracks. */
  predicate ValidTracks(ts: Tracks, total: nat) {
    ts != map[] && forall name :: name in ts ==> ValidTrack(name, ts[name], total, ts.Keys)
  }

  /** `walk` is the order in which a hash map's names are visited. */
  ghost predicate Walks(walk: seq<string>, names: set<string>) { forall name :: name in walk <==> name in names }

  /** The loop both validators share: stops at the first name that fails. */
  method AllNames(walk: seq<string>, names: set<string>, valid: string -> bool) returns (ok: bool)
    requires Walks(walk, names)
    ensures ok <==> forall name :: name in names ==> valid(name)
  {
    for i := 0 to |walk|
      invariant forall j :: 0 <= j < i ==> valid(walk[j])
    {
      assert walk[i] in walk;
      if !valid(walk[i]) { return false; }
    }
    forall name | name in names ensures valid(name) { assert name in walk; }
    return true;
  }

  function TrackCheck(ts: Tracks, total: nat): string -> bool {
    (name: string) => name in ts && ValidTrack(name, ts[name], total, ts.Keys)
  }

  function AnimationCheck(m: Manifest): string -> bool {
    (name: string) => name in m.animations && ValidAnimation(name, m.animations[name], m.frame, m.animations.Keys)
  }

  method ValidateTracks(ts: Tracks, total: nat, walk: seq<string>) returns (ok: bool)
    requires Walks(walk, ts.Keys)
    ensures ok == ValidTracks(ts, total)
  {
    if ts == map[] { return false; }
    ok := AllNames(walk, ts.Keys, TrackCheck(ts, total));
    assert ok <==> forall name :: name in ts ==> TrackCheck(ts, total)(name);
  }

  method ValidatePack(m: Manifest, spritesheetSize: nat, safePath: string -> bool, walk: seq<string>) returns (ok: bool)
    requires Walks(walk, m.animations.Keys)
    ensures ok == ValidPack(m, spritesheetSize, safePath)
  {
    if m.schemaVersion != SCHEMA_VERSION || IsBlank(m.id) || IsBlank(m.displayName) || !safePath(m.spritesheet)
       || spritesheetSize == 0 || spritesheetSize > MAX_SPRITESHEET_BYTES || !ValidGrid(m.frame)
       || m.animations == map[]
    { return false; }
    ok := AllNames(walk, m.animations.Keys, AnimationCheck(m));
    assert ok <==> forall name :: name in m.animations ==> AnimationCheck(m)(name);
  }

  // ---- Normalization ------------------------------------------------------------------------------

  /** The numbers from `start` to `end` that fit sixteen bits. */
  function Frames(start: nat, end: nat): seq<u16>
    decreases if end > start then end - start else 0
  {
    if start >= end then [] else (if start <= 0xFFFF then [start] else []) + Frames(start + 1, end)
  }

  function NormalizeAnimation(a: Animation, columns: u32): Track {
    var start := SatAdd(SatMul(a.row, columns), a.startColumn);
    Track(Frames(start, SatAdd(start, a.frames)), a.fps as real, a.looping, a.fallback)
  }

  function NormalizeTracks(m: Manifest): Tracks {
    map name | name in m.animations :: NormalizeAnimation(m.animations[name], m.frame.columns)
  }

  lemma {:induction false} FramesExact(start: nat, end: nat)
    requires start <= end <= 0x1_0000
    ensures |Frames(start, end)| == end - start
    ensures forall k :: 0 <= k < end - start ==> Frames(start, end)[k] == start + k
    decreases end - start
  {
    if start < end { FramesExact(start + 1, end); }
  }

  lemma ProductBound(a: nat, b: nat, x: nat, y: nat)
    requires a <= x && b <= y
    ensures a * b <= x * y
  {
    assert a * b <= x * b by { assert (x - a) * b >= 0; }
    assert x * b <= x * y by { assert x * (y - b) >= 0; }
  }

  /** In an accepted grid no multiplication saturates: neither the cells, nor the sheet, nor its decoded bytes. */
  lemma GridExact(f: Grid)
    requires ValidEdges(f) && 0 < f.columns <= MAX_GRID_EDGE && 0 < f.rows <= MAX_GRID_EDGE
    ensures SatMul(f.columns, f.rows) == f.columns * f.rows <= MAX_TOTAL_FRAMES
    ensures SatMul(f.width, f.columns) == f.width * f.columns && SatMul(f.height, f.rows) == f.height * f.rows
    ensures SatMul64(f.width * f.columns, f.height * f.rows) == (f.width * f.columns) * (f.height * f.rows)
    ensures SatMul64(SatMul64(f.width * f.columns, f.height * f.rows), 4)
         == 4 * ((f.width * f.columns) * (f.height * f.rows))
  {
    ProductBound(f.columns, f.rows, 16, 16);
    ProductBound(f.width, f.columns, 512, 16);
    ProductBound(f.height, f.rows, 512, 16);
    ProductBound(f.width * f.columns, f.height * f.rows, 8192, 8192);
  }

  /** So the budget check is what it says: four bytes per pixel of the whole sheet. */
  lemma BudgetMeaning(f: Grid)
    requires ValidEdges(f) && ValidCells(f)
    ensures ValidGrid(f) <==> 4 * ((f.width * f.columns) * (f.height * f.rows)) <= MAX_DECODED_BYTES
  {
    GridExact(f);
  }

  lemma RowBound(row: nat, rows: nat, columns: nat)
    requires row < rows
    ensures row * columns + columns <= rows * columns
  {
    assert (rows - row - 1) * columns >= 0;
    assert (rows - row - 1) * columns == rows * columns - row * columns - columns;
  }

  /** In an accepted animation neither addition saturates, and the end is inside the row. */
  lemma StartExact(name: string, a: Animation, f: Grid, names: set<string>)
    requires ValidCells(f) && ValidAnimation(name, a, f, names)
    ensures SatMul(a.row, f.columns) == a.row * f.columns
    ensures SatAdd(SatMul(a.row, f.columns), a.startColumn) == a.row * f.columns + a.startColumn
    ensures SatAdd(a.row * f.columns + a.startColumn, a.frames) == a.row * f.columns + a.startColumn + a.frames
    ensures a.row * f.columns + a.startColumn + a.frames <= f.rows * f.columns <= 256
    ensures a.startColumn + a.frames <= f.columns
  {
    ProductBound(a.row, f.columns, 16, 16);
    ProductBound(f.rows, f.columns, 16, 16);
    RowBound(a.row, f.rows, f.columns);
  }

  /** An animation is accepted exactly when its cells lie in one row of the grid and its fallback is another animation. */
  lemma AnimationAccepted(name: string, a: Animation, f: Grid, names: set<string>)
    requires ValidCells(f)
    ensures ValidAnimation(name, a, f, names) <==>
      && !IsBlank(name) && 1 <= a.frames && 1 <= a.fps <= 60
      && a.row < f.rows && a.startColumn + a.frames <= f.columns
      && (a.fallback.Some? ==> a.fallback.value in names && a.fallback.value != name)
  {
  }

  /** A normalized animation shows exactly its cells: all of them, in order, in its own row. */
  lemma NormalizedFrames(name: string, a: Animation, f: Grid, names: set<string>)
    requires ValidCells(f) && ValidAnimation(name, a, f, names)
    ensures var frames := NormalizeAnimation(a, f.columns).frames;
            && |frames| == a.frames
            && (forall k :: 0 <= k < a.frames ==> frames[k] == a.row * f.columns + a.startColumn + k)
            && (forall k :: 0 <= k < a.frames ==> frames[k] < f.columns * f.rows)
    ensures var t := NormalizeAnimation(a, f.columns);
            t.fps == a.fps as real && t.looping == a.looping && t.fallback == a.fallback
  {
    StartExact(name, a, f, names);
    var start := a.row * f.columns + a.startColumn;
    FramesExact(start, start + a.frames);
    assert f.rows * f.columns == f.columns * f.rows;
  }

  lemma DivideRow(row: nat, columns: nat, offset: nat)
    requires offset < columns
    ensures (row * columns + offset) / columns == row && (row * columns + offset) % columns == offset
  {
    var n := row * columns + offset;
    var q, r := n / columns, n % columns;
    assert n == q * columns + r;
    if q < row { RowBound(q, row, columns); }
    if row < q { RowBound(row, q, columns); }
  }

  /** The cell of each frame can be read back from its number. */
  lemma FramesReadBack(name: string, a: Animation, f: Grid, names: set<string>, k: nat)
    requires ValidCells(f) && ValidAnimation(name, a, f, names) && k < a.frames
    ensures var frames := NormalizeAnimation(a, f.columns).frames;
            k < |frames| && frames[k] / f.columns == a.row && frames[k] % f.columns == a.startColumn + k
  {
    NormalizedFrames(name, a, f, names);
    StartExact(name, a, f, names);
    DivideRow(a.row, f.columns, a.startColumn + k);
  }

  lemma NormalizedTrackValid(name: string, a: Animation, f: Grid, names: set<string>)
    requires ValidCells(f) && ValidAnimation(name, a, f, names)
    ensures ValidTrack(name, NormalizeAnimation(a, f.columns), f.columns * f.rows, names)
  {
    NormalizedFrames(name, a, f, names);
  }

  /** Every accepted manifest normalizes to a grid and tracks that the later checks accept. */
  lemma AcceptedNormalizes(m: Manifest, spritesheetSize: nat, safePath: string -> bool)
    requires ValidPack(m, spritesheetSize, safePath)
    ensures ValidGrid(m.frame)
    ensures SatMul(m.frame.columns, m.frame.rows) == m.frame.columns * m.frame.rows
    ensures NormalizeTracks(m).Keys == m.animations.Keys
    ensures ValidTracks(NormalizeTracks(m), m.frame.columns * m.frame.rows)
  {
    GridExact(m.frame);
    var ts := NormalizeTracks(m);
    var names := m.animations.Keys;
    assert ts.Keys == names;
    forall name | name in ts ensures ValidTrack(name, ts[name], m.frame.columns * m.frame.rows, names) {
      NormalizedTrackValid(name, m.animations[name], m.frame, names);
    }
    var name :| name in m.animations;
    assert name in ts;
  }

  // ---- Look tracks -----------------------------------------------------------------------------------

  function LookName(d: nat): string { "look" + Decimal(d) }

  function LookTrack(d: nat, fallback: Option<string>): Track
    requires d < 16
  {
    Track([72 + d], 1.0, true, fallback)
  }

  function IdleFallback(ts: Tracks): Option<string> { if "idle" in ts then Some("idle") else None }

  /** Inserts a look track for each of the first `n` directions that has none. */
  function WithLooks(ts: Tracks, n: nat, fallback: Option<string>): Tracks
    requires n <= 16
  {
    if n == 0 then ts else
    var before := WithLooks(ts, n - 1, fallback);
    if LookName(n - 1) in before then before else before[LookName(n - 1) := LookTrack(n - 1, fallback)]
  }

  function Supplemented(ts: Tracks): Tracks { WithLooks(ts, 16, IdleFallback(ts)) }

  method SupplementLookTracks(ts: Tracks) returns (r: Tracks)
    ensures r == Supplemented(ts)
  {
    r := ts;
    var fallback := IdleFallback(ts);
    for d := 0 to 16
      invariant r == WithLooks(ts, d, fallback)
    {
      if LookName(d) !in r { r := r[LookName(d) := LookTrack(d, fallback)]; }
    }
  }

  lemma DigitsDiffer(c: nat, d: nat)
    requires c < d < 16
    ensures Decimal(c) != Decimal(d)
  {
    assert d < 10 ==> Decimal(d) == [('0' as int + d) as char];
    assert c < 10 ==> Decimal(c) == [('0' as int + c) as char];
    if d >= 10 {
      assert Decimal(1) == ['1'];
      assert Decimal(d) == ['1'] + [('0' as int + (d - 10)) as char];
      if c >= 10 {
        assert Decimal(c) == ['1'] + [('0' as int + (c - 10)) as char];
        assert Decimal(c)[1] != Decimal(d)[1];
      } else {
        assert |Decimal(c)| == 1 && |Decimal(d)| == 2;
      }
    }
  }

  lemma LookNamesDiffer(c: nat, d: nat)
    requires c < 16 && d < 16
    ensures LookName(c) == LookName(d) <==> c == d
  {
    if c != d {
      DigitsDiffer(Min(c, d), Max(c, d));
      assert LookName(c)[4..] == Decimal(c) && LookName(d)[4..] == Decimal(d);
    }
  }

  ghost predicate IsLook(name: string, n: nat) { exists d: nat :: d < n && name == LookName(d) }

  lemma IsLookStep(name: string, n: nat)
    requires n > 0
    ensures IsLook(name, n) <==> IsLook(name, n - 1) || name == LookName(n - 1)
  {
    if name == LookName(n - 1) {
      assert n - 1 < n && name == LookName(n - 1);
    } else if IsLook(name, n - 1) {
      var d: nat :| d < n - 1 && name == LookName(d);
      assert d < n;
    }
  }

  lemma {:induction false} WithLooksNames(ts: Tracks, n: nat, fallback: Option<string>, name: string)
    requires n <= 16
    ensures name in WithLooks(ts, n, fallback) <==> name in ts || IsLook(name, n)
    ensures name in ts ==> WithLooks(ts, n, fallback)[name] == ts[name]
  {
    if n > 0 {
      WithLooksNames(ts, n - 1, fallback, name);
      IsLookStep(name, n);
    }
  }

  lemma {:induction false} WithLooksNew(ts: Tracks, n: nat, fallback: Option<string>, d: nat)
    requires d < n <= 16 && LookName(d) !in ts
    ensures LookName(d) in WithLooks(ts, n, fallback) && WithLooks(ts, n, fallback)[LookName(d)] == LookTrack(d, fallback)
  {
    LookNamesDiffer(d, n - 1);
    if d < n - 1 {
      WithLooksNew(ts, n - 1, fallback, d);
    } else {
      WithLooksNames(ts, n - 1, fallback, LookName(d));
      if IsLook(LookName(d), n - 1) {
        var c: nat :| c < n - 1 && LookName(d) == LookName(c);
        LookNamesDiffer(c, d);
      }
    }
  }

  /** Authored tracks stay as they are; exactly the missing directions get a track of their own. */
  lemma WithLooksMeaning(ts: Tracks, n: nat, fallback: Option<string>)
    requires n <= 16
    ensures var r := WithLooks(ts, n, fallback);
            && (forall name :: name in ts ==> name in r && r[name] == ts[name])
            && (forall name :: name in r <==> name in ts || IsLook(name, n))
            && (forall d: nat :: d < n && LookName(d) !in ts ==> LookName(d) in r && r[LookName(d)] == LookTrack(d, fallback))
  {
    var r := WithLooks(ts, n, fallback);
    forall name
      ensures name in r <==> name in ts || IsLook(name, n)
      ensures name in ts ==> r[name] == ts[name]
    {
      WithLooksNames(ts, n, fallback, name);
    }
    forall d: nat | d < n && LookName(d) !in ts
      ensures LookName(d) in r && r[LookName(d)] == LookTrack(d, fallback)
    {
      WithLooksNew(ts, n, fallback, d);
    }
  }

  lemma LookVisible(d: nat)
    ensures !IsBlank(LookName(d)) && LookName(d) != "idle"
  {
    VisibleStart(LookName(d));
    assert LookName(d)[0] == 'l';
  }

  /** All directions that the map lacks fit the grid. */
  ghost predicate LooksFit(ts: Tracks, total: nat) {
    forall d: nat :: d < 16 && LookName(d) !in ts ==> 72 + d < total
  }

  lemma FallbackGrows(name: string, fallback: Option<string>, a: set<string>, b: set<string>)
    requires ValidFallback(name, fallback, a) && a <= b
    ensures ValidFallback(name, fallback, b)
  {
  }

  lemma NewLookValid(ts: Tracks, d: nat, total: nat)
    requires d < 16 && LookName(d) !in ts
    ensures ValidTrack(LookName(d), LookTrack(d, IdleFallback(ts)), total, Supplemented(ts).Keys) <==> 72 + d < total
  {
    LookVisible(d);
    WithLooksMeaning(ts, 16, IdleFallback(ts));
    var t := LookTrack(d, IdleFallback(ts));
    assert t.frames[0] == 72 + d;
  }

  lemma AuthoredStaysValid(ts: Tracks, total: nat, name: string)
    requires ValidTracks(ts, total) && name in ts
    ensures name in Supplemented(ts) && ValidTrack(name, Supplemented(ts)[name], total, Supplemented(ts).Keys)
  {
    WithLooksMeaning(ts, 16, IdleFallback(ts));
    FallbackGrows(name, ts[name].fallback, ts.Keys, Supplemented(ts).Keys);
  }

  /** Supplementing keeps a valid map valid exactly when the directions it adds are inside the grid. */
  lemma SupplementValid(ts: Tracks, total: nat)
    requires ValidTracks(ts, total)
    ensures ValidTracks(Supplemented(ts), total) <==> LooksFit(ts, total)
  {
    var r := Supplemented(ts);
    WithLooksMeaning(ts, 16, IdleFallback(ts));
    forall d: nat | d < 16 && LookName(d) !in ts
      ensures LookName(d) in r && (ValidTrack(LookName(d), r[LookName(d)], total, r.Keys) <==> 72 + d < total)
    {
      NewLookValid(ts, d, total);
    }
    forall name | name in ts ensures ValidTrack(name, r[name], total, r.Keys) { AuthoredStaysValid(ts, total, name); }
    if LooksFit(ts, total) {
      forall name | name in r ensures ValidTrack(name, r[name], total, r.Keys) {
        if name !in ts {
          var d: nat :| d < 16 && name == LookName(d);
        }
      }
      var name :| name in ts;
      assert name in r;
    }
  }

  // ---- Default tracks ---------------------------------------------------------------------------------

  function SatMul16(a: u16, b: u16): u16 { if a * b <= 0xFFFF then a * b else 0xFFFF }

  function SatAdd16(a: u16, b: u16): u16 { if a + b <= 0xFFFF then a + b else 0xFFFF }

  function AnimationRow(row: u16, count: u16, fps: real): Track {
    var start := SatMul16(row, 8);
    Track(Frames(start, SatAdd16(start, count)), fps, true, None)
  }

  datatype Spec = Spec(name: string, row: u16, count: u16, fps: real)

  const V1_TRACKS: seq<Spec> :=
    [Spec("idle", 0, 6, 8.0), Spec("moveRight", 1, 8, 10.0), Spec("moveLeft", 2, 8, 10.0),
     Spec("waving", 3, 4, 10.0), Spec("jumping", 4, 5, 10.0), Spec("failed", 5, 8, 8.0),
     Spec("waiting", 6, 6, 8.0), Spec("running", 7, 6, 12.0), Spec("review", 8, 6, 8.0)]

  const V2_TRACKS: seq<Spec> :=
    [Spec("idle", 0, 7, 8.0), Spec("moveRight", 1, 8, 10.0), Spec("moveLeft", 2, 8, 10.0),
     Spec("waving", 3, 4, 10.0), Spec("jumping", 4, 5, 10.0), Spec("failed", 5, 8, 8.0),
     Spec("waiting", 6, 6, 8.0), Spec("running", 7, 6, 12.0), Spec("review", 8, 6, 8.0)]

  function Collect(specs: seq<Spec>): Tracks {
    if specs == [] then map[] else
    var s := specs[|specs| - 1];
    Collect(specs[..|specs| - 1])[s.name := AnimationRow(s.row, s.count, s.fps)]
  }

  function DefaultTracks(version: nat): Tracks {
    if version == 2 then Supplemented(Collect(V2_TRACKS)) else Collect(V1_TRACKS)
  }

  predicate ValidSpec(s: Spec, rows: nat) {
    s.name != [] && !IsWhitespace(s.name[0]) && s.row < rows && 0 < s.count <= 8 && 0.0 < s.fps <= 60.0
  }

  lemma RowTrackValid(s: Spec, rows: nat, names: set<string>)
    requires ValidSpec(s, rows) && rows <= 16
    ensures ValidTrack(s.name, AnimationRow(s.row, s.count, s.fps), 8 * rows, names)
  {
    VisibleStart(s.name);
    FramesExact(8 * s.row, 8 * s.row + s.count);
  }

  lemma {:induction false} CollectValid(specs: seq<Spec>, rows: nat, names: set<string>)
    requires (forall i :: 0 <= i < |specs| ==> ValidSpec(specs[i], rows)) && rows <= 16
    ensures forall name :: name in Collect(specs) ==> ValidTrack(name, Collect(specs)[name], 8 * rows, names)
    ensures specs != [] ==> Collect(specs) != map[]
    decreases |specs|
  {
    if specs != [] {
      var s := specs[|specs| - 1];
      CollectValid(specs[..|specs| - 1], rows, names);
      RowTrackValid(s, rows, names);
      assert s.name in Collect(specs);
    }
  }

  lemma SpecsValid()
    ensures forall i :: 0 <= i < |V1_TRACKS| ==> ValidSpec(V1_TRACKS[i], 9)
    ensures forall i :: 0 <= i < |V2_TRACKS| ==> ValidSpec(V2_TRACKS[i], 9)
  {
  }

  /** The default tracks fit their atlases: nine rows of eight cells, or eleven with the look rows. */
  lemma DefaultTracksValid()
    ensures ValidTracks(DefaultTracks(1), 8 * 9) && ValidTracks(DefaultTracks(2), 8 * 11)
  {
    SpecsValid();
    CollectValid(V1_TRACKS, 9, Collect(V1_TRACKS).Keys);
    CollectValid(V2_TRACKS, 11, Collect(V2_TRACKS).Keys);
    SupplementValid(Collect(V2_TRACKS), 8 * 11);
  }

  /** Both default grids pass the grid check. */
  lemma DefaultGridsValid()
    ensures ValidGrid(Grid(192, 208, 8, 9)) && ValidGrid(Grid(192, 208, 8, 11))
  {
  }
}
