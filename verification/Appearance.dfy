/**
 The durable appearance registry: its normalizer, its seven operations, and the
 load, update, normalize, write cycle of the database.
 */
module Appearance {
  import opened Prelude

  const U64_MAX: nat := 0xFFFF_FFFF_FFFF_FFFF

  const BUILTIN: seq<string> := ["dark", "light", "midnight", "aurora", "bloom", "dream"]

  /** A theme; `body` stands for everything that is not its id. */
  datatype Plugin = Plugin(id: string, body: string)

  datatype Registry = Registry(
    initialized: bool, revision: nat, active: string, previous: Option<string>,
    plugins: seq<Plugin>, projected: bool, fileBacked: seq<string>)

  const DEFAULT: Registry := Registry(false, 0, "dark", None, [], false, [])

  datatype Error = InvalidPlugin | NotFound | NoPrevious

  /** Normalizing one theme: it may fail, it keeps the id, and it is idempotent. */
  type Normalizer = Plugin -> Option<Plugin>

  ghost predicate IsNormalizer(norm: Normalizer) {
    forall p :: norm(p).Some? ==> norm(p).value.id == p.id && norm(norm(p).value) == norm(p)
  }

  function Bump(revision: nat): nat { if revision < U64_MAX then revision + 1 else U64_MAX }

  function PluginIds(ps: seq<Plugin>): set<string> { set p | p in ps :: p.id }

  predicate Known(id: string, ps: seq<Plugin>) { id in BUILTIN || id in PluginIds(ps) }

  // ---- Replace or push -----------------------------------------------------------------

  function Put(ps: seq<Plugin>, p: Plugin): seq<Plugin> {
    if ps == [] then [p]
    else if ps[0].id == p.id then [p] + ps[1..]
    else [ps[0]] + Put(ps[1..], p)
  }

  function PutAll(ps: seq<Plugin>, qs: seq<Plugin>): seq<Plugin>
    decreases |qs|
  {
    if qs == [] then ps else Put(PutAll(ps, qs[..|qs| - 1]), qs[|qs| - 1])
  }

  /** Whether some step of putting `qs` into `ps` replaced a different theme or pushed one. */
  predicate PutChanges(ps: seq<Plugin>, qs: seq<Plugin>)
    decreases |qs|
  {
    qs != [] &&
    (PutChanges(ps, qs[..|qs| - 1])
     || qs[|qs| - 1] !in PutAll(ps, qs[..|qs| - 1]))
  }

  ghost predicate UniqueIds(ps: seq<Plugin>) {
    forall i, j :: 0 <= i < j < |ps| ==> ps[i].id != ps[j].id
  }

  /** No two themes in `qs` share an id and differ. */
  ghost predicate Consistent(qs: seq<Plugin>) {
    forall i, j :: 0 <= i < j < |qs| && qs[i].id == qs[j].id ==> qs[i] == qs[j]
  }

  lemma UniqueMember(ps: seq<Plugin>, a: Plugin, b: Plugin)
    requires UniqueIds(ps)
    ensures a in ps && b in ps && a.id == b.id ==> a == b
  {
  }

  lemma {:induction false} PutContents(ps: seq<Plugin>, p: Plugin, x: Plugin)
    requires UniqueIds(ps)
    ensures x in Put(ps, p) <==> x == p || (x in ps && x.id != p.id)
    ensures p in ps ==> Put(ps, p) == ps
  {
    if ps != [] {
      var tail := ps[1..];
      assert ps == [ps[0]] + tail;
      if ps[0].id == p.id {
        UniqueMember(ps, ps[0], x);
        UniqueMember(ps, ps[0], p);
        assert forall i :: 0 <= i < |tail| ==> tail[i].id != p.id;
      } else {
        PutContents(tail, p, x);
      }
    }
  }

  lemma {:induction false} PutUnique(ps: seq<Plugin>, p: Plugin)
    requires UniqueIds(ps)
    ensures UniqueIds(Put(ps, p))
  {
    if ps != [] && ps[0].id != p.id {
      var r := Put(ps[1..], p);
      PutUnique(ps[1..], p);
      forall i | 0 <= i < |r| ensures r[i].id != ps[0].id {
        PutContents(ps[1..], p, r[i]);
      }
    }
  }

  lemma PutMembers(ps: seq<Plugin>, p: Plugin)
    requires UniqueIds(ps)
    ensures UniqueIds(Put(ps, p)) && p in Put(ps, p)
    ensures forall x :: x in Put(ps, p) <==> x == p || (x in ps && x.id != p.id)
    ensures p in ps ==> Put(ps, p) == ps
  {
    PutUnique(ps, p);
    forall x ensures x in Put(ps, p) <==> x == p || (x in ps && x.id != p.id) { PutContents(ps, p, x); }
    PutContents(ps, p, p);
  }

  /** The last theme of `qs` with this id, or the default. */
  function LastOf(qs: seq<Plugin>, id: string, other: Option<Plugin>): Option<Plugin> {
    if qs == [] then other
    else if qs[|qs| - 1].id == id then Some(qs[|qs| - 1])
    else LastOf(qs[..|qs| - 1], id, other)
  }

  /** The theme with this id. */
  ghost function Find(ps: seq<Plugin>, id: string): Option<Plugin> {
    if exists p :: p in ps && p.id == id then
      var p :| p in ps && p.id == id;
      Some(p)
    else
      None
  }

  lemma FindUnique(ps: seq<Plugin>, p: Plugin)
    requires UniqueIds(ps) && p in ps
    ensures Find(ps, p.id) == Some(p)
  {
  }

  lemma FindAfterPut(ps: seq<Plugin>, p: Plugin, id: string)
    requires UniqueIds(ps)
    ensures Find(Put(ps, p), id) == if id == p.id then Some(p) else Find(ps, id)
  {
    PutMembers(ps, p);
    if id == p.id {
      FindUnique(Put(ps, p), p);
    } else if q :| q in ps && q.id == id {
      FindUnique(ps, q);
      FindUnique(Put(ps, p), q);
    }
  }

  /** Replace-or-push of a list leaves, under every id, the last theme given for it. */
  lemma {:induction false} PutAllFind(ps: seq<Plugin>, qs: seq<Plugin>, id: string)
    requires UniqueIds(ps)
    ensures UniqueIds(PutAll(ps, qs))
    ensures Find(PutAll(ps, qs), id) == LastOf(qs, id, Find(ps, id))
    decreases |qs|
  {
    if qs != [] {
      var front, last := qs[..|qs| - 1], qs[|qs| - 1];
      PutAllFind(ps, front, id);
      FindAfterPut(PutAll(ps, front), last, id);
      PutMembers(PutAll(ps, front), last);
    }
  }

  lemma {:induction false} LastOfSome(qs: seq<Plugin>, id: string, other: Option<Plugin>)
    ensures LastOf(qs, id, LastOf(qs, id, other)) == LastOf(qs, id, other)
    ensures (exists q :: q in qs && q.id == id) ==>
      LastOf(qs, id, other).Some? && LastOf(qs, id, other).value in qs && LastOf(qs, id, other).value.id == id
    ensures (forall q :: q in qs ==> q.id != id) ==> LastOf(qs, id, other) == other
  {
    if qs != [] {
      var front := qs[..|qs| - 1];
      LastOfSome(front, id, other);
      LastOfSkips(front, id, LastOf(front, id, other), other);
      assert qs == front + [qs[|qs| - 1]];
    }
  }

  /** What the default is does not matter once the id occurs. */
  lemma {:induction false} LastOfSkips(qs: seq<Plugin>, id: string, a: Option<Plugin>, b: Option<Plugin>)
    requires a == LastOf(qs, id, b)
    ensures LastOf(qs, id, a) == a
  {
    if qs != [] && qs[|qs| - 1].id != id {
      LastOfSkips(qs[..|qs| - 1], id, a, b);
    }
  }

  lemma PutIds(ps: seq<Plugin>, p: Plugin)
    requires UniqueIds(ps)
    ensures PluginIds(Put(ps, p)) == PluginIds(ps) + {p.id}
  {
    PutMembers(ps, p);
    forall id | id in PluginIds(ps) && id != p.id ensures id in PluginIds(Put(ps, p)) {
      var x :| x in ps && x.id == id;
      assert x in Put(ps, p);
    }
  }

  lemma {:induction false} PutAllIds(ps: seq<Plugin>, qs: seq<Plugin>)
    requires UniqueIds(ps)
    ensures PluginIds(PutAll(ps, qs)) == PluginIds(ps) + PluginIds(qs)
    decreases |qs|
  {
    if qs != [] {
      var front, last := qs[..|qs| - 1], qs[|qs| - 1];
      PutAllIds(ps, front);
      PutAllFind(ps, front, last.id);
      PutIds(PutAll(ps, front), last);
      assert qs == front + [last];
      assert PluginIds(qs) == PluginIds(front) + {last.id};
    }
  }

  /** Putting themes that are all there changes nothing. */
  lemma {:induction false} PutAllPresent(ps: seq<Plugin>, qs: seq<Plugin>)
    requires UniqueIds(ps) && (forall q :: q in qs ==> q in ps)
    ensures PutAll(ps, qs) == ps && !PutChanges(ps, qs)
    decreases |qs|
  {
    if qs != [] {
      PutAllPresent(ps, qs[..|qs| - 1]);
      PutMembers(ps, qs[|qs| - 1]);
    }
  }

  lemma {:induction false} NoChangeMeansPresent(ps: seq<Plugin>, qs: seq<Plugin>)
    requires UniqueIds(ps)
    ensures !PutChanges(ps, qs) <==> forall q :: q in qs ==> q in ps
    decreases |qs|
  {
    if qs != [] {
      var front, last := qs[..|qs| - 1], qs[|qs| - 1];
      assert qs == front + [last];
      NoChangeMeansPresent(ps, front);
      if forall q :: q in front ==> q in ps {
        PutAllPresent(ps, front);
      } else {
        var q :| q in front && q !in ps;
        assert q in qs;
      }
    }
  }

  /** After a consistent list was put, all of it is there. */
  lemma ConsistentPresent(ps: seq<Plugin>, qs: seq<Plugin>)
    requires UniqueIds(ps) && Consistent(qs)
    ensures forall q :: q in qs ==> q in PutAll(ps, qs)
  {
    forall q | q in qs ensures q in PutAll(ps, qs) {
      PutAllFind(ps, qs, q.id);
      LastOfSome(qs, q.id, Find(ps, q.id));
      var last := LastOf(qs, q.id, Find(ps, q.id)).value;
      assert last == q by {
        var i :| 0 <= i < |qs| && qs[i] == q;
        var j :| 0 <= j < |qs| && qs[j] == last;
      }
    }
  }

  /** A conflicting list always makes a change, whatever is there already. */
  lemma ConflictAlwaysChanges(ps: seq<Plugin>, qs: seq<Plugin>)
    requires UniqueIds(ps) && !Consistent(qs)
    ensures PutChanges(ps, qs)
  {
    NoChangeMeansPresent(ps, qs);
    var i, j :| 0 <= i < j < |qs| && qs[i].id == qs[j].id && qs[i] != qs[j];
    assert qs[i] in qs && qs[j] in qs;
    UniqueMember(ps, qs[i], qs[j]);
  }

  lemma {:induction false} PutAt(ps: seq<Plugin>, p: Plugin)
    requires UniqueIds(ps) && p.id in PluginIds(ps)
    ensures |Put(ps, p)| == |ps|
    ensures forall i :: 0 <= i < |ps| ==> Put(ps, p)[i] == if ps[i].id == p.id then p else ps[i]
  {
    assert ps == [ps[0]] + ps[1..];
    if ps[0].id != p.id {
      assert p.id in PluginIds(ps[1..]);
      PutAt(ps[1..], p);
    }
  }

  /** Where every id is known already, positions stay and contents become the last given. */
  lemma {:induction false} PutAllAt(ps: seq<Plugin>, qs: seq<Plugin>, i: nat)
    requires UniqueIds(ps) && PluginIds(qs) <= PluginIds(ps) && i < |ps|
    ensures |PutAll(ps, qs)| == |ps|
    ensures Some(PutAll(ps, qs)[i]) == LastOf(qs, ps[i].id, Some(ps[i]))
    ensures PutAll(ps, qs)[i].id == ps[i].id
    decreases |qs|
  {
    if qs != [] {
      var front, last := qs[..|qs| - 1], qs[|qs| - 1];
      assert last in qs && last.id in PluginIds(qs);
      assert forall q :: q in front ==> q in qs && q.id in PluginIds(qs);
      PutAllAt(ps, front, i);
      PutAllIds(ps, front);
      PutAllFind(ps, front, last.id);
      PutAt(PutAll(ps, front), last);
    }
  }

  /** Putting the same list twice is putting it once. */
  lemma PutAllTwice(ps: seq<Plugin>, qs: seq<Plugin>)
    requires UniqueIds(ps)
    ensures PutAll(PutAll(ps, qs), qs) == PutAll(ps, qs)
  {
    var x := PutAll(ps, qs);
    PutAllIds(ps, qs);
    PutAllFind(ps, qs, "");
    if qs != [] { assert qs[0].id in PluginIds(qs); }
    if x != [] { PutAllAt(x, qs, 0); }
    forall i | 0 <= i < |x| ensures |PutAll(x, qs)| == |x| && PutAll(x, qs)[i] == x[i] {
      var id := x[i].id;
      PutAllAt(x, qs, i);
      PutAllFind(ps, qs, id);
      FindUnique(x, x[i]);
      LastOfSkips(qs, id, Some(x[i]), Find(ps, id));
    }
  }

  // ---- File-backed ids -----------------------------------------------------------------

  /** `dedup`: drops an element equal to its predecessor. */
  function DedupAdjacent(s: seq<string>): seq<string> {
    if |s| < 2 then s
    else if s[0] == s[1] then DedupAdjacent(s[1..])
    else [s[0]] + DedupAdjacent(s[1..])
  }

  ghost predicate Ascending(s: seq<string>) {
    forall i, j :: 0 <= i < j < |s| ==> LexLe(s[i], s[j]) && s[i] != s[j]
  }

  lemma {:induction false} DedupMembers(s: seq<string>)
    ensures forall x :: x in DedupAdjacent(s) <==> x in s
    ensures s != [] ==> DedupAdjacent(s) != [] && DedupAdjacent(s)[0] == s[0]
  {
    if |s| >= 2 {
      DedupMembers(s[1..]);
      assert s == [s[0]] + s[1..];
    }
  }

  lemma {:induction false} DedupAscending(s: seq<string>)
    requires SortedBy(s, LexLe)
    ensures Ascending(DedupAdjacent(s))
  {
    if |s| >= 2 {
      DedupAscending(s[1..]);
      DedupMembers(s[1..]);
      LexOrder();
      var r := DedupAdjacent(s[1..]);
      forall j | 0 <= j < |r| && s[0] != s[1] ensures LexLe(s[0], r[j]) && s[0] != r[j] {
        assert r[j] in s[1..];
        assert LexLe(s[0], s[1]);
        assert LexLe(s[1], r[j]) by {
          var k :| 0 <= k < |s[1..]| && s[1..][k] == r[j];
          assert s[k + 1] == r[j];
        }
      }
    }
  }

  lemma {:induction false} DedupFixpoint(s: seq<string>)
    requires Ascending(s)
    ensures DedupAdjacent(s) == s
  {
    if |s| >= 2 { DedupFixpoint(s[1..]); }
  }

  function AmongIds(ps: seq<Plugin>): string -> bool {
    (id: string) => id in PluginIds(ps)
  }

  /** `retain`, `sort`, `dedup`. */
  function CleanIds(ids: seq<string>, ps: seq<Plugin>): seq<string> {
    DedupAdjacent(SortBy(Filter(ids, AmongIds(ps)), LexLe))
  }

  lemma CleanIdsMeaning(ids: seq<string>, ps: seq<Plugin>)
    ensures Ascending(CleanIds(ids, ps))
    ensures forall id :: id in CleanIds(ids, ps) <==> id in ids && id in PluginIds(ps)
  {
    LexOrder();
    var kept := Filter(ids, AmongIds(ps));
    SortBySorts(kept, LexLe);
    DedupAscending(SortBy(kept, LexLe));
    DedupMembers(SortBy(kept, LexLe));
    forall id ensures id in CleanIds(ids, ps) <==> id in ids && id in PluginIds(ps) {
      assert AmongIds(ps)(id) <==> id in PluginIds(ps);
    }
  }

  lemma {:induction false} FilterAll(ids: seq<string>, ps: seq<Plugin>)
    requires forall id :: id in ids ==> id in PluginIds(ps)
    ensures Filter(ids, AmongIds(ps)) == ids
  {
    if ids != [] {
      assert ids == [ids[0]] + ids[1..];
      FilterAll(ids[1..], ps);
    }
  }

  lemma CleanIdsFixpoint(ids: seq<string>, ps: seq<Plugin>)
    requires Ascending(ids) && (forall id :: id in ids ==> id in PluginIds(ps))
    ensures CleanIds(ids, ps) == ids
  {
    LexOrder();
    FilterAll(ids, ps);
    SortBySorted(ids, LexLe);
    DedupFixpoint(ids);
  }

  // ---- The normalizer -----------------------------------------------------------------------

  function NormAll(ps: seq<Plugin>, norm: Normalizer): Option<seq<Plugin>> {
    if ps == [] then Some([]) else
    var front := NormAll(ps[..|ps| - 1], norm);
    var last := norm(ps[|ps| - 1]);
    if front.None? || last.None? then None else Some(front.value + [last.value])
  }

  function Normalize(r: Registry, norm: Normalizer): Result<Registry, Error> {
    var ps := NormAll(r.plugins, norm);
    if ps.None? then Err(InvalidPlugin) else
    var plugins := PutAll([], ps.value);
    Ok(r.(plugins := plugins,
          fileBacked := CleanIds(r.fileBacked, plugins),
          active := if Known(r.active, plugins) then r.active else "dark",
          previous := if r.previous.Some? && Known(r.previous.value, plugins) then r.previous else None))
  }

  /** What every stored registry keeps. */
  ghost predicate Inv(r: Registry, norm: Normalizer) {
    && Known(r.active, r.plugins)
    && (r.previous.Some? ==> Known(r.previous.value, r.plugins))
    && UniqueIds(r.plugins)
    && (forall p :: p in r.plugins ==> norm(p) == Some(p))
    && Ascending(r.fileBacked)
    && (forall id :: id in r.fileBacked ==> id in PluginIds(r.plugins))
    && r.revision <= U64_MAX
  }

  lemma {:induction false} NormAllMeaning(ps: seq<Plugin>, norm: Normalizer)
    ensures NormAll(ps, norm).Some? <==> forall i :: 0 <= i < |ps| ==> norm(ps[i]).Some?
    ensures NormAll(ps, norm).Some? ==>
      |NormAll(ps, norm).value| == |ps|
      && forall i :: 0 <= i < |ps| ==> norm(ps[i]) == Some(NormAll(ps, norm).value[i])
  {
    if ps != [] { NormAllMeaning(ps[..|ps| - 1], norm); }
  }

  lemma NormAllFixed(ps: seq<Plugin>, norm: Normalizer)
    requires forall p :: p in ps ==> norm(p) == Some(p)
    ensures NormAll(ps, norm) == Some(ps)
  {
    NormAllMeaning(ps, norm);
    assert forall i :: 0 <= i < |ps| ==> ps[i] in ps;
    assert NormAll(ps, norm).value == ps;
  }

  /** The themes that normalizing returns are normalized, and the given ids are all there. */
  lemma NormAllNormal(ps: seq<Plugin>, norm: Normalizer)
    requires IsNormalizer(norm) && NormAll(ps, norm).Some?
    ensures forall q :: q in NormAll(ps, norm).value ==> norm(q) == Some(q)
    ensures PluginIds(NormAll(ps, norm).value) == PluginIds(ps)
  {
    NormAllMeaning(ps, norm);
    var qs := NormAll(ps, norm).value;
    forall id | id in PluginIds(ps) ensures id in PluginIds(qs) {
      var i :| 0 <= i < |ps| && ps[i].id == id;
      assert qs[i] in qs && qs[i].id == id;
    }
  }

  lemma PutAllNormal(ps: seq<Plugin>, qs: seq<Plugin>, norm: Normalizer)
    requires UniqueIds(ps)
    requires (forall p :: p in ps ==> norm(p) == Some(p)) && (forall q :: q in qs ==> norm(q) == Some(q))
    ensures UniqueIds(PutAll(ps, qs))
    ensures forall p :: p in PutAll(ps, qs) ==> norm(p) == Some(p)
  {
    PutAllFind(ps, qs, "");
    forall p | p in PutAll(ps, qs) ensures norm(p) == Some(p) {
      PutAllFind(ps, qs, p.id);
      FindUnique(PutAll(ps, qs), p);
      LastOfSome(qs, p.id, Find(ps, p.id));
    }
  }

  lemma {:induction false} PutAllFromEmpty(ps: seq<Plugin>)
    requires UniqueIds(ps)
    ensures PutAll([], ps) == ps
  {
    if ps != [] {
      var front, last := ps[..|ps| - 1], ps[|ps| - 1];
      PutAllFromEmpty(front);
      PutNew(front, last);
      assert ps == front + [last];
    }
  }

  lemma {:induction false} PutNew(ps: seq<Plugin>, p: Plugin)
    requires forall i :: 0 <= i < |ps| ==> ps[i].id != p.id
    ensures Put(ps, p) == ps + [p]
  {
    if ps != [] { PutNew(ps[1..], p); }
  }

  /** Normalizing establishes the invariant. */
  lemma NormalizeEstablishes(r: Registry, norm: Normalizer)
    requires IsNormalizer(norm) && r.revision <= U64_MAX
    ensures Normalize(r, norm).Ok? <==> forall p :: p in r.plugins ==> norm(p).Some?
    ensures Normalize(r, norm).Ok? ==> Inv(Normalize(r, norm).value, norm)
  {
    NormAllMeaning(r.plugins, norm);
    if Normalize(r, norm).Ok? {
      var qs := NormAll(r.plugins, norm).value;
      NormAllNormal(r.plugins, norm);
      PutAllNormal([], qs, norm);
      CleanIdsMeaning(r.fileBacked, PutAll([], qs));
    }
  }

  /** A registry that keeps the invariant is its own normal form. */
  lemma NormalizeFixed(r: Registry, norm: Normalizer)
    requires Inv(r, norm)
    ensures Normalize(r, norm) == Ok(r)
  {
    NormAllFixed(r.plugins, norm);
    PutAllFromEmpty(r.plugins);
    CleanIdsFixpoint(r.fileBacked, r.plugins);
  }

  // ---- The operations -----------------------------------------------------------------------

  datatype Op =
    | Hydrate(plugins: seq<Plugin>, active: string)
    | Reconcile(files: seq<Plugin>, preserved: set<string>)
    | CommitProjection(ids: seq<string>)
    | Apply(plugin: Plugin)
    | Activate(id: string)
    | Rollback
    | Remove(id: string)

  function Without(ps: seq<Plugin>, ids: set<string>): (r: seq<Plugin>)
    ensures forall p :: p in r <==> p in ps && p.id !in ids
  {
    if ps == [] then [] else
    assert ps == [ps[0]] + ps[1..];
    (if ps[0].id in ids then [] else [ps[0]]) + Without(ps[1..], ids)
  }

  /** The theme to fall back to when the active one goes away. */
  function Fallback(previous: Option<string>, ps: seq<Plugin>): string {
    if previous.Some? && Known(previous.value, ps) then previous.value else "dark"
  }

  /** Drops themes, and with them the active and previous theme if they were dropped. */
  function Drop(r: Registry, ids: set<string>): Registry {
    var plugins := Without(r.plugins, ids);
    r.(plugins := plugins,
       active := if r.active in ids then Fallback(r.previous, plugins) else r.active,
       previous := if r.previous.Some? && r.previous.value in ids then None else r.previous)
  }

  /** Tracked files that are gone and not protected. */
  function Vanished(r: Registry, files: seq<Plugin>, preserved: set<string>): set<string> {
    if !r.projected then {} else
    set id | id in r.fileBacked && id !in PluginIds(files) && id !in preserved
  }

  function ReconcileWith(r: Registry, files: seq<Plugin>, preserved: set<string>): Registry {
    var gone := Vanished(r, files, preserved);
    var r1 := if gone == {} then r else Drop(r, gone);
    var changed := gone != {} || PutChanges(r1.plugins, files);
    r1.(plugins := PutAll(r1.plugins, files), revision := if changed then Bump(r.revision) else r.revision)
  }

  function Switch(r: Registry, id: string): Registry {
    if r.active == id then r else r.(previous := Some(r.active), active := id)
  }

  /** The registry after a theme was applied. */
  function Applied(r: Registry, q: Plugin): Registry {
    Switch(r, q.id).(initialized := true, revision := Bump(r.revision), plugins := Put(r.plugins, q))
  }

  function Run(r: Registry, op: Op, norm: Normalizer): Result<Registry, Error> {
    match op
    case Hydrate(plugins, active) =>
      if r.initialized then Normalize(r, norm)
      else Normalize(r.(initialized := true, plugins := plugins, active := active,
                        revision := Bump(r.revision)), norm)
    case Reconcile(files, preserved) =>
      var normal := NormAll(files, norm);
      if normal.None? then Err(InvalidPlugin)
      else Normalize(ReconcileWith(r, normal.value, preserved), norm)
    case CommitProjection(ids) =>
      Normalize(r.(fileBacked := Filter(ids, AmongIds(r.plugins)), projected := true), norm)
    case Apply(plugin) =>
      var normal := norm(plugin);
      if normal.None? then Err(InvalidPlugin)
      else Normalize(Applied(r, normal.value), norm)
    case Activate(id) =>
      if !Known(id, r.plugins) then Err(NotFound)
      else Ok(Switch(r, id).(initialized := true,
                             revision := if r.active == id then r.revision else Bump(r.revision)))
    case Rollback =>
      if r.previous.Some? && Known(r.previous.value, r.plugins)
      then Ok(r.(previous := Some(r.active), active := r.previous.value, revision := Bump(r.revision)))
      else Err(NoPrevious)
    case Remove(id) =>
      if id !in PluginIds(r.plugins) then Err(NotFound)
      else Ok(Drop(r, {id}).(revision := Bump(r.revision)))
  }

  /** One database cycle: load and normalize, update, normalize, write. */
  function Mutate(stored: Registry, op: Op, norm: Normalizer): Result<Registry, Error> {
    var loaded :- Normalize(stored, norm);
    var next :- Run(loaded, op, norm);
    Normalize(next, norm)
  }

  /** When an operation is refused, from what the caller can see. */
  predicate Refused(r: Registry, op: Op, norm: Normalizer) {
    match op
    case Hydrate(plugins, _) => !r.initialized && exists i :: 0 <= i < |plugins| && norm(plugins[i]).None?
    case Reconcile(files, _) => exists i :: 0 <= i < |files| && norm(files[i]).None?
    case CommitProjection(_) => false
    case Apply(plugin) => norm(plugin).None?
    case Activate(id) => !Known(id, r.plugins)
    case Rollback => r.previous.None?
    case Remove(id) => id !in PluginIds(r.plugins)
  }

  lemma WithoutUnique(ps: seq<Plugin>, ids: set<string>)
    requires UniqueIds(ps)
    ensures UniqueIds(Without(ps, ids))
  {
    if ps != [] {
      WithoutUnique(ps[1..], ids);
      var r := Without(ps[1..], ids);
      forall i | 0 <= i < |r| ensures r[i].id != ps[0].id {
        assert r[i] in ps[1..];
      }
    }
  }

  /** Dropping and merging keep the themes normalized and their ids unique. */
  lemma ReconcilePlugins(r: Registry, files: seq<Plugin>, preserved: set<string>, norm: Normalizer)
    requires Inv(r, norm) && (forall q :: q in files ==> norm(q) == Some(q))
    ensures var ps := ReconcileWith(r, files, preserved).plugins;
            UniqueIds(ps) && forall p :: p in ps ==> norm(p) == Some(p)
  {
    var gone := Vanished(r, files, preserved);
    var r1 := if gone == {} then r else Drop(r, gone);
    WithoutUnique(r.plugins, gone);
    PutAllNormal(r1.plugins, files, norm);
  }

  /** Normalizing a registry whose themes are normalized and unique leaves the themes alone. */
  lemma NormalizeKeepsPlugins(r: Registry, norm: Normalizer)
    requires UniqueIds(r.plugins) && (forall p :: p in r.plugins ==> norm(p) == Some(p))
    ensures Normalize(r, norm).Ok? && Normalize(r, norm).value.plugins == r.plugins
  {
    NormAllFixed(r.plugins, norm);
    PutAllFromEmpty(r.plugins);
  }

  lemma RunRefused(r: Registry, op: Op, norm: Normalizer)
    requires IsNormalizer(norm) && Inv(r, norm)
    ensures Run(r, op, norm).Err? <==> Refused(r, op, norm)
  {
    match op
    case Hydrate(plugins, _) =>
      NormAllMeaning(plugins, norm);
      NormalizeFixed(r, norm);
    case Reconcile(files, preserved) =>
      NormAllMeaning(files, norm);
      if NormAll(files, norm).Some? {
        NormAllNormal(files, norm);
        ReconcilePlugins(r, NormAll(files, norm).value, preserved, norm);
        NormalizeKeepsPlugins(ReconcileWith(r, NormAll(files, norm).value, preserved), norm);
      }
    case CommitProjection(ids) =>
      NormalizeKeepsPlugins(r.(fileBacked := Filter(ids, AmongIds(r.plugins)), projected := true), norm);
    case Apply(plugin) =>
      if norm(plugin).Some? {
        PutMembers(r.plugins, norm(plugin).value);
        NormalizeKeepsPlugins(Applied(r, norm(plugin).value), norm);
      }
    case Activate(_) =>
    case Rollback =>
    case Remove(_) =>
  }

  lemma RunRevision(r: Registry, op: Op, norm: Normalizer)
    requires Run(r, op, norm).Ok?
    ensures Run(r, op, norm).value.revision == r.revision || Run(r, op, norm).value.revision == Bump(r.revision)
  {
  }

  /**
   One cycle on a registry that keeps the invariant: it is refused exactly when the
   operation is, keeps the invariant otherwise, and raises the revision by at most one.
   */
  lemma MutateInv(r: Registry, op: Op, norm: Normalizer)
    requires IsNormalizer(norm) && Inv(r, norm)
    ensures Mutate(r, op, norm).Err? <==> Refused(r, op, norm)
    ensures Mutate(r, op, norm).Ok? ==>
      && Inv(Mutate(r, op, norm).value, norm)
      && r.revision <= Mutate(r, op, norm).value.revision <= r.revision + 1
  {
    NormalizeFixed(r, norm);
    RunRefused(r, op, norm);
    var next := Run(r, op, norm);
    MutateUnfold(r, op, norm, next);
    if next.Ok? {
      RunRevision(r, op, norm);
      RunThemes(r, op, norm);
      WriteBack(r.revision, next.value, norm);
    }
  }

  lemma MutateUnfold(r: Registry, op: Op, norm: Normalizer, next: Result<Registry, Error>)
    requires Normalize(r, norm) == Ok(r) && next == Run(r, op, norm)
    ensures Mutate(r, op, norm) == if next.Ok? then Normalize(next.value, norm) else next
  {
  }

  lemma WriteBack(revision: nat, next: Registry, norm: Normalizer)
    requires IsNormalizer(norm) && revision <= U64_MAX
    requires next.revision == revision || next.revision == Bump(revision)
    requires forall p :: p in next.plugins ==> norm(p) == Some(p)
    ensures Normalize(next, norm).Ok?
    ensures Inv(Normalize(next, norm).value, norm)
    ensures revision <= Normalize(next, norm).value.revision <= revision + 1
  {
    NormalizeEstablishes(next, norm);
  }

  lemma RunThemes(r: Registry, op: Op, norm: Normalizer)
    requires IsNormalizer(norm) && Inv(r, norm) && Run(r, op, norm).Ok?
    ensures forall p :: p in Run(r, op, norm).value.plugins ==> norm(p) == Some(p)
  {
    match op
    case Hydrate(plugins, active) =>
      NormalizeEstablishes(r, norm);
      NormalizeEstablishes(r.(initialized := true, plugins := plugins, active := active,
                              revision := Bump(r.revision)), norm);
    case Reconcile(files, preserved) =>
      NormalizeEstablishes(ReconcileWith(r, NormAll(files, norm).value, preserved), norm);
    case CommitProjection(ids) =>
      NormalizeEstablishes(r.(fileBacked := Filter(ids, AmongIds(r.plugins)), projected := true), norm);
    case Apply(plugin) =>
      NormalizeEstablishes(Applied(r, norm(plugin).value), norm);
    case Activate(_) =>
    case Rollback =>
    case Remove(_) =>
  }

  // ---- Whole histories --------------------------------------------------------------------

  /** A sequence of cycles, where a refused one leaves the stored registry alone. */
  function History(r: Registry, ops: seq<Op>, norm: Normalizer): Registry
    decreases |ops|
  {
    if ops == [] then r else
    var before := History(r, ops[..|ops| - 1], norm);
    var next := Mutate(before, ops[|ops| - 1], norm);
    if next.Ok? then next.value else before
  }

  lemma {:induction false} HistoryInv(r: Registry, ops: seq<Op>, norm: Normalizer)
    requires IsNormalizer(norm) && Inv(r, norm)
    ensures Inv(History(r, ops, norm), norm)
    ensures r.revision <= History(r, ops, norm).revision <= r.revision + |ops|
    decreases |ops|
  {
    if ops != [] {
      HistoryInv(r, ops[..|ops| - 1], norm);
      MutateInv(History(r, ops[..|ops| - 1], norm), ops[|ops| - 1], norm);
    }
  }

  lemma DefaultInv(norm: Normalizer)
    ensures Inv(DEFAULT, norm)
  {
    assert "dark" == BUILTIN[0];
  }

  // ---- What single operations promise ----------------------------------------------------------

  /** Rolling back is its own inverse, up to the revision. */
  lemma RollbackTwice(r: Registry, norm: Normalizer)
    requires Inv(r, norm) && r.previous.Some?
    ensures var once := Mutate(r, Rollback, norm);
            && once == Ok(r.(active := r.previous.value, previous := Some(r.active), revision := Bump(r.revision)))
            && Mutate(once.value, Rollback, norm) == Ok(r.(revision := Bump(Bump(r.revision))))
  {
    RollbackOnce(r, norm);
    var r1 := r.(active := r.previous.value, previous := Some(r.active), revision := Bump(r.revision));
    RollbackOnce(r1, norm);
  }

  lemma RollbackOnce(r: Registry, norm: Normalizer)
    requires Inv(r, norm) && r.previous.Some?
    ensures var r1 := r.(active := r.previous.value, previous := Some(r.active), revision := Bump(r.revision));
            Mutate(r, Rollback, norm) == Ok(r1) && Inv(r1, norm)
  {
    var r1 := r.(active := r.previous.value, previous := Some(r.active), revision := Bump(r.revision));
    NormalizeFixed(r, norm);
    assert Inv(r1, norm);
    NormalizeFixed(r1, norm);
    RunRollback(r, norm);
    MutateUnfold(r, Rollback, norm, Ok(r1));
  }

  lemma RunRollback(r: Registry, norm: Normalizer)
    requires r.previous.Some? && Known(r.previous.value, r.plugins)
    ensures Run(r, Rollback, norm)
         == Ok(r.(active := r.previous.value, previous := Some(r.active), revision := Bump(r.revision)))
  {
  }

  /** What dropping a theme and normalizing leaves. */
  lemma DropAndNormalize(r: Registry, id: string, norm: Normalizer)
    requires Inv(r, norm)
    ensures var dropped := Normalize(Drop(r, {id}), norm);
            && dropped.Ok?
            && (forall p :: p in dropped.value.plugins <==> p in r.plugins && p.id != id)
            && (forall f :: f in dropped.value.fileBacked <==> f in r.fileBacked && f != id)
  {
    var next := Drop(r, {id});
    WithoutUnique(r.plugins, {id});
    NormalizeKeepsPlugins(next, norm);
    CleanIdsMeaning(r.fileBacked, next.plugins);
    forall f | f in r.fileBacked && f != id ensures f in PluginIds(next.plugins) {
      var p :| p in r.plugins && p.id == f;
      assert p in next.plugins;
    }
  }

  lemma DropThemes(r: Registry, id: string, norm: Normalizer)
    requires Inv(r, norm)
    ensures var dropped := Normalize(Drop(r, {id}), norm);
            && dropped.Ok?
            && (id !in BUILTIN ==> dropped.value.active != id && dropped.value.previous != Some(id))
            && (r.active != id ==> dropped.value.active == r.active)
  {
    var next := Drop(r, {id});
    WithoutUnique(r.plugins, {id});
    NormalizeKeepsPlugins(next, norm);
    assert "dark" == BUILTIN[0];
    if r.active != id && r.active !in BUILTIN {
      var p :| p in r.plugins && p.id == r.active;
      assert p in next.plugins;
    }
  }

  /** Removing a custom theme leaves no trace of its id, except as a built-in. */
  lemma RemoveLeavesNoTrace(r: Registry, id: string, norm: Normalizer)
    requires Inv(r, norm) && id in PluginIds(r.plugins)
    ensures var removed := Mutate(r, Remove(id), norm);
            && removed.Ok?
            && (forall p :: p in removed.value.plugins <==> p in r.plugins && p.id != id)
            && (forall f :: f in removed.value.fileBacked <==> f in r.fileBacked && f != id)
            && (id !in BUILTIN ==> removed.value.active != id && removed.value.previous != Some(id))
            && (r.active != id ==> removed.value.active == r.active)
            && removed.value.revision == Bump(r.revision)
  {
    NormalizeFixed(r, norm);
    DropAndNormalize(r, id, norm);
    DropThemes(r, id, norm);
    RemoveCycle(r, id, norm);
  }

  /** The theme that takes over when a custom theme is removed. */
  lemma RemoveChoosesActive(r: Registry, id: string, norm: Normalizer)
    requires Inv(r, norm) && id in PluginIds(r.plugins) && id !in BUILTIN
    ensures var removed := Mutate(r, Remove(id), norm);
            && removed.Ok?
            && removed.value.active == (if r.active != id then r.active
                                        else if r.previous.Some? && r.previous.value != id then r.previous.value
                                        else "dark")
            && removed.value.previous == if r.previous == Some(id) then None else r.previous
  {
    NormalizeFixed(r, norm);
    DropAndNormalize(r, id, norm);
    DropChooses(r, id, norm);
    RemoveCycle(r, id, norm);
  }

  lemma StillKnown(r: Registry, id: string, other: string)
    requires Known(other, r.plugins) && id !in BUILTIN
    ensures Known(other, Without(r.plugins, {id})) <==> other != id
  {
    if other !in BUILTIN {
      var p :| p in r.plugins && p.id == other;
      assert p in Without(r.plugins, {id}) <==> other != id;
    }
  }

  lemma DropChooses(r: Registry, id: string, norm: Normalizer)
    requires Inv(r, norm) && id !in BUILTIN
    ensures var dropped := Normalize(Drop(r, {id}), norm);
            && dropped.Ok?
            && dropped.value.active == (if r.active != id then r.active
                                        else if r.previous.Some? && r.previous.value != id then r.previous.value
                                        else "dark")
            && dropped.value.previous == if r.previous == Some(id) then None else r.previous
  {
    var next := Drop(r, {id});
    WithoutUnique(r.plugins, {id});
    NormalizeKeepsPlugins(next, norm);
    assert "dark" == BUILTIN[0];
    StillKnown(r, id, r.active);
    if r.previous.Some? { StillKnown(r, id, r.previous.value); }
  }

  lemma RunHydrate(r: Registry, plugins: seq<Plugin>, active: string, norm: Normalizer)
    ensures Run(r, Hydrate(plugins, active), norm)
         == Normalize(if r.initialized then r
                      else r.(initialized := true, plugins := plugins, active := active, revision := Bump(r.revision)), norm)
  {
  }

  /** The first hydration takes the themes and the active one over; later ones change nothing. */
  lemma HydrateOutcome(r: Registry, plugins: seq<Plugin>, active: string, norm: Normalizer)
    requires IsNormalizer(norm) && Inv(r, norm)
    requires UniqueIds(plugins) && (forall p :: p in plugins ==> norm(p) == Some(p)) && Known(active, plugins)
    ensures var next := Mutate(r, Hydrate(plugins, active), norm);
            && next.Ok?
            && (r.initialized ==> next.value == r)
            && (!r.initialized ==>
                  && next.value.initialized && next.value.plugins == plugins && next.value.active == active
                  && next.value.revision == Bump(r.revision))
  {
    NormalizeFixed(r, norm);
    RunHydrate(r, plugins, active, norm);
    MutateUnfold(r, Hydrate(plugins, active), norm, Run(r, Hydrate(plugins, active), norm));
    if !r.initialized {
      var next := r.(initialized := true, plugins := plugins, active := active, revision := Bump(r.revision));
      NormalizeKeepsPlugins(next, norm);
      NormalizeEstablishes(next, norm);
      NormalizeFixed(Normalize(next, norm).value, norm);
    }
  }

  lemma RunProjection(r: Registry, ids: seq<string>, norm: Normalizer)
    ensures Run(r, CommitProjection(ids), norm)
         == Normalize(r.(fileBacked := Filter(ids, AmongIds(r.plugins)), projected := true), norm)
  {
  }

  /** A committed projection tracks exactly those of its ids that have a theme. */
  lemma ProjectionOutcome(r: Registry, ids: seq<string>, norm: Normalizer)
    requires IsNormalizer(norm) && Inv(r, norm)
    ensures var next := Mutate(r, CommitProjection(ids), norm);
            && next.Ok? && next.value.projected && next.value.plugins == r.plugins
            && (forall id :: id in next.value.fileBacked <==> id in ids && id in PluginIds(r.plugins))
  {
    var next := r.(fileBacked := Filter(ids, AmongIds(r.plugins)), projected := true);
    NormalizeFixed(r, norm);
    RunProjection(r, ids, norm);
    NormalizeKeepsPlugins(next, norm);
    NormalizeEstablishes(next, norm);
    CleanIdsMeaning(next.fileBacked, r.plugins);
    NormalizeFixed(Normalize(next, norm).value, norm);
    MutateUnfold(r, CommitProjection(ids), norm, Run(r, CommitProjection(ids), norm));
  }

  lemma SwitchedInv(r: Registry, id: string, revision: nat, norm: Normalizer)
    requires Inv(r, norm) && Known(id, r.plugins) && revision <= U64_MAX
    ensures Inv(Switch(r, id).(initialized := true, revision := revision), norm)
  {
  }

  lemma RunActivate(r: Registry, id: string, norm: Normalizer)
    requires Known(id, r.plugins)
    ensures Run(r, Activate(id), norm)
         == Ok(Switch(r, id).(initialized := true, revision := if r.active == id then r.revision else Bump(r.revision)))
  {
  }

  /** Activating a known theme changes what is active and remembers the old one; themes stay, and so does the
      revision exactly when the theme was active already or no higher revision exists. */
  lemma ActivateOutcome(r: Registry, id: string, norm: Normalizer)
    requires Inv(r, norm) && Known(id, r.plugins)
    ensures var next := Mutate(r, Activate(id), norm);
            && next.Ok? && next.value.active == id && next.value.plugins == r.plugins
            && next.value.previous == (if r.active == id then r.previous else Some(r.active))
            && next.value.fileBacked == r.fileBacked && next.value.initialized
            && (next.value.revision == r.revision <==> r.active == id || r.revision == U64_MAX)
  {
    var revision := if r.active == id then r.revision else Bump(r.revision);
    var next := Switch(r, id).(initialized := true, revision := revision);
    NormalizeFixed(r, norm);
    SwitchedInv(r, id, revision, norm);
    NormalizeFixed(next, norm);
    RunActivate(r, id, norm);
    MutateUnfold(r, Activate(id), norm, Ok(next));
  }

  lemma NormalizeRevision(r: Registry, revision: nat, norm: Normalizer)
    requires Normalize(r, norm).Ok?
    ensures Normalize(r.(revision := revision), norm) == Ok(Normalize(r, norm).value.(revision := revision))
  {
  }

  lemma RunRemove(r: Registry, id: string, norm: Normalizer)
    requires id in PluginIds(r.plugins)
    ensures Run(r, Remove(id), norm) == Ok(Drop(r, {id}).(revision := Bump(r.revision)))
  {
  }

  lemma RemoveCycle(r: Registry, id: string, norm: Normalizer)
    requires Normalize(r, norm) == Ok(r) && id in PluginIds(r.plugins) && Normalize(Drop(r, {id}), norm).Ok?
    ensures Mutate(r, Remove(id), norm)
         == Ok(Normalize(Drop(r, {id}), norm).value.(revision := Bump(r.revision)))
  {
    var dropped := Drop(r, {id});
    NormalizeRevision(dropped, Bump(r.revision), norm);
    RunRemove(r, id, norm);
    MutateUnfold(r, Remove(id), norm, Ok(dropped.(revision := Bump(r.revision))));
  }

  lemma AppliedInv(r: Registry, q: Plugin, norm: Normalizer)
    requires Inv(r, norm) && norm(q) == Some(q)
    ensures Inv(Applied(r, q), norm)
  {
    PutMembers(r.plugins, q);
    PutIds(r.plugins, q);
  }

  lemma RunApply(r: Registry, plugin: Plugin, norm: Normalizer)
    requires norm(plugin).Some?
    ensures Run(r, Apply(plugin), norm) == Normalize(Applied(r, norm(plugin).value), norm)
  {
  }

  /** Applying a theme installs it, makes it active and remembers what was active before. */
  lemma ApplyInstalls(r: Registry, plugin: Plugin, norm: Normalizer)
    requires IsNormalizer(norm) && Inv(r, norm) && norm(plugin).Some?
    ensures var q := norm(plugin).value;
            && Mutate(r, Apply(plugin), norm) == Ok(Applied(r, q))
            && q in Applied(r, q).plugins && Applied(r, q).active == plugin.id
            && Applied(r, q).previous == if r.active == plugin.id then r.previous else Some(r.active)
  {
    var q := norm(plugin).value;
    AppliedInv(r, q, norm);
    NormalizeFixed(r, norm);
    NormalizeFixed(Applied(r, q), norm);
    PutContents(r.plugins, q, q);
    RunApply(r, plugin, norm);
    MutateUnfold(r, Apply(plugin), norm, Ok(Applied(r, q)));
  }

  // ---- Reconciling with files twice --------------------------------------------------------------

  /** After one reconciliation no tracked id is missing without protection. */
  lemma NothingVanishesTwice(r: Registry, files: seq<Plugin>, preserved: set<string>, norm: Normalizer)
    requires Inv(r, norm) && (forall q :: q in files ==> norm(q) == Some(q))
    requires Normalize(ReconcileWith(r, files, preserved), norm).Ok?
    ensures Vanished(Normalize(ReconcileWith(r, files, preserved), norm).value, files, preserved) == {}
  {
    var gone := Vanished(r, files, preserved);
    var x := if gone == {} then r.plugins else Without(r.plugins, gone);
    var mid := ReconcileWith(r, files, preserved);
    var r1 := Normalize(mid, norm).value;
    ReconcilePlugins(r, files, preserved, norm);
    NormalizeKeepsPlugins(mid, norm);
    WithoutUnique(r.plugins, gone);
    PutAllIds(x, files);
    CleanIdsMeaning(r.fileBacked, r1.plugins);
    assert forall id :: id in gone ==> id !in PluginIds(x);
    forall id | id in r1.fileBacked && r.projected ensures id in PluginIds(files) || id in preserved {
      assert id in PluginIds(x) + PluginIds(files);
    }
  }

  /** A reconciliation keeps a theme exactly when a file declares it, or it was not tracked, or it is protected. */
  lemma ReconcileKeeps(r: Registry, files: seq<Plugin>, preserved: set<string>, norm: Normalizer, id: string)
    requires IsNormalizer(norm) && Inv(r, norm) && NormAll(files, norm).Some?
    ensures var next := Mutate(r, Reconcile(files, preserved), norm);
            && next.Ok?
            && (id in PluginIds(next.value.plugins) <==>
                  || id in PluginIds(files)
                  || (id in PluginIds(r.plugins) && (!r.projected || id !in r.fileBacked || id in preserved)))
  {
    var fs := NormAll(files, norm).value;
    NormAllNormal(files, norm);
    SecondReconcile(r, fs, preserved, norm);
    ReconcileCycle(r, Normalize(ReconcileWith(r, fs, preserved), norm).value, files, preserved, norm);
    ReconciledIds(r, fs, preserved, norm);
  }

  lemma ReconciledIds(r: Registry, files: seq<Plugin>, preserved: set<string>, norm: Normalizer)
    requires Inv(r, norm) && (forall q :: q in files ==> norm(q) == Some(q))
    requires Normalize(ReconcileWith(r, files, preserved), norm).Ok?
    ensures PluginIds(Normalize(ReconcileWith(r, files, preserved), norm).value.plugins)
         == PluginIds(files) + (PluginIds(r.plugins) - Vanished(r, files, preserved))
  {
    ReconcilePlugins(r, files, preserved, norm);
    NormalizeKeepsPlugins(ReconcileWith(r, files, preserved), norm);
    MergedIds(r.plugins, files, Vanished(r, files, preserved));
  }

  lemma MergedIds(ps: seq<Plugin>, files: seq<Plugin>, gone: set<string>)
    requires UniqueIds(ps)
    ensures PluginIds(PutAll(if gone == {} then ps else Without(ps, gone), files)) == PluginIds(files) + (PluginIds(ps) - gone)
  {
    var x := if gone == {} then ps else Without(ps, gone);
    WithoutUnique(ps, gone);
    WithoutIds(ps, gone);
    PutAllIds(x, files);
  }

  lemma WithoutIds(ps: seq<Plugin>, ids: set<string>)
    ensures PluginIds(Without(ps, ids)) == PluginIds(ps) - ids
  {
    forall id | id in PluginIds(ps) - ids ensures id in PluginIds(Without(ps, ids)) {
      var p :| p in ps && p.id == id;
      assert p in Without(ps, ids);
    }
  }

  /** The second reconciliation at most bumps the revision, and does so exactly on a conflict. */
  lemma SecondReconcile(r: Registry, files: seq<Plugin>, preserved: set<string>, norm: Normalizer)
    requires IsNormalizer(norm) && Inv(r, norm) && (forall q :: q in files ==> norm(q) == Some(q))
    ensures var mid := Normalize(ReconcileWith(r, files, preserved), norm);
            && mid.Ok? && Inv(mid.value, norm)
            && ReconcileWith(mid.value, files, preserved)
               == mid.value.(revision := if Consistent(files) then mid.value.revision else Bump(mid.value.revision))
  {
    var gone := Vanished(r, files, preserved);
    var x := if gone == {} then r.plugins else Without(r.plugins, gone);
    var mid := ReconcileWith(r, files, preserved);
    ReconcilePlugins(r, files, preserved, norm);
    NormalizeKeepsPlugins(mid, norm);
    NormalizeEstablishes(mid, norm);
    var r1 := Normalize(mid, norm).value;
    NothingVanishesTwice(r, files, preserved, norm);
    WithoutUnique(r.plugins, gone);
    PutAllTwice(x, files);
    assert r1.plugins == PutAll(x, files);
    if Consistent(files) {
      ConsistentPresent(x, files);
      PutAllPresent(r1.plugins, files);
    } else {
      ConflictAlwaysChanges(r1.plugins, files);
    }
  }

  /**
   Reconciling again with the same files changes nothing exactly when no two files
   declare different themes under one id, or the revision can no longer rise.
   */
  lemma ReconcileTwice(r: Registry, files: seq<Plugin>, preserved: set<string>, norm: Normalizer)
    requires IsNormalizer(norm) && Inv(r, norm) && NormAll(files, norm).Some?
    ensures var op := Reconcile(files, preserved);
            var once := Mutate(r, op, norm);
            && once.Ok?
            && (Mutate(once.value, op, norm) == once
                <==> Consistent(NormAll(files, norm).value) || once.value.revision == U64_MAX)
  {
    var fs := NormAll(files, norm).value;
    NormAllNormal(files, norm);
    SecondReconcile(r, fs, preserved, norm);
    var r1 := Normalize(ReconcileWith(r, fs, preserved), norm).value;
    ReconcileCycle(r, r1, files, preserved, norm);
    var r2 := ReconcileWith(r1, fs, preserved);
    assert Inv(r2, norm);
    NormalizeFixed(r2, norm);
    ReconcileCycle(r1, r2, files, preserved, norm);
  }

  lemma ReconcileCycle(r: Registry, r': Registry, files: seq<Plugin>, preserved: set<string>, norm: Normalizer)
    requires Inv(r, norm) && NormAll(files, norm).Some? && Inv(r', norm)
    requires Normalize(ReconcileWith(r, NormAll(files, norm).value, preserved), norm) == Ok(r')
    ensures Mutate(r, Reconcile(files, preserved), norm) == Ok(r')
  {
    NormalizeFixed(r, norm);
    NormalizeFixed(r', norm);
    RunReconcile(r, files, preserved, norm);
    MutateUnfold(r, Reconcile(files, preserved), norm, Ok(r'));
  }

  lemma RunReconcile(r: Registry, files: seq<Plugin>, preserved: set<string>, norm: Normalizer)
    requires NormAll(files, norm).Some?
    ensures Run(r, Reconcile(files, preserved), norm)
         == Normalize(ReconcileWith(r, NormAll(files, norm).value, preserved), norm)
  {
  }

  /** Two files under one id with different bodies: every scan raises the revision again. */
  lemma ConflictingFilesKeepBumping(norm: Normalizer)
    requires IsNormalizer(norm) && (forall p :: norm(p) == Some(p))
    ensures var op := Reconcile([Plugin("a", "x"), Plugin("a", "y")], {});
            var once := Mutate(DEFAULT, op, norm);
            once.Ok? && once.value.revision == 1 && Mutate(once.value, op, norm) != once
  {
    var files := [Plugin("a", "x"), Plugin("a", "y")];
    DefaultInv(norm);
    NormAllFixed(files, norm);
    assert !Consistent(files) by { assert files[0].id == files[1].id && files[0] != files[1]; }
    ReconcileTwice(DEFAULT, files, {}, norm);
    MutateInv(DEFAULT, Reconcile(files, {}), norm);
    ConflictAlwaysChanges([], files);
    ReconcileTwiceRevision(files, norm);
  }

  lemma ReconcileTwiceRevision(files: seq<Plugin>, norm: Normalizer)
    requires IsNormalizer(norm) && NormAll(files, norm) == Some(files) && PutChanges([], files)
    ensures Mutate(DEFAULT, Reconcile(files, {}), norm).Ok?
    ensures Mutate(DEFAULT, Reconcile(files, {}), norm).value.revision == 1
  {
    DefaultInv(norm);
    NormAllNormal(files, norm);
    SecondReconcile(DEFAULT, files, {}, norm);
    ReconcileCycle(DEFAULT, Normalize(ReconcileWith(DEFAULT, files, {}), norm).value, files, {}, norm);
  }

  // ---- The loops and the stored row ------------------------------------------------------------------

  /** Puts one theme where the first theme with its id is, or at the end. */
  method PutInPlace(ps: seq<Plugin>, p: Plugin) returns (r: seq<Plugin>, changed: bool)
    requires UniqueIds(ps)
    ensures r == Put(ps, p) && changed == (p !in ps)
  {
    var i := 0;
    while i < |ps| && ps[i].id != p.id
      invariant 0 <= i <= |ps|
      invariant forall j :: 0 <= j < i ==> ps[j].id != p.id
      invariant Put(ps, p) == ps[..i] + Put(ps[i..], p)
    {
      assert ps[i..][0] == ps[i] && ps[i..][1..] == ps[i + 1..];
      assert ps[..i] + [ps[i]] == ps[..i + 1];
      ConcatAssoc(ps[..i], [ps[i]], Put(ps[i + 1..], p));
      i := i + 1;
    }
    if i < |ps| {
      r, changed := ps[i := p], ps[i] != p;
      UniqueMember(ps, ps[i], p);
      assert ps[i..][1..] == ps[i + 1..];
    } else {
      r, changed := ps + [p], true;
    }
  }

  /** The loop that merges file themes into the registry. */
  method MergeFiles(ps: seq<Plugin>, files: seq<Plugin>) returns (r: seq<Plugin>, changed: bool)
    requires UniqueIds(ps)
    ensures r == PutAll(ps, files) && changed == PutChanges(ps, files)
  {
    r, changed := ps, false;
    for i := 0 to |files|
      invariant r == PutAll(ps, files[..i]) && changed == PutChanges(ps, files[..i]) && UniqueIds(r)
    {
      var step;
      assert files[..i + 1][..i] == files[..i];
      PutUnique(r, files[i]);
      r, step := PutInPlace(r, files[i]);
      changed := changed || step;
    }
    assert files[..|files|] == files;
  }

  /** The loop of the normalizer, which stops at the first theme it cannot normalize. */
  method NormalizePlugins(plugins: seq<Plugin>, norm: Normalizer) returns (r: Result<seq<Plugin>, Error>)
    ensures r == match NormAll(plugins, norm) case Some(ps) => Ok(PutAll([], ps)) case None => Err(InvalidPlugin)
  {
    var normalized: seq<Plugin> := [];
    ghost var done: seq<Plugin> := [];
    for i := 0 to |plugins|
      invariant NormAll(plugins[..i], norm) == Some(done)
      invariant normalized == PutAll([], done) && UniqueIds(normalized)
    {
      assert plugins[..i + 1][..i] == plugins[..i];
      var p := norm(plugins[i]);
      if p.None? {
        NormAllMeaning(plugins, norm);
        return Err(InvalidPlugin);
      }
      var changed;
      PutUnique(normalized, p.value);
      normalized, changed := PutInPlace(normalized, p.value);
      assert (done + [p.value])[..|done|] == done;
      done := done + [p.value];
    }
    assert plugins[..|plugins|] == plugins;
    return Ok(normalized);
  }

  /** The row of the configuration table that holds the registry. */
  class AppearanceStore {
    var stored: Option<Registry>

    function Current(): Registry
      reads this
    {
      if stored.None? then DEFAULT else stored.value
    }

    ghost predicate Valid(norm: Normalizer)
      reads this
    {
      Inv(Current(), norm)
    }

    constructor ()
      ensures stored == None && Current() == DEFAULT
    {
      stored := None;
    }

    /** One immediate transaction; an error leaves the row as it was. */
    method MutateRegistry(op: Op, norm: Normalizer) returns (r: Result<Registry, Error>)
      requires IsNormalizer(norm) && Valid(norm)
      modifies this
      ensures Valid(norm)
      ensures r == Mutate(old(Current()), op, norm)
      ensures r.Err? <==> Refused(old(Current()), op, norm)
      ensures stored == if r.Ok? then Some(r.value) else old(stored)
      ensures old(Current()).revision <= Current().revision <= old(Current()).revision + 1
    {
      MutateInv(Current(), op, norm);
      r := Mutate(Current(), op, norm);
      if r.Ok? { stored := Some(r.value); }
    }
  }
}
