/**
 Citation references `[cite:ID]` and `[cite:ID|text]` in an answer.
 */
module Citations {
  import opened Prelude

  const TAG: string := "[cite:"

  predicate StartsWith(s: string, t: string) { |t| <= |s| && s[..|t|] == t }

  /** `find`: the first position at which `t` occurs. */
  function Find(s: string, t: string): (r: Option<nat>)
    requires t != []
    ensures r.Some? ==> r.value + |t| <= |s|
    decreases |s|
  {
    if StartsWith(s, t) then Some(0)
    else if s == [] then None
    else
      var later := Find(s[1..], t);
      if later.None? then None else Some(later.value + 1)
  }

  predicate OccursAt(s: string, t: string, i: nat) { i + |t| <= |s| && s[i..i + |t|] == t }

  ghost predicate FirstAt(s: string, t: string, i: nat) {
    OccursAt(s, t, i) && forall j: nat :: j < i ==> !OccursAt(s, t, j)
  }

  /** `t` does not occur in `s`. */
  predicate Free(s: string, t: string) { forall i: nat :: i <= |s| ==> !OccursAt(s, t, i) }

  lemma OccursLater(s: string, t: string, i: nat)
    requires s != []
    ensures OccursAt(s, t, i + 1) <==> OccursAt(s[1..], t, i)
    ensures OccursAt(s, t, 0) <==> StartsWith(s, t)
  {
    if i + 1 + |t| <= |s| { assert s[1..][i..i + |t|] == s[i + 1..i + 1 + |t|]; }
    assert |t| <= |s| ==> s[0..|t|] == s[..|t|];
  }

  lemma {:induction false} FindFirst(s: string, t: string, i: nat)
    requires t != [] && FirstAt(s, t, i)
    ensures Find(s, t) == Some(i)
    decreases |s|
  {
    assert s != [];
    OccursLater(s, t, 0);
    if i > 0 {
      assert !OccursAt(s, t, 0);
      OccursLater(s, t, i - 1);
      forall j: nat | j < i - 1 ensures !OccursAt(s[1..], t, j) { OccursLater(s, t, j); }
      FindFirst(s[1..], t, i - 1);
    }
  }

  lemma {:induction false} FindNone(s: string, t: string)
    requires t != [] && Free(s, t)
    ensures Find(s, t).None?
    decreases |s|
  {
    if s != [] {
      OccursLater(s, t, 0);
      assert !OccursAt(s, t, 0);
      forall j: nat | j <= |s[1..]| ensures !OccursAt(s[1..], t, j) {
        OccursLater(s, t, j);
        assert !OccursAt(s, t, j + 1);
      }
      FindNone(s[1..], t);
    }
  }

  /** The text before the first bar. */
  function BeforeBar(s: string): string {
    if s == [] || s[0] == '|' then [] else [s[0]] + BeforeBar(s[1..])
  }

  function IdOf(inner: string): string { Trim(BeforeBar(inner)) }

  function NonEmpty(id: string): seq<string> { if id == [] then [] else [id] }

  /** One reference: what stands between its tag and its bracket, and where the text goes on. */
  datatype Found = Found(inner: string, next: nat)

  function ScanFor(s: string, open: string, close: string): (r: Option<Found>)
    requires open != [] && close != []
    ensures r.Some? ==> 0 < r.value.next <= |s|
  {
    var tag := Find(s, open);
    if tag.None? then None else
    var start := tag.value + |open|;
    if start >= |s| then None else
    var end := Find(s[start..], close);
    if end.None? then None else
    Some(Found(s[start..][..end.value], start + end.value + |close|))
  }

  function Scan(s: string): (r: Option<Found>)
    ensures r.Some? ==> 0 < r.value.next <= |s|
  {
    ScanFor(s, TAG, "]")
  }

  /** Every id that repeated scanning finds, in order and with repetitions. */
  function CitedBy(s: string, scan: string -> Option<Found>, id: string -> string): seq<string>
    decreases |s|
  {
    match scan(s)
    case None => []
    case Some(f) =>
      if 0 < f.next <= |s| then NonEmpty(id(f.inner)) + CitedBy(s[f.next..], scan, id) else []
  }

  function Cited(s: string): seq<string> { CitedBy(s, Scan, IdOf) }

  /** The loop: a position that moves past each reference. */
  method ExtractWith(text: string, scan: string -> Option<Found>, id: string -> string) returns (citations: seq<string>)
    requires forall s :: scan(s).Some? ==> 0 < scan(s).value.next <= |s|
    ensures citations == Dedup(CitedBy(text, scan, id))
  {
    citations := [];
    ghost var goal := Dedup(CitedBy(text, scan, id));
    var pos := 0;
    assert text[0..] == text;
    RemainingFirst(text, scan, id);
    while true
      invariant 0 <= pos <= |text|
      invariant Remaining(citations, text[pos..], scan, id) == goal
      decreases |text| - pos
    {
      var found := scan(text[pos..]);
      if found.None? { break; }
      RemainingNext(citations, text, pos, scan, id);
      citations := AddNew(citations, id(found.value.inner));
      pos := pos + found.value.next;
    }
  }

  /** Pushes an id unless it is empty or there already. */
  function AddNew(citations: seq<string>, id: string): seq<string> {
    if id != [] && id !in citations then citations + [id] else citations
  }

  function AddAll(citations: seq<string>, ids: seq<string>): seq<string>
    decreases |ids|
  {
    if ids == [] then citations else AddAll(AddNew(citations, ids[0]), ids[1..])
  }

  /** What the loop ends with from here. */
  ghost function Remaining(citations: seq<string>, s: string, scan: string -> Option<Found>, id: string -> string)
    : seq<string>
  {
    AddAll(citations, CitedBy(s, scan, id))
  }

  lemma RemainingFirst(text: string, scan: string -> Option<Found>, id: string -> string)
    ensures Remaining([], text, scan, id) == Dedup(CitedBy(text, scan, id))
  {
    CitedNonEmpty(text, scan, id);
    AddAllAfter([], CitedBy(text, scan, id));
    assert [] + CitedBy(text, scan, id) == CitedBy(text, scan, id);
  }

  lemma RemainingNext(citations: seq<string>, text: string, pos: nat, scan: string -> Option<Found>, id: string -> string)
    requires pos <= |text| && scan(text[pos..]).Some? && 0 < scan(text[pos..]).value.next <= |text| - pos
    ensures Remaining(citations, text[pos..], scan, id)
         == Remaining(AddNew(citations, id(scan(text[pos..]).value.inner)),
                      text[pos + scan(text[pos..]).value.next..], scan, id)
  {
    CitedNext(text, pos, scan, id);
    AddOne(citations, id(scan(text[pos..]).value.inner),
           CitedBy(text[pos + scan(text[pos..]).value.next..], scan, id));
  }

  lemma AddOne(citations: seq<string>, id: string, rest: seq<string>)
    ensures AddAll(citations, NonEmpty(id) + rest) == AddAll(AddNew(citations, id), rest)
  {
    if id == [] {
      assert NonEmpty(id) + rest == rest;
    } else {
      assert (NonEmpty(id) + rest)[0] == id && (NonEmpty(id) + rest)[1..] == rest;
    }
  }

  lemma {:induction false} AddAllAfter(done: seq<string>, ids: seq<string>)
    requires (forall i :: 0 <= i < |done| ==> done[i] != []) && (forall i :: 0 <= i < |ids| ==> ids[i] != [])
    ensures AddAll(Dedup(done), ids) == Dedup(done + ids)
    decreases |ids|
  {
    if ids == [] {
      assert done + ids == done;
    } else {
      var next := done + [ids[0]];
      assert next[..|done|] == done;
      assert next + ids[1..] == done + ids;
      AddAllAfter(next, ids[1..]);
    }
  }

  lemma {:induction false} CitedNonEmpty(s: string, scan: string -> Option<Found>, id: string -> string)
    ensures forall i :: 0 <= i < |CitedBy(s, scan, id)| ==> CitedBy(s, scan, id)[i] != []
    decreases |s|
  {
    var f := scan(s);
    if f.Some? && 0 < f.value.next <= |s| { CitedNonEmpty(s[f.value.next..], scan, id); }
  }

  lemma CitedNext(text: string, pos: nat, scan: string -> Option<Found>, id: string -> string)
    requires pos <= |text| && scan(text[pos..]).Some? && 0 < scan(text[pos..]).value.next <= |text| - pos
    ensures CitedBy(text[pos..], scan, id)
         == NonEmpty(id(scan(text[pos..]).value.inner)) + CitedBy(text[pos + scan(text[pos..]).value.next..], scan, id)
  {
    assert text[pos..][scan(text[pos..]).value.next..] == text[pos + scan(text[pos..]).value.next..];
  }

  method ExtractCitations(text: string) returns (citations: seq<string>)
    ensures citations == Dedup(Cited(text)) && Distinct(citations)
  {
    citations := ExtractWith(text, Scan, IdOf);
    DedupDistinct(Cited(text));
  }

  // ---- Printing --------------------------------------------------------------------------

  /** Text, then a reference to `id` with an optional description. */
  datatype Reference = Reference(filler: string, id: string, description: Option<string>)

  predicate Lacks(s: string, c: char) { forall i :: 0 <= i < |s| ==> s[i] != c }

  /** An id that a reference can carry. */
  predicate Citable(id: string) { id != [] && Trim(id) == id && Lacks(id, ']') && Lacks(id, '|') }

  predicate Printable(r: Reference) {
    && Free(r.filler, TAG) && Citable(r.id)
    && (r.description.Some? ==> Lacks(r.description.value, ']'))
  }

  function Inner(r: Reference): string {
    r.id + (if r.description.Some? then "|" + r.description.value else "")
  }

  function Print(rs: seq<Reference>, tail: string): string {
    if rs == [] then tail else rs[0].filler + (TAG + (Inner(rs[0]) + ("]" + Print(rs[1..], tail))))
  }

  function Ids(rs: seq<Reference>): (r: seq<string>)
    ensures |r| == |rs| && forall i :: 0 <= i < |rs| ==> r[i] == rs[i].id
  {
    seq(|rs|, i requires 0 <= i < |rs| => rs[i].id)
  }

  /** No later character of a tag repeats its first one. */
  predicate NoBorder(open: string) { forall k :: 1 <= k < |open| ==> open[k] != open[0] }

  lemma NotInFiller(filler: string, open: string, rest: string, j: nat)
    requires open != [] && NoBorder(open) && j < |filler| && !OccursAt(filler, open, j)
    ensures !OccursAt(filler + (open + rest), open, j)
  {
    var s := filler + (open + rest);
    if j + |open| <= |filler| {
      assert s[j..j + |open|] == filler[j..j + |open|];
    } else if j + |open| <= |s| {
      var k := |filler| - j;
      assert s[j..j + |open|][k] == s[|filler|] == open[0];
    }
  }

  /** No reference starts inside a filler, not even one that the next tag would complete. */
  lemma FirstOpen(filler: string, open: string, rest: string)
    requires open != [] && NoBorder(open) && Free(filler, open)
    ensures FirstAt(filler + (open + rest), open, |filler|)
  {
    var s := filler + (open + rest);
    assert s[|filler|..|filler| + |open|] == open;
    forall j: nat | j < |filler| ensures !OccursAt(s, open, j) {
      NotInFiller(filler, open, rest, j);
    }
  }

  lemma LacksFree(s: string, c: char)
    requires Lacks(s, c)
    ensures Free(s, [c])
  {
    forall i: nat | i <= |s| ensures !OccursAt(s, [c], i) {
      if i < |s| { assert s[i..i + 1][0] == s[i]; }
    }
  }

  lemma {:induction false} BeforeBarOf(id: string, rest: string)
    requires Lacks(id, '|')
    ensures BeforeBar(id) == id && BeforeBar(id + "|" + rest) == id
  {
    if id == [] {
      assert id + "|" + rest == "|" + rest;
    } else {
      BeforeBarOf(id[1..], rest);
      assert (id + "|" + rest)[1..] == id[1..] + "|" + rest;
    }
  }

  lemma IdOfInner(r: Reference)
    requires Printable(r)
    ensures IdOf(Inner(r)) == r.id && Lacks(Inner(r), ']')
  {
    if r.description.Some? {
      BeforeBarOf(r.id, r.description.value);
      assert Inner(r) == r.id + "|" + r.description.value;
    } else {
      BeforeBarOf(r.id, "");
      assert Inner(r) == r.id;
    }
  }

  lemma ScanPrintedFor(filler: string, open: string, inner: string, close: string, rest: string)
    requires open != [] && NoBorder(open) && Free(filler, open)
    requires close != [] && NoBorder(close) && Free(inner, close)
    ensures var s := filler + (open + (inner + (close + rest)));
            ScanFor(s, open, close) == Some(Found(inner, |filler| + |open| + |inner| + |close|))
  {
    var body := inner + (close + rest);
    FirstOpen(filler, open, body);
    FirstOpen(inner, close, rest);
    DropTwo(filler, open, body);
    ScanFrom(filler + (open + body), open, close, |filler|, |inner|);
  }

  lemma DropTwo(a: string, b: string, c: string)
    ensures (a + (b + c))[|a| + |b|..] == c
  {
  }

  lemma DropFour(a: string, b: string, c: string, d: string, e: string)
    ensures (a + (b + (c + (d + e))))[|a| + |b| + |c| + |d|..] == e
  {
    DropTwo(c, d, e);
    DropTwo(a, b, c + (d + e));
    var s := a + (b + (c + (d + e)));
    assert s[|a| + |b|..][|c| + |d|..] == s[|a| + |b| + |c| + |d|..];
  }

  /** The first reference of a printed text. */
  lemma ScanPrinted(filler: string, inner: string, rest: string)
    requires Free(filler, TAG) && Lacks(inner, ']')
    ensures IsStep(filler + (TAG + (inner + ("]" + rest))), inner, rest, Scan)
  {
    LacksFree(inner, ']');
    TagsHaveNoBorder();
    ScanPrintedFor(filler, TAG, inner, "]", rest);
    DropFour(filler, TAG, inner, "]", rest);
  }

  lemma TagsHaveNoBorder()
    ensures NoBorder(TAG) && NoBorder("]")
  {
  }

  lemma ScanFrom(s: string, open: string, close: string, tag: nat, end: nat)
    requires open != [] && close != []
    requires FirstAt(s, open, tag) && tag + |open| < |s| && FirstAt(s[tag + |open|..], close, end)
    ensures ScanFor(s, open, close) == Some(Found(s[tag + |open|..][..end], tag + |open| + end + |close|))
  {
    FindFirst(s, open, tag);
    FindFirst(s[tag + |open|..], close, end);
  }

  /** A chain of scans gives the ids of its references. */
  lemma {:induction false} CitedChain(
    texts: seq<string>, inners: seq<string>, ids: seq<string>, scan: string -> Option<Found>, id: string -> string)
    requires |texts| == |inners| + 1 == |ids| + 1
    requires forall i :: 0 <= i < |inners| ==> IsStep(texts[i], inners[i], texts[i + 1], scan)
    requires forall i :: 0 <= i < |ids| ==> id(inners[i]) == ids[i] && ids[i] != []
    requires scan(texts[|ids|]).None?
    ensures CitedBy(texts[0], scan, id) == ids
    decreases |ids|
  {
    if ids != [] {
      assert IsStep(texts[0], inners[0], texts[1], scan);
      CitedChain(texts[1..], inners[1..], ids[1..], scan, id);
      assert ids == [ids[0]] + ids[1..];
    }
  }

  ghost predicate IsStep(s: string, inner: string, rest: string, scan: string -> Option<Found>) {
    && scan(s).Some? && scan(s).value.inner == inner
    && 0 < scan(s).value.next <= |s| && s[scan(s).value.next..] == rest
  }

  function Texts(rs: seq<Reference>, tail: string): (r: seq<string>)
    ensures |r| == |rs| + 1
  {
    seq(|rs| + 1, i requires 0 <= i <= |rs| => Print(rs[i..], tail))
  }

  function Inners(rs: seq<Reference>): (r: seq<string>)
    ensures |r| == |rs|
  {
    seq(|rs|, i requires 0 <= i < |rs| => Inner(rs[i]))
  }

  lemma PrintStep(rs: seq<Reference>, tail: string, i: nat)
    requires i < |rs| && Printable(rs[i])
    ensures IsStep(Print(rs[i..], tail), Inner(rs[i]), Print(rs[i + 1..], tail), Scan)
  {
    assert rs[i..][0] == rs[i] && rs[i..][1..] == rs[i + 1..];
    IdOfInner(rs[i]);
    ScanPrinted(rs[i].filler, Inner(rs[i]), Print(rs[i + 1..], tail));
  }

  lemma TextsChain(rs: seq<Reference>, tail: string)
    requires forall i :: 0 <= i < |rs| ==> Printable(rs[i])
    ensures forall i :: 0 <= i < |rs| ==> IsStep(Texts(rs, tail)[i], Inners(rs)[i], Texts(rs, tail)[i + 1], Scan)
  {
    forall i | 0 <= i < |rs| ensures IsStep(Texts(rs, tail)[i], Inners(rs)[i], Texts(rs, tail)[i + 1], Scan) {
      PrintStep(rs, tail, i);
    }
  }

  lemma InnersIds(rs: seq<Reference>)
    requires forall i :: 0 <= i < |rs| ==> Printable(rs[i])
    ensures forall i :: 0 <= i < |rs| ==> IdOf(Inners(rs)[i]) == Ids(rs)[i] && Ids(rs)[i] != []
  {
    forall i | 0 <= i < |rs| ensures IdOf(Inners(rs)[i]) == Ids(rs)[i] && Ids(rs)[i] != [] {
      IdOfInner(rs[i]);
    }
  }

  lemma TextsEnds(rs: seq<Reference>, tail: string)
    requires Free(tail, TAG)
    ensures Texts(rs, tail)[0] == Print(rs, tail) && Texts(rs, tail)[|rs|] == tail
    ensures Scan(tail).None?
  {
    assert rs[|rs|..] == [] && rs[0..] == rs;
    FindNone(tail, TAG);
  }

  /** Scanning printed references gives back their ids in order. */
  lemma CitedOfPrint(rs: seq<Reference>, tail: string)
    requires (forall i :: 0 <= i < |rs| ==> Printable(rs[i])) && Free(tail, TAG)
    ensures Cited(Print(rs, tail)) == Ids(rs)
  {
    TextsChain(rs, tail);
    InnersIds(rs);
    TextsEnds(rs, tail);
    CitedChain(Texts(rs, tail), Inners(rs), Ids(rs), Scan, IdOf);
  }

  /** Extraction inverts printing: the distinct ids in order of first use, all of them if none repeats. */
  lemma ExtractInvertsPrint(rs: seq<Reference>, tail: string)
    requires (forall i :: 0 <= i < |rs| ==> Printable(rs[i])) && Free(tail, TAG)
    ensures Dedup(Cited(Print(rs, tail))) == Dedup(Ids(rs))
    ensures Distinct(Ids(rs)) ==> Dedup(Cited(Print(rs, tail))) == Ids(rs)
  {
    CitedOfPrint(rs, tail);
    DedupDistinct(Ids(rs));
  }

  // ---- Extraction of any text ---------------------------------------------------------------

  lemma {:induction false} BeforeFind(s: string)
    ensures Find(s, "]").Some? ==> Lacks(s[..Find(s, "]").value], ']')
    decreases |s|
  {
    if s != [] && !StartsWith(s, "]") {
      BeforeFind(s[1..]);
      if Find(s, "]").Some? {
        var k := Find(s, "]").value;
        assert s[..k] == [s[0]] + s[1..][..k - 1];
        assert s[..1] == [s[0]];
      }
    }
  }

  lemma {:induction false} BeforeBarPrefix(s: string)
    ensures |BeforeBar(s)| <= |s| && BeforeBar(s) == s[..|BeforeBar(s)|] && Lacks(BeforeBar(s), '|')
  {
    if s != [] && s[0] != '|' { BeforeBarPrefix(s[1..]); }
  }

  lemma TrimPart(s: string, c: char)
    requires Lacks(s, c)
    ensures Lacks(Trim(s), c)
  {
    var t := TrimStart(s);
    assert Lacks(t, c);
    var u := TrimEnd(t);
    assert u == t[..|u|];
  }

  lemma {:induction false} TrimEndKeepsStart(s: string)
    requires s != [] && !IsWhitespace(s[0])
    ensures TrimEnd(s) != [] && TrimEnd(s)[0] == s[0]
  {
    if |s| > 1 { TrimEndKeepsStart(s[..|s| - 1]); }
  }

  lemma TrimTwice(s: string)
    ensures Trim(Trim(s)) == Trim(s)
  {
    var t := TrimStart(s);
    if t != [] { TrimEndKeepsStart(t); }
    TrimFixpoint(Trim(s));
  }

  lemma IdIsCitable(inner: string)
    requires Lacks(inner, ']')
    ensures IdOf(inner) == [] || Citable(IdOf(inner))
  {
    var part := BeforeBar(inner);
    BeforeBarPrefix(inner);
    assert Lacks(part, ']');
    TrimPart(part, ']');
    TrimPart(part, '|');
    TrimTwice(part);
  }

  lemma ScanInner(s: string)
    ensures Scan(s).Some? ==> Lacks(Scan(s).value.inner, ']')
  {
    var tag := Find(s, TAG);
    if tag.Some? && tag.value + |TAG| < |s| { BeforeFind(s[tag.value + |TAG|..]); }
  }

  lemma {:induction false} CitedAll(s: string, scan: string -> Option<Found>, id: string -> string, good: string -> bool)
    requires forall t :: scan(t).Some? ==> id(scan(t).value.inner) == [] || good(id(scan(t).value.inner))
    ensures forall i :: 0 <= i < |CitedBy(s, scan, id)| ==> good(CitedBy(s, scan, id)[i])
    decreases |s|
  {
    var f := scan(s);
    if f.Some? && 0 < f.value.next <= |s| { CitedAll(s[f.value.next..], scan, id, good); }
  }

  /** Whatever the text, every extracted id can be cited again. */
  lemma CitedAreCitable(s: string)
    ensures forall i :: 0 <= i < |Cited(s)| ==> Citable(Cited(s)[i])
  {
    forall t | Scan(t).Some? ensures IdOf(Scan(t).value.inner) == [] || Citable(IdOf(Scan(t).value.inner)) {
      ScanInner(t);
      IdIsCitable(Scan(t).value.inner);
    }
    CitedAll(s, Scan, IdOf, Citable);
  }

  function Bare(ids: seq<string>): (rs: seq<Reference>)
    ensures |rs| == |ids| && forall i :: 0 <= i < |ids| ==> rs[i] == Reference("", ids[i], None)
  {
    seq(|ids|, i requires 0 <= i < |ids| => Reference("", ids[i], None))
  }

  /** Printing what was extracted and extracting again gives the same citations. */
  lemma ExtractPrintExtract(s: string)
    ensures var ids := Dedup(Cited(s));
            Dedup(Cited(Print(Bare(ids), ""))) == ids
  {
    var ids := Dedup(Cited(s));
    CitedAreCitable(s);
    forall i | 0 <= i < |ids| ensures Printable(Bare(ids)[i]) {
      assert ids[i] in ids;
      assert ids[i] in Cited(s);
    }
    DedupDistinct(Cited(s));
    assert Ids(Bare(ids)) == ids;
    ExtractInvertsPrint(Bare(ids), "");
  }
}
