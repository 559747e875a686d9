/**
 The entity link table: relation names in normal form, evidence that accumulates
 on conflict, and dream artifacts that add a link and can be undone.
 */
module EntityLinks {
  import opened Prelude

  // ---- Relation names -----------------------------------------------------------------

  predicate IsAlnum(c: char) { 'a' <= c <= 'z' || 'A' <= c <= 'Z' || '0' <= c <= '9' }

  function MapChar(c: char): char {
    if 'A' <= c <= 'Z' then ((c as int) + 32) as char
    else if IsAlnum(c) then c
    else '_'
  }

  function MapChars(s: string): (r: string)
    ensures |r| == |s| && forall i :: 0 <= i < |s| ==> r[i] == MapChar(s[i])
  {
    seq(|s|, i requires 0 <= i < |s| => MapChar(s[i]))
  }

  /** `split('_')`. */
  function Split(s: string): (r: seq<string>)
    ensures |r| >= 1
  {
    if s == [] then [[]] else
    var rest := Split(s[1..]);
    if s[0] == '_' then [[]] + rest else [[s[0]] + rest[0]] + rest[1..]
  }

  /** `join("_")`. */
  function Join(parts: seq<string>): string {
    if parts == [] then []
    else if |parts| == 1 then parts[0]
    else parts[0] + "_" + Join(parts[1..])
  }

  function IsPart(): string -> bool {
    (part: string) => part != []
  }

  /** Drops leading, trailing and repeated underscores. */
  function Collapse(s: string): string { Join(Filter(Split(s), IsPart())) }

  function NormalizeRelation(relation: string): string {
    var collapsed := Collapse(MapChars(Trim(relation)));
    if collapsed == [] then "related_to" else collapsed
  }

  predicate InAlphabet(s: string) {
    forall i :: 0 <= i < |s| ==> 'a' <= s[i] <= 'z' || '0' <= s[i] <= '9' || s[i] == '_'
  }

  /** Words separated by single underscores. */
  predicate Separated(s: string) {
    && s != [] && s[0] != '_' && s[|s| - 1] != '_'
    && (forall i :: 0 <= i < |s| - 1 ==> !(s[i] == '_' && s[i + 1] == '_'))
  }

  /** Lower-case ASCII words separated by single underscores. */
  predicate NormalForm(s: string) { InAlphabet(s) && Separated(s) }

  predicate IsWord(s: string) { s != [] && InAlphabet(s) && forall i :: 0 <= i < |s| ==> s[i] != '_' }

  ghost predicate Words(parts: seq<string>) { forall i :: 0 <= i < |parts| ==> IsWord(parts[i]) }

  /** Each part of a mapped name is empty or a word. */
  lemma {:induction false} SplitParts(s: string)
    requires InAlphabet(s)
    ensures forall i :: 0 <= i < |Split(s)| ==> Split(s)[i] == [] || IsWord(Split(s)[i])
  {
    if s != [] {
      SplitParts(s[1..]);
      var rest := Split(s[1..]);
      if s[0] != '_' {
        assert IsWord([s[0]] + rest[0]);
        assert forall i :: 1 <= i < |rest| ==> Split(s)[i] == rest[i];
      } else {
        assert forall i :: 0 <= i < |rest| ==> Split(s)[i + 1] == rest[i];
      }
    }
  }

  lemma KeptWords(parts: seq<string>)
    requires forall i :: 0 <= i < |parts| ==> parts[i] == [] || IsWord(parts[i])
    ensures Words(Filter(parts, IsPart()))
  {
    var kept := Filter(parts, IsPart());
    forall i | 0 <= i < |kept| ensures IsWord(kept[i]) {
      assert kept[i] in kept;
      assert IsPart()(kept[i]);
    }
  }

  lemma AlphabetConcat(p: string, rest: string)
    requires InAlphabet(p) && InAlphabet(rest)
    ensures InAlphabet(p + "_" + rest)
  {
  }

  lemma SeparatedConcat(p: string, rest: string)
    requires IsWord(p) && Separated(rest)
    ensures Separated(p + "_" + rest)
  {
    var s := p + "_" + rest;
    forall i | 0 <= i < |s| - 1 ensures !(s[i] == '_' && s[i + 1] == '_') {
      if i < |p| {
        assert s[i] == p[i];
      } else if i == |p| {
        assert s[i + 1] == rest[0];
      } else {
        assert s[i] == rest[i - |p| - 1] && s[i + 1] == rest[i - |p|];
      }
    }
  }

  lemma WordSeparated(p: string)
    requires IsWord(p)
    ensures NormalForm(p)
  {
  }

  lemma {:induction false} JoinWords(parts: seq<string>)
    requires Words(parts) && parts != []
    ensures NormalForm(Join(parts))
  {
    assert IsWord(parts[0]);
    if |parts| > 1 {
      JoinWords(parts[1..]);
      AlphabetConcat(parts[0], Join(parts[1..]));
      SeparatedConcat(parts[0], Join(parts[1..]));
    } else {
      WordSeparated(parts[0]);
    }
  }

  lemma {:induction false} JoinSplit(s: string)
    ensures Join(Split(s)) == s
  {
    if s != [] {
      JoinSplit(s[1..]);
      var rest := Split(s[1..]);
      if s[0] == '_' {
        assert Split(s)[1..] == rest;
      } else {
        var parts := Split(s);
        assert parts[1..] == rest[1..];
        assert |rest| > 1 ==> Join(rest) == rest[0] + "_" + Join(rest[1..]);
        assert |rest| > 1 ==> Join(parts) == [s[0]] + rest[0] + "_" + Join(rest[1..]);
      }
    }
  }

  /** Splitting a well separated name gives no empty part. */
  lemma {:induction false} SplitSeparated(s: string)
    requires Separated(s)
    ensures forall i :: 0 <= i < |Split(s)| ==> Split(s)[i] != []
  {
    var t := s[1..];
    if t == [] {
      assert Split(t) == [[]];
    } else if t[0] == '_' {
      var u := t[1..];
      assert s[|s| - 1] == t[|t| - 1];
      assert u != [] && u[0] == s[2] && u[|u| - 1] == s[|s| - 1];
      assert forall i :: 0 <= i < |u| ==> u[i] == s[i + 2];
      assert Separated(u);
      SplitSeparated(u);
      assert Split(t)[0] == [] && Split(t)[1..] == Split(u);
      assert Split(s) == [[s[0]] + Split(t)[0]] + Split(t)[1..];
    } else {
      assert t[|t| - 1] == s[|s| - 1];
      assert forall i :: 0 <= i < |t| ==> t[i] == s[i + 1];
      SplitSeparated(t);
    }
  }

  lemma {:induction false} FilterKeepsAll(parts: seq<string>)
    requires forall i :: 0 <= i < |parts| ==> parts[i] != []
    ensures Filter(parts, IsPart()) == parts
  {
    if parts != [] {
      assert parts[0] != [];
      FilterKeepsAll(parts[1..]);
    }
  }

  lemma CollapseSeparates(s: string)
    requires InAlphabet(s)
    ensures Collapse(s) == [] || NormalForm(Collapse(s))
  {
    SplitParts(s);
    KeptWords(Split(s));
    var kept := Filter(Split(s), IsPart());
    if kept != [] { JoinWords(kept); }
  }

  lemma CollapseFixed(s: string)
    requires Separated(s)
    ensures Collapse(s) == s
  {
    SplitSeparated(s);
    FilterKeepsAll(Split(s));
    JoinSplit(s);
  }

  lemma MapInAlphabet(s: string)
    ensures InAlphabet(MapChars(s))
    ensures InAlphabet(s) ==> MapChars(s) == s
  {
  }

  lemma DefaultIsNormal()
    ensures NormalForm("related_to")
  {
  }

  lemma NormalizeGivesNormalForm(relation: string)
    ensures NormalForm(NormalizeRelation(relation))
  {
    var mapped := MapChars(Trim(relation));
    MapInAlphabet(Trim(relation));
    CollapseSeparates(mapped);
    DefaultIsNormal();
  }

  lemma NormalTrim(relation: string)
    requires NormalForm(relation)
    ensures Trim(relation) == relation
  {
    TrimFixpoint(relation);
  }

  lemma NormalFormIsFixed(relation: string)
    requires NormalForm(relation)
    ensures NormalizeRelation(relation) == relation
  {
    NormalTrim(relation);
    MapInAlphabet(relation);
    CollapseFixed(relation);
  }

  /** The normalizer changes exactly the names that are not in normal form, and is idempotent. */
  lemma NormalizeRelationMeaning(relation: string)
    ensures NormalizeRelation(relation) == relation <==> NormalForm(relation)
    ensures NormalizeRelation(NormalizeRelation(relation)) == NormalizeRelation(relation)
  {
    NormalizeGivesNormalForm(relation);
    if NormalForm(relation) { NormalFormIsFixed(relation); }
    NormalFormIsFixed(NormalizeRelation(relation));
  }

  // ---- Links -----------------------------------------------------------------------------

  type Fraction = r: real | 0.0 <= r <= 1.0

  /** Source entity, target entity, relation name: unique in the table. */
  type LinkKey = (string, string, string)

  datatype Link = Link(
    id: string, strength: Fraction, document: Option<string>, snippet: string, confidence: Option<Fraction>)

  type Links = map<LinkKey, Link>

  /** Evidence as it is stored: numbers clamped, the snippet trimmed. */
  datatype Evidence = Evidence(
    strength: Fraction, document: Option<string>, snippet: string, confidence: Option<Fraction>)

  function Unit(x: real): Fraction { if x < 0.0 then 0.0 else if x > 1.0 then 1.0 else x }

  /** The strength of a link that is confirmed once more. */
  function Strengthen(stored: Fraction, given: Fraction): Fraction {
    var m: real := if stored >= given then stored else given;
    if m + 0.1 <= 1.0 then m + 0.1 else 1.0
  }

  /** `ON CONFLICT DO UPDATE`: keeps the id, raises the strength, prefers the longer snippet. */
  function Merge(l: Link, e: Evidence): Link {
    Link(l.id,
         Strengthen(l.strength, e.strength),
         if e.document.Some? then e.document else l.document,
         if |e.snippet| > |l.snippet| then e.snippet else l.snippet,
         match (l.confidence, e.confidence)
         case (None, c) => c
         case (c, None) => c
         case (Some(a), Some(b)) => Some(if a >= b then a else b))
  }

  function Upsert(links: Links, key: LinkKey, e: Evidence, id: string): Links {
    if key in links then links[key := Merge(links[key], e)]
    else links[key := Link(id, e.strength, e.document, e.snippet, e.confidence)]
  }

  /** Every relation name is in normal form and no id is used twice. */
  ghost predicate Sound(links: Links) {
    && (forall k :: k in links ==> NormalForm(k.2))
    && (forall k, m :: k in links && m in links && links[k].id == links[m].id ==> k == m)
  }

  ghost predicate FreshId(links: Links, id: string) { forall k :: k in links ==> links[k].id != id }

  lemma UpsertSound(links: Links, key: LinkKey, e: Evidence, id: string)
    requires Sound(links) && NormalForm(key.2) && FreshId(links, id)
    ensures Sound(Upsert(links, key, e, id))
  {
    var after := Upsert(links, key, e, id);
    assert forall k :: k in after && k != key ==> k in links && after[k] == links[k];
    assert key in links ==> after[key].id == links[key].id;
  }

  // ---- Strength over a history ----------------------------------------------------------------

  /** One upsert of a history. */
  datatype Confirmation = Confirmation(key: LinkKey, evidence: Evidence, id: string)

  function UpsertAll(links: Links, cs: seq<Confirmation>): Links
    decreases |cs|
  {
    if cs == [] then links else
    var c := cs[|cs| - 1];
    Upsert(UpsertAll(links, cs[..|cs| - 1]), c.key, c.evidence, c.id)
  }

  function ConfirmsKey(key: LinkKey): Confirmation -> bool {
    (c: Confirmation) => c.key == key
  }

  /** Up by a tenth at least, or at the cap. */
  predicate StrongerBy(s: Fraction, t: Fraction) { s <= t && (t == 1.0 || t >= s + 0.1) }

  ghost predicate AtLeast(s: Fraction, s0: Fraction, k: nat) { s0 <= s && (s == 1.0 || s >= s0 + 0.1 * k as real) }

  lemma UpsertAt(links: Links, key: LinkKey, c: Confirmation)
    requires key in links
    ensures var after := Upsert(links, c.key, c.evidence, c.id);
            && key in after && after[key].id == links[key].id
            && (c.key != key ==> after[key] == links[key])
            && (c.key == key ==> StrongerBy(links[key].strength, after[key].strength))
            && (c.key == key ==> after[key].strength >= c.evidence.strength)
  {
  }

  /** The evidence of a link holds at least what `e` says. */
  ghost predicate Covers(l: Link, e: Evidence) {
    && |l.snippet| >= |e.snippet|
    && (e.confidence.Some? ==> l.confidence.Some? && l.confidence.value >= e.confidence.value)
    && (e.document.Some? ==> l.document.Some?)
  }

  /** A confirmation adds what it says and takes nothing away; the newer document and the older snippet win a tie. */
  lemma MergeEvidence(l: Link, e: Evidence)
    ensures var r := Merge(l, e);
            && Covers(r, e) && Covers(r, Evidence(l.strength, l.document, l.snippet, l.confidence))
            && r.document in {e.document, l.document} && (e.document.Some? ==> r.document == e.document)
            && r.snippet in {e.snippet, l.snippet} && (|e.snippet| == |l.snippet| ==> r.snippet == l.snippet)
            && r.confidence in {e.confidence, l.confidence}
            && e.strength <= r.strength && l.strength <= r.strength
  {
  }

  lemma CoversStays(l: Link, e: Evidence, f: Evidence)
    requires Covers(l, e)
    ensures Covers(Merge(l, f), e)
  {
    MergeEvidence(l, f);
  }

  /** Whatever is confirmed about a link stays covered over any history of upserts. */
  lemma {:induction false} EvidenceKept(links: Links, cs: seq<Confirmation>, i: nat)
    requires i < |cs|
    ensures cs[i].key in UpsertAll(links, cs) && Covers(UpsertAll(links, cs)[cs[i].key], cs[i].evidence)
    decreases |cs|
  {
    var n := |cs| - 1;
    var before := UpsertAll(links, cs[..n]);
    if i < n {
      assert cs[..n][i] == cs[i];
      EvidenceKept(links, cs[..n], i);
      CoversStays(before[cs[i].key], cs[i].evidence, cs[n].evidence);
    } else if cs[n].key in before {
      MergeEvidence(before[cs[n].key], cs[n].evidence);
    }
  }

  lemma AtLeastStep(s: Fraction, s0: Fraction, k: nat, t: Fraction)
    requires AtLeast(s, s0, k) && StrongerBy(s, t)
    ensures AtLeast(t, s0, k + 1)
  {
  }

  lemma CountLast(key: LinkKey, cs: seq<Confirmation>)
    requires cs != []
    ensures CountWhere(cs, ConfirmsKey(key))
         == CountWhere(cs[..|cs| - 1], ConfirmsKey(key)) + (if cs[|cs| - 1].key == key then 1 else 0)
  {
    var front, c := cs[..|cs| - 1], cs[|cs| - 1];
    assert cs == front + [c];
    CountWhereAppend(front, [c], ConfirmsKey(key));
    assert CountWhere([c][1..], ConfirmsKey(key)) == 0;
  }

  ghost predicate Grown(before: Link, after: Link, k: nat) {
    after.id == before.id && AtLeast(after.strength, before.strength, k)
  }

  lemma GrownStep(links: Links, key: LinkKey, c: Confirmation, start: Link, k: nat)
    requires key in links && Grown(start, links[key], k)
    ensures key in Upsert(links, c.key, c.evidence, c.id)
    ensures Grown(start, Upsert(links, c.key, c.evidence, c.id)[key], if c.key == key then k + 1 else k)
  {
    UpsertAt(links, key, c);
    if c.key == key {
      AtLeastStep(links[key].strength, start.strength, k, Upsert(links, c.key, c.evidence, c.id)[key].strength);
    }
  }

  /** After k confirmations a link has at least its first strength plus k tenths, capped at one. */
  lemma {:induction false} StrengthGrows(links: Links, key: LinkKey, cs: seq<Confirmation>)
    requires key in links
    ensures key in UpsertAll(links, cs)
    ensures Grown(links[key], UpsertAll(links, cs)[key], CountWhere(cs, ConfirmsKey(key)))
    decreases |cs|
  {
    if cs != [] {
      var front := cs[..|cs| - 1];
      StrengthGrows(links, key, front);
      CountLast(key, cs);
      GrownStep(UpsertAll(links, front), key, cs[|cs| - 1], links[key], CountWhere(front, ConfirmsKey(key)));
    }
  }

  // ---- Dream artifacts on links ----------------------------------------------------------------

  datatype Error = MissingField | SameEntity | ForeignKey | LinkLost | NotUndoable | LinkNotFound

  datatype Payload = Payload(
    source: Option<string>, target: Option<string>, relation: Option<string>,
    document: Option<string>, strength: Option<real>)

  /** The link an artifact asks for. */
  datatype Request = Request(source: string, target: string, relation: string, strength: Fraction, document: Option<string>)

  /** What an artifact stores: no snippet and no confidence of its own. */
  function EvidenceOf(q: Request): Evidence { Evidence(q.strength, q.document, "", None) }

  /** What applying an artifact records for its undo. */
  datatype Application = Application(linkId: string, relation: string, undoable: bool)

  /** A string field of the payload: trimmed, and absent when blank. */
  function Field(value: Option<string>): Option<string> {
    if value.Some? && Trim(value.value) != [] then Some(Trim(value.value)) else None
  }

  function StrengthOf(p: Payload, confidence: real): Fraction {
    Unit(if p.strength.Some? then p.strength.value else confidence)
  }

  function RelationRequest(p: Payload, confidence: real): Result<Request, Error> {
    var source, target, relation := Field(p.source), Field(p.target), Field(p.relation);
    if source.None? || target.None? || relation.None? then Err(MissingField)
    else Ok(Request(source.value, target.value, relation.value, StrengthOf(p, confidence), Field(p.document)))
  }

  /** `source` is the canonical entity and `target` its duplicate. */
  function MergeRequest(p: Payload, confidence: real): (r: Result<Request, Error>)
    ensures r.Ok? ==> r.value.source != r.value.target
  {
    var source, target, relation := Field(p.source), Field(p.target), Field(p.relation);
    if source.None? || target.None? then Err(MissingField)
    else if source == target then Err(SameEntity)
    else Ok(Request(source.value, target.value, if relation.Some? then relation.value else "same_as",
                    StrengthOf(p, confidence), None))
  }

  /** A text field is given: it has more than white space. */
  predicate Given(value: Option<string>) { value.Some? && Trim(value.value) != [] }

  predicate InUnit(x: real) { 0.0 <= x <= 1.0 }

  /** What a relation artifact asks for: all three names are needed, and the payload's strength goes first. */
  lemma RelationRequestMeaning(p: Payload, confidence: real)
    ensures var r := RelationRequest(p, confidence);
            && (r == Err(MissingField) <==> !Given(p.source) || !Given(p.target) || !Given(p.relation))
            && (r.Err? ==> r.error == MissingField)
            && (r.Ok? ==>
                  && r.value.source == Trim(p.source.value) && r.value.target == Trim(p.target.value)
                  && r.value.relation == Trim(p.relation.value)
                  && (r.value.document.Some? <==> Given(p.document))
                  && (p.strength.Some? && InUnit(p.strength.value) ==> r.value.strength == p.strength.value)
                  && (p.strength.None? && InUnit(confidence) ==> r.value.strength == confidence))
  {
  }

  /** What a merge artifact asks for: a link from the canonical entity to a different one, `same_as` by default. */
  lemma MergeRequestMeaning(p: Payload, confidence: real)
    ensures var r := MergeRequest(p, confidence);
            && (r == Err(MissingField) <==> !Given(p.source) || !Given(p.target))
            && (r == Err(SameEntity) <==>
                  Given(p.source) && Given(p.target) && Trim(p.source.value) == Trim(p.target.value))
            && (r.Err? ==> r.error == MissingField || r.error == SameEntity)
            && (r.Ok? ==>
                  && r.value.source == Trim(p.source.value) && r.value.target == Trim(p.target.value)
                  && r.value.relation == (if Given(p.relation) then Trim(p.relation.value) else "same_as")
                  && r.value.document == None
                  && (p.strength.Some? && InUnit(p.strength.value) ==> r.value.strength == p.strength.value)
                  && (p.strength.None? && InUnit(confidence) ==> r.value.strength == confidence))
  {
  }

  /** The entities and documents that links may refer to. */
  datatype Graph = Graph(entities: set<string>, documents: set<string>)

  predicate References(q: Request, g: Graph) {
    && q.source in g.entities && q.target in g.entities
    && (q.document.Some? ==> q.document.value in g.documents)
  }

  /** The key an artifact looks its link up under, and the key the link is stored under. */
  function AskedKey(q: Request): LinkKey { (q.source, q.target, q.relation) }

  function StoredKey(q: Request): LinkKey { (q.source, q.target, NormalizeRelation(q.relation)) }

  /** What the table looks like after applying, and what applying returned. */
  datatype Applied = Applied(links: Links, result: Result<Application, Error>)

  /** Find, upsert under the normalized name, find again under the given name. */
  function AddLink(links: Links, q: Request, id: string, g: Graph): Applied {
    if !References(q, g) then Applied(links, Err(ForeignKey)) else
    var after := Upsert(links, StoredKey(q), EvidenceOf(q), id);
    if AskedKey(q) !in after then Applied(after, Err(LinkLost))
    else Applied(after, Ok(Application(after[AskedKey(q)].id, q.relation, AskedKey(q) !in links)))
  }

  function UndoLink(links: Links, a: Application): Result<Links, Error> {
    if !a.undoable then Err(NotUndoable)
    else if forall k :: k in links ==> links[k].id != a.linkId then Err(LinkNotFound)
    else Ok(map k | k in links && links[k].id != a.linkId :: links[k])
  }

  lemma KeysAgree(q: Request)
    ensures StoredKey(q) == AskedKey(q) <==> NormalForm(q.relation)
  {
    NormalizeRelationMeaning(q.relation);
  }

  /**
   Adding a link succeeds exactly when what it refers to exists and its relation name is
   in normal form already; any other name is stored and then reported lost.
   */
  lemma AddLinkOk(links: Links, q: Request, id: string, g: Graph)
    requires Sound(links)
    ensures var a := AddLink(links, q, id, g);
            && (a.result.Ok? <==> References(q, g) && NormalForm(q.relation))
            && (References(q, g) && !NormalForm(q.relation) ==> a.result == Err(LinkLost) && StoredKey(q) in a.links)
            && (!References(q, g) ==> a == Applied(links, Err(ForeignKey)))
  {
    KeysAgree(q);
  }

  /** Applying to a new edge and undoing restores the table; on an existing edge undoing is refused. */
  lemma ApplyThenUndo(links: Links, q: Request, id: string, g: Graph)
    requires Sound(links) && FreshId(links, id) && References(q, g) && NormalForm(q.relation)
    ensures var a := AddLink(links, q, id, g);
            && a.result.Ok?
            && AskedKey(q) in a.links
            && (AskedKey(q) !in links ==> UndoLink(a.links, a.result.value) == Ok(links))
            && (AskedKey(q) in links ==> UndoLink(a.links, a.result.value) == Err(NotUndoable))
  {
    KeysAgree(q);
    var after := Upsert(links, StoredKey(q), EvidenceOf(q), id);
    if AskedKey(q) !in links { UndoNewLink(links, AskedKey(q), after[AskedKey(q)], q.relation); }
  }

  lemma UndoNewLink(links: Links, key: LinkKey, link: Link, relation: string)
    requires key !in links && FreshId(links, link.id)
    ensures UndoLink(links[key := link], Application(link.id, relation, true)) == Ok(links)
  {
    var after := links[key := link];
    assert after[key].id == link.id;
    var undone := map k | k in after && after[k].id != link.id :: after[k];
    assert undone == links;
  }

  /** When an entity merge is refused before it touches the table. */
  lemma MergeRequestRefused(p: Payload, confidence: real)
    ensures MergeRequest(p, confidence).Err? <==>
            Field(p.source).None? || Field(p.target).None? || Field(p.source) == Field(p.target)
    ensures MergeRequest(p, confidence) == Err(SameEntity) <==>
            Field(p.source).Some? && Field(p.source) == Field(p.target)
  {
  }

  lemma DefaultMergeName()
    ensures NormalForm("same_as")
  {
  }

  /** A merge without a relation name of its own is never lost: its default name is in normal form. */
  lemma DefaultMergeNeverLost(links: Links, p: Payload, confidence: real, id: string, g: Graph)
    requires Sound(links) && MergeRequest(p, confidence).Ok? && Field(p.relation).None?
    ensures var q := MergeRequest(p, confidence).value;
            AddLink(links, q, id, g).result.Ok? <==> q.source in g.entities && q.target in g.entities
  {
    DefaultMergeName();
    AddLinkOk(links, MergeRequest(p, confidence).value, id, g);
  }

  // ---- Undoing after other confirmations -----------------------------------------------------

  function OtherKeys(key: LinkKey): Confirmation -> bool {
    (c: Confirmation) => c.key != key
  }

  /** `a` is `b` with one more link, under `key` and with this id. */
  ghost predicate OneMore(a: Links, b: Links, key: LinkKey, id: string) {
    key !in b && key in a && a[key].id == id && a == b[key := a[key]]
  }

  lemma OneMoreStep(a: Links, b: Links, key: LinkKey, id: string, c: Confirmation)
    requires OneMore(a, b, key, id)
    ensures OneMore(Upsert(a, c.key, c.evidence, c.id),
                    if c.key == key then b else Upsert(b, c.key, c.evidence, c.id), key, id)
  {
    var a' := Upsert(a, c.key, c.evidence, c.id);
    var b' := if c.key == key then b else Upsert(b, c.key, c.evidence, c.id);
    assert a' == b'[key := a'[key]];
  }

  lemma {:induction false} OneMoreAll(a: Links, b: Links, key: LinkKey, id: string, cs: seq<Confirmation>)
    requires OneMore(a, b, key, id)
    ensures OneMore(UpsertAll(a, cs), UpsertAll(b, Filter(cs, OtherKeys(key))), key, id)
    decreases |cs|
  {
    if cs != [] {
      var front, c := cs[..|cs| - 1], cs[|cs| - 1];
      var kept := Filter(front, OtherKeys(key));
      assert cs == front + [c];
      OneMoreAll(a, b, key, id, front);
      OneMoreStep(UpsertAll(a, front), UpsertAll(b, kept), key, id, c);
      FilterLast(front, c, OtherKeys(key));
      if c.key == key {
        assert kept + [] == kept;
      } else {
        assert (kept + [c])[..|kept|] == kept;
      }
    }
  }

  lemma {:induction false} IdsStayFresh(links: Links, cs: seq<Confirmation>, id: string)
    requires FreshId(links, id) && (forall i :: 0 <= i < |cs| ==> cs[i].id != id)
    ensures FreshId(UpsertAll(links, cs), id)
    decreases |cs|
  {
    if cs != [] { IdsStayFresh(links, cs[..|cs| - 1], id); }
  }

  lemma UndoOneMore(a: Links, b: Links, key: LinkKey, id: string, relation: string)
    requires OneMore(a, b, key, id) && FreshId(b, id)
    ensures UndoLink(a, Application(id, relation, true)) == Ok(b)
  {
    UndoNewLink(b, key, a[key], relation);
  }

  /**
   Undoing a new edge after any confirmations leaves what they would have left without it:
   confirmations of the same edge are lost with it, all others stay.
   */
  lemma UndoAfterConfirmations(links: Links, q: Request, id: string, g: Graph, cs: seq<Confirmation>)
    requires Sound(links) && FreshId(links, id) && References(q, g) && NormalForm(q.relation) && AskedKey(q) !in links
    requires forall i :: 0 <= i < |cs| ==> cs[i].id != id
    ensures var a := AddLink(links, q, id, g);
            && a.result.Ok?
            && UndoLink(UpsertAll(a.links, cs), a.result.value) == Ok(UpsertAll(links, Filter(cs, OtherKeys(AskedKey(q)))))
  {
    var key, kept := AskedKey(q), Filter(cs, OtherKeys(AskedKey(q)));
    KeysAgree(q);
    var after := Upsert(links, key, EvidenceOf(q), id);
    OneMoreAll(after, links, key, id, cs);
    forall i | 0 <= i < |kept| ensures kept[i].id != id { assert kept[i] in kept; assert kept[i] in cs; }
    IdsStayFresh(links, kept, id);
    UndoOneMore(UpsertAll(after, cs), UpsertAll(links, kept), key, id, q.relation);
  }

  class LinkTable {
    var links: Links
    var graph: Graph

    ghost predicate Valid()
      reads this
    {
      Sound(links)
    }

    /** Confirms a link; the unique key decides between insert and update. */
    method UpsertLink(source: string, target: string, relation: string, strength: real, document: Option<string>,
                      snippet: Option<string>, confidence: Option<real>, id: string)
      returns (r: Result<(), Error>)
      requires Valid() && FreshId(links, id)
      modifies this`links
      ensures Valid()
      ensures r.Err? ==> r.error == ForeignKey
      ensures var e := Evidence(Unit(strength), document, if snippet.Some? then Trim(snippet.value) else "",
                                if confidence.Some? then Some(Unit(confidence.value)) else None);
              var known := source in graph.entities && target in graph.entities
                           && (document.Some? ==> document.value in graph.documents);
              && (r.Ok? <==> known)
              && links == if r.Ok? then Upsert(old(links), (source, target, NormalizeRelation(relation)), e, id)
                          else old(links)
    {
      if source !in graph.entities || target !in graph.entities
         || (document.Some? && document.value !in graph.documents)
      { return Err(ForeignKey); }
      var e := Evidence(Unit(strength), document, if snippet.Some? then Trim(snippet.value) else "",
                        if confidence.Some? then Some(Unit(confidence.value)) else None);
      var key := (source, target, NormalizeRelation(relation));
      NormalizeGivesNormalForm(relation);
      UpsertSound(links, key, e, id);
      if key in links {
        links := links[key := Merge(links[key], e)];
      } else {
        links := links[key := Link(id, e.strength, e.document, e.snippet, e.confidence)];
      }
      return Ok(());
    }

    method FindLink(source: string, target: string, relation: string) returns (r: Option<Link>)
      ensures r == if (source, target, relation) in links then Some(links[(source, target, relation)]) else None
    {
      if (source, target, relation) in links { return Some(links[(source, target, relation)]); }
      return None;
    }

    /** Finds the link, upserts it, and finds it again; an error may still have stored it. */
    method Apply(request: Result<Request, Error>, id: string) returns (r: Result<Application, Error>)
      requires Valid() && FreshId(links, id)
      modifies this`links
      ensures Valid()
      ensures request.Err? ==> r == Err(request.error) && links == old(links)
      ensures request.Ok? ==> Applied(links, r) == AddLink(old(links), request.value, id, graph)
    {
      if request.Err? { return Err(request.error); }
      var q := request.value;
      var existing := FindLink(q.source, q.target, q.relation);
      var upserted := UpsertLink(q.source, q.target, q.relation, q.strength, q.document, None, None, id);
      if upserted.Err? { return Err(upserted.error); }
      var applied := FindLink(q.source, q.target, q.relation);
      if applied.None? { return Err(LinkLost); }
      return Ok(Application(applied.value.id, q.relation, existing.None?));
    }

    method ApplyRelation(p: Payload, confidence: real, id: string) returns (r: Result<Application, Error>)
      requires Valid() && FreshId(links, id)
      modifies this`links
      ensures Valid()
      ensures var request := RelationRequest(p, confidence);
              && (request.Err? ==> r == Err(request.error) && links == old(links))
              && (request.Ok? ==> Applied(links, r) == AddLink(old(links), request.value, id, graph))
              && (r.Ok? <==> request.Ok? && References(request.value, graph) && NormalForm(request.value.relation))
    {
      var request := RelationRequest(p, confidence);
      if request.Ok? { AddLinkOk(links, request.value, id, graph); }
      r := Apply(request, id);
    }

    method ApplyMerge(p: Payload, confidence: real, id: string) returns (r: Result<Application, Error>)
      requires Valid() && FreshId(links, id)
      modifies this`links
      ensures Valid()
      ensures var request := MergeRequest(p, confidence);
              && (request.Err? ==> r == Err(request.error) && links == old(links))
              && (request.Ok? ==> Applied(links, r) == AddLink(old(links), request.value, id, graph))
              && (r.Ok? <==> request.Ok? && References(request.value, graph) && NormalForm(request.value.relation))
    {
      var request := MergeRequest(p, confidence);
      if request.Ok? { AddLinkOk(links, request.value, id, graph); }
      r := Apply(request, id);
    }

    /** `DELETE FROM entity_links WHERE id = ?`. */
    method DeleteLink(id: string) returns (affected: nat)
      modifies this`links
      ensures links == map k | k in old(links) && old(links)[k].id != id :: old(links)[k]
      ensures affected == 0 <==> forall k :: k in old(links) ==> old(links)[k].id != id
    {
      affected := 0;
      var todo := links.Keys;
      while todo != {}
        invariant todo <= links.Keys <= old(links).Keys
        invariant forall k :: k in links ==> links[k] == old(links)[k]
        invariant forall k :: k in old(links) ==> (k in links <==> k in todo || old(links)[k].id != id)
        invariant affected == 0 <==> links == old(links)
        invariant affected == 0 ==> forall k :: k in old(links) && k !in todo ==> old(links)[k].id != id
      {
        var k :| k in todo;
        todo := todo - {k};
        if links[k].id == id {
          links := links - {k};
          affected := affected + 1;
        }
      }
    }

    /** An edge that existed before is not deleted; a link that is gone is an error. */
    method Undo(a: Application) returns (r: Result<(), Error>)
      requires Valid()
      modifies this`links
      ensures Valid()
      ensures r.Ok? <==> UndoLink(old(links), a).Ok?
      ensures links == if r.Ok? then UndoLink(old(links), a).value else old(links)
      ensures r.Err? ==> r.error == UndoLink(old(links), a).error
    {
      if !a.undoable { return Err(NotUndoable); }
      var affected := DeleteLink(a.linkId);
      if affected == 0 {
        assert links == old(links);
        return Err(LinkNotFound);
      }
      return Ok(());
    }
  }
}
