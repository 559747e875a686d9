/**
 Assembling the context pack of a prompt: stable items first, then by priority,
 packed greedily under a token budget.
 */
module ContextPack {
  import opened Prelude

  const U32_MAX: nat := 0xFFFF_FFFF

  type u32 = n: nat | n <= 0xFFFF_FFFF

  datatype Stability = StablePrefix | VolatileSuffix

  /** `text` is the payload's text, if it has one; `role` stands for the descriptive fields. */
  datatype Item = Item(id: string, role: string, tokens: u32, priority: int, stability: Stability, text: Option<string>)

  datatype Pack = Pack(budget: Option<u32>, total: u32, items: seq<Item>, omitted: seq<string>)

  function SaturatingAdd(a: u32, b: u32): u32 { if a + b <= U32_MAX then a + b else U32_MAX }

  // ---- The order of items ---------------------------------------------------------------

  predicate ItemLe(a: Item, b: Item) {
    if a.stability != b.stability then a.stability == StablePrefix
    else if a.priority != b.priority then a.priority > b.priority
    else LexLe(a.id, b.id)
  }

  lemma ItemOrder()
    ensures TotalPreorder(ItemLe)
    ensures forall a, b :: ItemLe(a, b) && ItemLe(b, a) ==> a.id == b.id
  {
    LexOrder();
    forall a, b, c | ItemLe(a, b) && ItemLe(b, c) ensures ItemLe(a, c) {
      assert LexLe(a.id, b.id) && LexLe(b.id, c.id) ==> LexLe(a.id, c.id);
    }
  }

  ghost predicate DistinctIds(s: seq<Item>) {
    forall i, j :: 0 <= i < j < |s| ==> s[i].id != s[j].id
  }

  lemma SameIdSameItem(s: seq<Item>, a: Item, b: Item)
    requires DistinctIds(s) && a in s && b in s && a.id == b.id
    ensures a == b
  {
  }

  lemma ItemsSeparated(s: seq<Item>)
    requires DistinctIds(s)
    ensures SeparatesElements(ItemLe, s)
  {
    ItemOrder();
    forall a, b | a in s && b in s && ItemLe(a, b) && ItemLe(b, a) ensures a == b {
      SameIdSameItem(s, a, b);
    }
  }

  // ---- The greedy budget ------------------------------------------------------------------

  datatype Picked = Picked(selected: seq<Item>, omitted: seq<Item>, total: u32)

  predicate Fits(budget: Option<u32>, total: u32, item: Item) {
    budget.None? || SaturatingAdd(total, item.tokens) <= budget.value
  }

  function PickNext(p: Picked, budget: Option<u32>, item: Item): Picked {
    if Fits(budget, p.total, item)
    then Picked(p.selected + [item], p.omitted, SaturatingAdd(p.total, item.tokens))
    else p.(omitted := p.omitted + [item])
  }

  function Pick(s: seq<Item>, budget: Option<u32>): Picked {
    if s == [] then Picked([], [], 0) else PickNext(Pick(s[..|s| - 1], budget), budget, s[|s| - 1])
  }

  function Sum(s: seq<Item>): nat {
    if s == [] then 0 else Sum(s[..|s| - 1]) + s[|s| - 1].tokens
  }

  lemma SumAppend(s: seq<Item>, item: Item)
    ensures Sum(s + [item]) == Sum(s) + item.tokens
  {
    assert (s + [item])[..|s|] == s;
  }

  /** Selected and omitted items together are the items given, none lost and none invented. */
  lemma {:induction false} PickPartition(s: seq<Item>, budget: Option<u32>)
    ensures multiset(Pick(s, budget).selected) + multiset(Pick(s, budget).omitted) == multiset(s)
  {
    if s != [] {
      PickPartition(s[..|s| - 1], budget);
      assert s == s[..|s| - 1] + [s[|s| - 1]];
    }
  }

  /** Under a budget below the saturation point the total is the exact sum and respects the budget. */
  lemma {:induction false} PickExact(s: seq<Item>, budget: Option<u32>)
    requires budget.Some? && budget.value < U32_MAX
    ensures Pick(s, budget).total == Sum(Pick(s, budget).selected) <= budget.value
  {
    if s != [] {
      PickExact(s[..|s| - 1], budget);
      SumAppend(Pick(s[..|s| - 1], budget).selected, s[|s| - 1]);
    }
  }

  /** Without a budget, or with the largest one, nothing is omitted and the total saturates. */
  lemma {:induction false} PickUnlimited(s: seq<Item>, budget: Option<u32>)
    requires budget.None? || budget.value == U32_MAX
    ensures Pick(s, budget) == Picked(s, [], Min(Sum(s), U32_MAX))
  {
    if s != [] {
      PickUnlimited(s[..|s| - 1], budget);
      assert s == s[..|s| - 1] + [s[|s| - 1]];
    }
  }

  /** The items selected among the first `i`. */
  function SelectedBefore(s: seq<Item>, budget: Option<u32>, i: nat): seq<Item>
    requires i <= |s|
  {
    Pick(s[..i], budget).selected
  }

  /** Item by item: it is omitted exactly when it would overflow what was selected before it. */
  lemma PickDecision(s: seq<Item>, budget: Option<u32>, i: nat)
    requires i < |s| && budget.Some? && budget.value < U32_MAX
    ensures var before := SelectedBefore(s, budget, i);
            if Sum(before) + s[i].tokens > budget.value
            then SelectedBefore(s, budget, i + 1) == before
                 && Pick(s[..i + 1], budget).omitted == Pick(s[..i], budget).omitted + [s[i]]
            else SelectedBefore(s, budget, i + 1) == before + [s[i]]
                 && Pick(s[..i + 1], budget).omitted == Pick(s[..i], budget).omitted
  {
    assert s[..i + 1][..i] == s[..i];
    PickExact(s[..i], budget);
  }

  /** Selecting keeps the order of the items. */
  lemma {:induction false} PickKeepsOrder(s: seq<Item>, budget: Option<u32>)
    requires SortedBy(s, ItemLe)
    ensures SortedBy(Pick(s, budget).selected, ItemLe) && SortedBy(Pick(s, budget).omitted, ItemLe)
    ensures forall x :: x in Pick(s, budget).selected ==> x in s
    ensures forall x :: x in Pick(s, budget).omitted ==> x in s
  {
    if s != [] {
      var front, last := s[..|s| - 1], s[|s| - 1];
      PickKeepsOrder(front, budget);
      forall x | x in front ensures ItemLe(x, last) {
        var i :| 0 <= i < |front| && front[i] == x;
      }
      var p := Pick(front, budget);
      assert forall i :: 0 <= i < |p.selected| ==> p.selected[i] in p.selected;
      assert forall i :: 0 <= i < |p.omitted| ==> p.omitted[i] in p.omitted;
    }
  }

  // ---- Sections of the prompt ------------------------------------------------------------------

  predicate HasSection(item: Item) { item.text.Some? && !IsBlank(item.text.value) }

  function Sections(s: seq<Item>): seq<string> {
    if s == [] then [] else (if HasSection(s[0]) then [s[0].text.value] else []) + Sections(s[1..])
  }

  function SectionsFor(s: seq<Item>, stability: Stability): seq<string> {
    if s == [] then [] else
    (if s[0].stability == stability && HasSection(s[0]) then [s[0].text.value] else [])
    + SectionsFor(s[1..], stability)
  }

  lemma {:induction false} OnlyVolatile(s: seq<Item>)
    requires forall i :: 0 <= i < |s| ==> s[i].stability == VolatileSuffix
    ensures SectionsFor(s, StablePrefix) == [] && SectionsFor(s, VolatileSuffix) == Sections(s)
  {
    if s != [] { OnlyVolatile(s[1..]); }
  }

  /** The prompt of a sorted pack is its stable sections followed by its volatile ones. */
  lemma {:induction false} SectionsSplit(s: seq<Item>)
    requires SortedBy(s, ItemLe)
    ensures Sections(s) == SectionsFor(s, StablePrefix) + SectionsFor(s, VolatileSuffix)
  {
    if s != [] && s[0].stability == VolatileSuffix {
      VolatileFrom(s);
      OnlyVolatile(s);
    } else if s != [] {
      SectionsSplit(s[1..]);
      ConcatAssoc(if HasSection(s[0]) then [s[0].text.value] else [],
                  SectionsFor(s[1..], StablePrefix), SectionsFor(s[1..], VolatileSuffix));
    }
  }

  /** Every item with a visible text is a section, and nothing else is. */
  lemma {:induction false} SectionsMeaning(s: seq<Item>)
    ensures forall i :: 0 <= i < |s| && s[i].text.Some? && !IsBlank(s[i].text.value) ==> s[i].text.value in Sections(s)
    ensures forall x :: x in Sections(s) ==> !IsBlank(x) && exists i :: 0 <= i < |s| && s[i].text == Some(x)
    ensures |Sections(s)| == CountWhere(s, HasSection)
  {
    if s != [] {
      SectionsMeaning(s[1..]);
      forall x | x in Sections(s[1..]) ensures exists i :: 0 <= i < |s| && s[i].text == Some(x) {
        var i :| 0 <= i < |s[1..]| && s[1..][i].text == Some(x);
        assert s[i + 1].text == Some(x);
      }
      forall i | 0 < i < |s| && s[i].text.Some? && !IsBlank(s[i].text.value) ensures s[i].text.value in Sections(s) {
        assert s[1..][i - 1] == s[i];
      }
    }
  }

  lemma VolatileFrom(s: seq<Item>)
    requires SortedBy(s, ItemLe) && s != [] && s[0].stability == VolatileSuffix
    ensures forall i :: 0 <= i < |s| ==> s[i].stability == VolatileSuffix
  {
    forall i | 0 <= i < |s| ensures s[i].stability == VolatileSuffix {
      assert i == 0 || ItemLe(s[0], s[i]);
    }
  }

  // ---- The assembled pack --------------------------------------------------------------------------

  function Ids(s: seq<Item>): (r: seq<string>)
    ensures |r| == |s| && forall i :: 0 <= i < |s| ==> r[i] == s[i].id
  {
    seq(|s|, i requires 0 <= i < |s| => s[i].id)
  }

  function PackOf(items: seq<Item>, budget: Option<u32>): Pack {
    var p := Pick(SortBy(items, ItemLe), budget);
    Pack(budget, p.total, p.selected, Ids(p.omitted))
  }

  /** The same items in any insertion order give the same pack. */
  lemma PackIgnoresOrder(a: seq<Item>, b: seq<Item>, budget: Option<u32>)
    requires multiset(a) == multiset(b) && DistinctIds(a)
    ensures PackOf(a, budget) == PackOf(b, budget)
  {
    ItemOrder();
    ItemsSeparated(a);
    SortByPermutation(a, b, ItemLe);
  }

  /** What a pack promises about the items it was made from. */
  lemma PackMeaning(items: seq<Item>, budget: Option<u32>)
    ensures var p := PackOf(items, budget);
            && (exists left: seq<Item> ::
                  p.omitted == Ids(left) && multiset(p.items) + multiset(left) == multiset(items))
            && SortedBy(p.items, ItemLe)
            && Sections(p.items) == SectionsFor(p.items, StablePrefix) + SectionsFor(p.items, VolatileSuffix)
            && (budget.Some? && budget.value < U32_MAX ==> p.total == Sum(p.items) <= budget.value)
            && (budget.None? || budget.value == U32_MAX ==>
                  p.omitted == [] && p.total == Min(Sum(p.items), U32_MAX))
  {
    ItemOrder();
    SortBySorts(items, ItemLe);
    var s := SortBy(items, ItemLe);
    PickPartition(s, budget);
    PickKeepsOrder(s, budget);
    SectionsSplit(Pick(s, budget).selected);
    assert PackOf(items, budget).omitted == Ids(Pick(s, budget).omitted);
    if budget.Some? && budget.value < U32_MAX {
      PickExact(s, budget);
    } else {
      PickUnlimited(s, budget);
    }
  }

  /** Stable items come first; among equally stable ones, higher priority; then the smaller id. */
  lemma PackOrder(items: seq<Item>, budget: Option<u32>, i: nat, j: nat)
    requires i < j < |PackOf(items, budget).items|
    ensures var a, b := PackOf(items, budget).items[i], PackOf(items, budget).items[j];
            && (a.stability == VolatileSuffix ==> b.stability == VolatileSuffix)
            && (a.stability == b.stability ==> a.priority >= b.priority)
            && (a.stability == b.stability && a.priority == b.priority ==> LexLe(a.id, b.id))
  {
    PackMeaning(items, budget);
    assert ItemLe(PackOf(items, budget).items[i], PackOf(items, budget).items[j]);
  }

  /** The item at `i` fits beside the items selected before it. */
  predicate Chosen(s: seq<Item>, budget: u32, i: nat)
    requires i < |s|
  {
    Sum(SelectedBefore(s, Some(budget), i)) + s[i].tokens <= budget
  }

  lemma {:induction false} ChosenMeaning(s: seq<Item>, budget: u32, i: nat)
    requires DistinctIds(s) && i < |s| && budget < U32_MAX
    ensures s[i] in Pick(s, Some(budget)).selected <==> Chosen(s, budget, i)
    ensures s[i] in Pick(s, Some(budget)).omitted <==> !Chosen(s, budget, i)
  {
    var n := |s| - 1;
    var front := s[..n];
    PickPartition(front, Some(budget));
    PickDecision(s, Some(budget), n);
    assert s[..n + 1] == s;
    if i < n {
      assert front[..i] == s[..i];
      ChosenMeaning(front, budget, i);
    } else {
      NotIn(front, Pick(front, Some(budget)), s[n]);
    }
  }

  lemma NotIn(s: seq<Item>, p: Picked, item: Item)
    requires multiset(p.selected) + multiset(p.omitted) == multiset(s) && item !in s
    ensures item !in p.selected && item !in p.omitted
  {
    assert item !in multiset(s);
    assert multiset(s)[item] == multiset(p.selected)[item] + multiset(p.omitted)[item];
  }

  /** What is selected early is the beginning of what is selected in the end. */
  lemma {:induction false} SelectedPrefix(s: seq<Item>, budget: u32, i: nat)
    requires i < |s| && budget < U32_MAX
    ensures var before, all := SelectedBefore(s, Some(budget), i), Pick(s, Some(budget)).selected;
            && |before| <= |all| && all[..|before|] == before
            && (Chosen(s, budget, i) ==> |before| < |all| && all[|before|] == s[i])
  {
    var n := |s| - 1;
    PickDecision(s, Some(budget), n);
    assert s[..n + 1] == s;
    if i < n {
      assert s[..n][..i] == s[..i];
      SelectedPrefix(s[..n], budget, i);
    }
  }

  lemma {:induction false} SelectedGrows(s: seq<Item>, budget: u32, i: nat, j: nat)
    requires i <= j <= |s| && budget < U32_MAX
    ensures Sum(SelectedBefore(s, Some(budget), i)) <= Sum(SelectedBefore(s, Some(budget), j))
  {
    if i < j {
      SelectedGrows(s, budget, i, j - 1);
      SelectedGrowsOnce(s, budget, j - 1);
    }
  }

  lemma SelectedGrowsOnce(s: seq<Item>, budget: u32, j: nat)
    requires j < |s| && budget < U32_MAX
    ensures Sum(SelectedBefore(s, Some(budget), j)) <= Sum(SelectedBefore(s, Some(budget), j + 1))
  {
    PickDecision(s, Some(budget), j);
    SumAppend(SelectedBefore(s, Some(budget), j), s[j]);
  }

  lemma LaterPosition(s: seq<Item>, x: Item, y: Item) returns (i: nat, j: nat)
    requires SortedBy(s, ItemLe) && SeparatesElements(ItemLe, s) && x in s && y in s && x != y && ItemLe(x, y)
    ensures i < j < |s| && s[i] == x && s[j] == y
  {
    i :| 0 <= i < |s| && s[i] == x;
    j :| 0 <= j < |s| && s[j] == y;
    assert !ItemLe(y, x);
  }

  lemma SortedItems(items: seq<Item>)
    requires DistinctIds(items)
    ensures var s := SortBy(items, ItemLe); SortedBy(s, ItemLe) && SeparatesElements(ItemLe, s) && DistinctIds(s)
  {
    ItemOrder();
    ItemsSeparated(items);
    SortBySorts(items, ItemLe);
    SortedOnce(items, SortBy(items, ItemLe));
  }

  lemma SortedOnce(items: seq<Item>, s: seq<Item>)
    requires DistinctIds(items) && multiset(s) == multiset(items)
    ensures DistinctIds(s)
  {
    MultisetFacts(s, items);
    forall i, j | 0 <= i < j < |s| ensures s[i].id != s[j].id {
      if s[i].id == s[j].id {
        SameIdSameItem(items, s[i], s[j]);
        AtMostOnce(items, s[i]);
        TwiceCounted(s, i, j);
      }
    }
  }

  lemma OmittedBefore(s: seq<Item>, budget: u32, i: nat, j: nat)
    requires DistinctIds(s) && budget < U32_MAX && i < j < |s|
    requires s[i] !in Pick(s, Some(budget)).selected && s[j] in Pick(s, Some(budget)).selected
    ensures var all, k := Pick(s, Some(budget)).selected, |SelectedBefore(s, Some(budget), j)|;
            k < |all| && all[k] == s[j] && Sum(all[..k]) + s[i].tokens > budget && s[j].tokens < s[i].tokens
  {
    ChosenMeaning(s, budget, i);
    ChosenMeaning(s, budget, j);
    SelectedPrefix(s, budget, j);
    SmallerFits(s, budget, i, j);
  }

  lemma SmallerFits(s: seq<Item>, budget: u32, i: nat, j: nat)
    requires budget < U32_MAX && i < j < |s| && !Chosen(s, budget, i) && Chosen(s, budget, j)
    ensures Sum(SelectedBefore(s, Some(budget), j)) + s[i].tokens > budget && s[j].tokens < s[i].tokens
  {
    SelectedGrows(s, budget, i, j);
  }

  /**
   An item is left out only because it does not fit: put in the place of any selected item that
   comes after it, it would overflow the budget, so that item is smaller.
   */
  lemma OmittedForCause(items: seq<Item>, budget: u32, x: Item, y: Item) returns (k: nat)
    requires DistinctIds(items) && budget < U32_MAX && x in items && x !in PackOf(items, Some(budget)).items
    requires y in PackOf(items, Some(budget)).items && ItemLe(x, y)
    ensures var p := PackOf(items, Some(budget));
            k < |p.items| && p.items[k] == y && Sum(p.items[..k]) + x.tokens > budget && y.tokens < x.tokens
  {
    var s := SortBy(items, ItemLe);
    SortedItems(items);
    PickKeepsOrder(s, Some(budget));
    var i, j := LaterPosition(s, x, y);
    OmittedBefore(s, budget, i, j);
    k := |SelectedBefore(s, Some(budget), j)|;
  }

  // ---- The assembler ---------------------------------------------------------------------------------

  predicate BlankText(item: Item) { item.text.Some? && IsBlank(item.text.value) }

  function NotBlank(): Item -> bool {
    (item: Item) => !BlankText(item)
  }

  /** The items that adding `offers` one after the other leaves in the assembler. */
  function Accepted(offers: seq<Item>): seq<Item> {
    if offers == [] then [] else
    var front, item := offers[..|offers| - 1], offers[|offers| - 1];
    Accepted(front) + (if item.id in Ids(front) || BlankText(item) then [] else [item])
  }

  lemma LastIdIsNew(offers: seq<Item>)
    requires offers != [] && DistinctIds(offers)
    ensures offers[|offers| - 1].id !in Ids(offers[..|offers| - 1]) && DistinctIds(offers[..|offers| - 1])
    ensures offers == offers[..|offers| - 1] + [offers[|offers| - 1]]
  {
  }

  lemma {:induction false} AcceptedDistinct(offers: seq<Item>)
    requires DistinctIds(offers)
    ensures Accepted(offers) == Filter(offers, NotBlank())
  {
    if offers != [] {
      var front, item := offers[..|offers| - 1], offers[|offers| - 1];
      AcceptedDistinct(front);
      LastIdIsNew(offers);
      FilterLast(front, item, NotBlank());
    }
  }

  lemma {:induction false} AcceptedSound(offers: seq<Item>)
    ensures DistinctIds(Accepted(offers))
    ensures forall x :: x in Accepted(offers) ==> x in offers && !BlankText(x)
  {
    if offers != [] {
      var front, item := offers[..|offers| - 1], offers[|offers| - 1];
      AcceptedSound(front);
      var rest := Accepted(front);
      if item.id !in Ids(front) {
        forall i | 0 <= i < |rest| ensures rest[i].id != item.id {
          assert rest[i] in front;
          var j :| 0 <= j < |front| && front[j] == rest[i];
          assert Ids(front)[j] == rest[i].id;
        }
      }
    }
  }

  /** Offering the same differently named items in another order gives the same pack. */
  lemma OffersIgnoreOrder(a: seq<Item>, b: seq<Item>, budget: Option<u32>)
    requires multiset(a) == multiset(b) && DistinctIds(a) && DistinctIds(b)
    ensures PackOf(Accepted(a), budget) == PackOf(Accepted(b), budget)
  {
    AcceptedDistinct(a);
    AcceptedDistinct(b);
    forall x ensures multiset(Accepted(a))[x] == multiset(Accepted(b))[x] {
      FilterMultiplicity(a, NotBlank(), x);
      FilterMultiplicity(b, NotBlank(), x);
    }
    AcceptedSound(a);
    PackIgnoresOrder(Accepted(a), Accepted(b), budget);
  }

  /** Two offers under one id are not interchangeable: the first one wins. */
  lemma FirstOfferWins(x: Item, y: Item)
    requires x.id == y.id && x != y && !BlankText(x) && !BlankText(y)
    ensures Accepted([x, y]) == [x] && Accepted([y, x]) == [y]
  {
    assert [x, y][..1] == [x] && [y, x][..1] == [y];
    assert Accepted([x][..0]) == [] && Accepted([y][..0]) == [];
    assert Ids([x]) == [x.id] && Ids([y]) == [y.id];
  }

  lemma PickStep(s: seq<Item>, budget: Option<u32>, i: nat)
    requires i < |s|
    ensures Pick(s[..i + 1], budget) == PickNext(Pick(s[..i], budget), budget, s[i])
  {
    assert s[..i + 1][..i] == s[..i];
  }

  class ContextAssembler {
    const budget: Option<u32>
    var items: seq<Item>
    var seenIds: set<string>
    ghost var offers: seq<Item>

    ghost predicate Valid()
      reads this
    {
      && items == Accepted(offers)
      && (forall id :: id in seenIds <==> id in Ids(offers))
    }

    constructor (budget: Option<u32>)
      ensures Valid() && this.budget == budget && offers == []
    {
      this.budget := budget;
      items, seenIds, offers := [], {}, [];
    }

    /** A repeated id is an error; an item with a blank text uses its id up but is not kept. */
    method Add(item: Item) returns (r: Result<(), string>)
      requires Valid()
      modifies this
      ensures Valid() && offers == old(offers) + [item]
      ensures r == if item.id in old(seenIds) then Err(item.id) else Ok(())
      ensures seenIds == old(seenIds) + {item.id}
    {
      offers := offers + [item];
      assert offers[..|offers| - 1] == old(offers);
      assert Ids(offers) == Ids(old(offers)) + [item.id];
      if item.id in seenIds { return Err(item.id); }
      seenIds := seenIds + {item.id};
      if item.text.Some? && IsBlank(item.text.value) { return Ok(()); }
      items := items + [item];
      return Ok(());
    }

    method Assemble() returns (pack: Pack)
      requires Valid()
      ensures pack == PackOf(Accepted(offers), budget)
    {
      var sorted := SortBy(items, ItemLe);
      var selected: seq<Item>, omitted: seq<string>, total: u32 := [], [], 0;
      ghost var left: seq<Item> := [];
      for i := 0 to |sorted|
        invariant Picked(selected, left, total) == Pick(sorted[..i], budget)
        invariant omitted == Ids(left)
      {
        PickStep(sorted, budget, i);
        var item := sorted[i];
        var nextTotal := SaturatingAdd(total, item.tokens);
        if budget.Some? && nextTotal > budget.value {
          omitted, left := omitted + [item.id], left + [item];
        } else {
          total := nextTotal;
          selected := selected + [item];
        }
      }
      assert sorted[..|sorted|] == sorted;
      pack := Pack(budget, total, selected, omitted);
    }
  }
}
