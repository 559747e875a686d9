/**
 The durable run-event ledger: atomic batches, the closed flag computed in SQL,
 and recovery pages against a frozen high-water mark.
 */
module RunLedger {
  import opened Prelude
  import opened RunEvents

  const MAX_SQLITE_INTEGER: nat := 0x7FFF_FFFF_FFFF_FFFF
  const MAX_PAGE: nat := 4096

  datatype LedgerError = InvalidEvent | SequenceTooLarge | DuplicateKey | CursorOutOfRange | InvalidRow

  datatype Page = Page(events: seq<RunEvent>, highWater: nat, nextAfter: Option<nat>, hasMore: bool)

  /** Rows of one run in the order of their key. */
  ghost predicate Ascending(s: seq<RunEvent>) {
    forall i, j :: 0 <= i < j < |s| ==> s[i].seqNo < s[j].seqNo
  }

  // ---- The queries --------------------------------------------------------------

  /** `SELECT ... WHERE event_seq > after AND event_seq <= upTo ORDER BY event_seq`. */
  function Between(s: seq<RunEvent>, after: int, upTo: int): seq<RunEvent> {
    if s == [] then [] else
    (if after < s[0].seqNo <= upTo then [s[0]] else []) + Between(s[1..], after, upTo)
  }

  /** `COALESCE(MAX(event_seq), 0)`. */
  function Head(s: seq<RunEvent>): nat { if s == [] then 0 else s[|s| - 1].seqNo }

  /** The row satisfies the terminal condition of the head query. */
  predicate SqlTerminalRow(e: RunEvent) {
    || WireName(e.kind) == "error"
    || (WireName(e.kind) == "done" && (if e.status.Some? then e.status.value else "") != "paused")
  }

  predicate TerminalTaskStatus(status: string) {
    status in {"completed", "failed", "timed_out", "cancelled"}
  }

  /** The closed column of the head query. */
  predicate SqlClosed(s: seq<RunEvent>, task: Option<string>) {
    (exists i :: 0 <= i < |s| && SqlTerminalRow(s[i])) || (task.Some? && TerminalTaskStatus(task.value))
  }

  /** The SQL flag is the protocol's own notion of a closed run. */
  lemma ClosedFlagMeaning(s: seq<RunEvent>, task: Option<string>)
    ensures SqlClosed(s, task) <==>
      (exists i :: 0 <= i < |s| && ClosesRun(s[i])) || (task.Some? && TerminalTaskStatus(task.value))
  {
    forall e: RunEvent ensures SqlTerminalRow(e) <==> ClosesRun(e) {
      assert WireName(e.kind) == "error" <==> e.kind == Error by {
        assert |WireName(e.kind)| == 5 ==> e.kind == Error;
      }
      assert WireName(e.kind) == "done" <==> e.kind == Done by {
        assert |WireName(e.kind)| == 4 ==> e.kind == Done;
      }
    }
  }

  // ---- Inserting ------------------------------------------------------------------

  /** Inserts a row at its key position; the primary key refuses a second row. */
  function InsertRow(s: seq<RunEvent>, e: RunEvent): (r: Option<seq<RunEvent>>)
    ensures r.Some? ==> multiset(r.value) == multiset(s) + multiset{e}
  {
    if s == [] || e.seqNo < s[0].seqNo then Some([e] + s)
    else if e.seqNo == s[0].seqNo then None
    else
      assert s == [s[0]] + s[1..];
      match InsertRow(s[1..], e)
      case None => None
      case Some(rest) => Some([s[0]] + rest)
  }

  lemma {:induction false} InsertKeepsAscending(s: seq<RunEvent>, e: RunEvent)
    requires Ascending(s) && InsertRow(s, e).Some?
    ensures Ascending(InsertRow(s, e).value)
  {
    if s != [] && s[0].seqNo < e.seqNo {
      var rest := InsertRow(s[1..], e).value;
      InsertKeepsAscending(s[1..], e);
      forall j | 0 <= j < |rest| ensures s[0].seqNo < rest[j].seqNo {
        assert rest[j] in multiset(rest);
        assert rest[j] == e || rest[j] in s[1..];
      }
    }
  }

  /** The key refuses exactly the sequence numbers that are taken. */
  lemma {:induction false} InsertRefusesTakenKeys(s: seq<RunEvent>, e: RunEvent)
    requires Ascending(s)
    ensures InsertRow(s, e).None? <==> exists i :: 0 <= i < |s| && s[i].seqNo == e.seqNo
  {
    if s != [] && s[0].seqNo < e.seqNo {
      InsertRefusesTakenKeys(s[1..], e);
      if i :| 0 <= i < |s| && s[i].seqNo == e.seqNo { assert s[1..][i - 1] == s[i]; }
      if i :| 0 <= i < |s| - 1 && s[1..][i].seqNo == e.seqNo { assert s[i + 1] == s[1..][i]; }
    }
  }

  /** A row above `upTo` changes no selection up to `upTo`. */
  lemma {:induction false} InsertAboveInvisible(s: seq<RunEvent>, e: RunEvent, after: int, upTo: int)
    requires InsertRow(s, e).Some? && e.seqNo > upTo
    ensures Between(InsertRow(s, e).value, after, upTo) == Between(s, after, upTo)
  {
    if s == [] || e.seqNo < s[0].seqNo {
      assert ([e] + s)[1..] == s;
    } else {
      var rest := InsertRow(s[1..], e).value;
      assert ([s[0]] + rest)[1..] == rest;
      InsertAboveInvisible(s[1..], e, after, upTo);
    }
  }

  /** An append never reopens a closed run. */
  lemma ClosedStaysClosed(s: seq<RunEvent>, e: RunEvent, task: Option<string>)
    requires InsertRow(s, e).Some? && SqlClosed(s, task)
    ensures SqlClosed(InsertRow(s, e).value, task)
  {
    var t := InsertRow(s, e).value;
    if i :| 0 <= i < |s| && SqlTerminalRow(s[i]) {
      assert s[i] in multiset(t);
      var k :| 0 <= k < |t| && t[k] == s[i];
      assert SqlTerminalRow(t[k]);
    }
  }

  // ---- Pages ---------------------------------------------------------------------

  lemma {:induction false} BetweenIn(s: seq<RunEvent>, after: int, upTo: int, e: RunEvent)
    ensures e in Between(s, after, upTo) <==> e in s && after < e.seqNo <= upTo
  {
    if s != [] {
      BetweenIn(s[1..], after, upTo, e);
      assert s == [s[0]] + s[1..];
    }
  }

  /** Selected rows lie in the range, and above any bound that all rows lie above. */
  lemma {:induction false} BetweenRange(s: seq<RunEvent>, after: int, upTo: int, floor: int)
    requires forall i :: 0 <= i < |s| ==> s[i].seqNo > floor
    ensures forall i :: 0 <= i < |Between(s, after, upTo)| ==>
      floor < Between(s, after, upTo)[i].seqNo && after < Between(s, after, upTo)[i].seqNo <= upTo
  {
    if s != [] { BetweenRange(s[1..], after, upTo, floor); }
  }

  lemma {:induction false} BetweenAscending(s: seq<RunEvent>, after: int, upTo: int)
    requires Ascending(s)
    ensures Ascending(Between(s, after, upTo))
  {
    if s != [] {
      BetweenAscending(s[1..], after, upTo);
      BetweenRange(s[1..], after, upTo, s[0].seqNo);
    }
  }

  lemma BetweenMembers(s: seq<RunEvent>, after: int, upTo: int)
    requires Ascending(s)
    ensures Ascending(Between(s, after, upTo))
    ensures forall e :: e in Between(s, after, upTo) <==> e in s && after < e.seqNo <= upTo
  {
    BetweenAscending(s, after, upTo);
    forall e ensures e in Between(s, after, upTo) <==> e in s && after < e.seqNo <= upTo {
      BetweenIn(s, after, upTo, e);
    }
  }

  /** A floor below every row can be raised to just below the first one. */
  lemma {:induction false} RaisingTheFloor(s: seq<RunEvent>, after: int, floor: int, upTo: int)
    requires forall i :: 0 <= i < |s| ==> s[i].seqNo > floor
    requires after <= floor
    ensures Between(s, floor, upTo) == Between(s, after, upTo)
  {
    if s != [] { RaisingTheFloor(s[1..], after, floor, upTo); }
  }

  /** Resuming after the `k`-th selected row selects exactly the rows that follow it. */
  lemma {:induction false} ResumeAfter(s: seq<RunEvent>, after: int, upTo: int, k: nat)
    requires Ascending(s) && 0 < k <= |Between(s, after, upTo)|
    ensures after < Between(s, after, upTo)[k - 1].seqNo <= upTo
    ensures Between(s, Between(s, after, upTo)[k - 1].seqNo, upTo) == Between(s, after, upTo)[k..]
  {
    var rest := Between(s[1..], after, upTo);
    BetweenRange(s[1..], after, upTo, s[0].seqNo);
    if !(after < s[0].seqNo <= upTo) {
      ResumeAfter(s[1..], after, upTo, k);
    } else if k == 1 {
      RaisingTheFloor(s[1..], after, s[0].seqNo, upTo);
    } else {
      ResumeAfter(s[1..], after, upTo, k - 1);
      assert ([s[0]] + rest)[k - 1] == rest[k - 2];
      assert ([s[0]] + rest)[k..] == rest[k - 1..];
    }
  }

  lemma {:induction false} BetweenAppend(a: seq<RunEvent>, b: seq<RunEvent>, after: int, upTo: int)
    ensures Between(a + b, after, upTo) == Between(a, after, upTo) + Between(b, after, upTo)
  {
    if a == [] {
      assert a + b == b;
    } else {
      assert (a + b)[1..] == a[1..] + b;
      BetweenAppend(a[1..], b, after, upTo);
    }
  }

  function Take(s: seq<RunEvent>, n: nat): seq<RunEvent> { if |s| <= n then s else s[..n] }

  /** Event `i` is the first that cannot be stored. */
  ghost predicate FirstBad(events: seq<RunEvent>, contract: RunEvent -> bool, i: nat) {
    i < |events| && !Storable(events[i], contract) && forall j :: 0 <= j < i ==> Storable(events[j], contract)
  }

  /** The checks a batch passes before anything is written. */
  method CheckBatch(events: seq<RunEvent>, contract: RunEvent -> bool) returns (failure: Option<LedgerError>)
    ensures failure.None? <==> forall i :: 0 <= i < |events| ==> Storable(events[i], contract)
    ensures failure.Some? ==> exists i: nat :: FirstBad(events, contract, i)
    ensures forall i: nat :: FirstBad(events, contract, i) ==>
      failure == Some(if contract(events[i]) then SequenceTooLarge else InvalidEvent)
  {
    var i := 0;
    while i < |events|
      invariant 0 <= i <= |events|
      invariant forall j :: 0 <= j < i ==> Storable(events[j], contract)
    {
      if !contract(events[i]) {
        assert FirstBad(events, contract, i);
        return Some(InvalidEvent);
      }
      if events[i].seqNo > MAX_SQLITE_INTEGER {
        assert FirstBad(events, contract, i);
        return Some(SequenceTooLarge);
      }
      i := i + 1;
    }
    return None;
  }

  /** The bounded select: rows in key order until the limit is reached. */
  method SelectRows(s: seq<RunEvent>, after: int, upTo: int, limit: nat) returns (events: seq<RunEvent>)
    ensures events == Take(Between(s, after, upTo), limit)
  {
    events := [];
    var i := 0;
    while i < |s| && |events| < limit
      invariant 0 <= i <= |s| && events == Between(s[..i], after, upTo) && |events| <= limit
    {
      assert s[..i + 1] == s[..i] + [s[i]];
      BetweenAppend(s[..i], [s[i]], after, upTo);
      if after < s[i].seqNo <= upTo { events := events + [s[i]]; }
      i := i + 1;
    }
    assert s == s[..i] + s[i..];
    BetweenAppend(s[..i], s[i..], after, upTo);
  }

  ghost predicate AllMeet(events: seq<RunEvent>, contract: RunEvent -> bool) {
    forall i :: 0 <= i < |events| ==> contract(events[i])
  }

  /** The reader checks every row again. */
  method CheckRows(events: seq<RunEvent>, contract: RunEvent -> bool) returns (ok: bool)
    ensures ok <==> AllMeet(events, contract)
  {
    for i := 0 to |events|
      invariant forall j :: 0 <= j < i ==> contract(events[j])
    {
      if !contract(events[i]) { return false; }
    }
    return true;
  }

  /** What is selected from rows that were stored through the checks passes the reader's check. */
  lemma ValidRowsRead(run: string, s: seq<RunEvent>, after: int, upTo: int, n: nat, contract: RunEvent -> bool)
    requires ValidRows(run, s, contract)
    ensures AllMeet(Take(Between(s, after, upTo), n), contract)
  {
    var events := Take(Between(s, after, upTo), n);
    forall i | 0 <= i < |events| ensures contract(events[i]) {
      assert events[i] in Between(s, after, upTo);
      BetweenIn(s, after, upTo, events[i]);
      var j :| 0 <= j < |s| && s[j] == events[i];
      assert Storable(s[j], contract);
    }
  }

  // ---- The table ---------------------------------------------------------------

  /** The rows of every run, by run id. */
  type Table = map<string, seq<RunEvent>>

  function RowsOf(t: Table, run: string): seq<RunEvent> { if run in t then t[run] else [] }

  /** A row that a checked batch can leave in the table. */
  predicate Storable(e: RunEvent, contract: RunEvent -> bool) { e.seqNo <= MAX_SQLITE_INTEGER && contract(e) }

  ghost predicate ValidRows(run: string, s: seq<RunEvent>, contract: RunEvent -> bool) {
    Ascending(s) && forall i :: 0 <= i < |s| ==> s[i].runId == run && Storable(s[i], contract)
  }

  ghost predicate ValidTable(t: Table, contract: RunEvent -> bool) { forall r :: r in t ==> ValidRows(r, t[r], contract) }

  function InsertInto(t: Table, e: RunEvent): Option<Table> {
    match InsertRow(RowsOf(t, e.runId), e)
    case None => None
    case Some(s) => Some(t[e.runId := s])
  }

  lemma InsertIntoRows(t: Table, e: RunEvent, contract: RunEvent -> bool)
    requires ValidTable(t, contract) && Storable(e, contract) && InsertInto(t, e).Some?
    ensures var u := InsertInto(t, e).value;
            && ValidTable(u, contract)
            && (forall run, x :: x in RowsOf(u, run) <==> x in RowsOf(t, run) || (x == e && run == e.runId))
  {
    var s := RowsOf(t, e.runId);
    var s' := InsertRow(s, e).value;
    var u := InsertInto(t, e).value;
    InsertKeepsAscending(s, e);
    InsertedRows(s, e, s');
    assert forall i :: 0 <= i < |s'| ==> s'[i] in s';
    assert ValidRows(e.runId, s', contract);
  }

  lemma InsertedRows(s: seq<RunEvent>, e: RunEvent, t: seq<RunEvent>)
    requires multiset(t) == multiset(s) + multiset{e}
    ensures forall x :: x in t <==> x in s || x == e
  {
    forall x ensures x in t <==> x in s || x == e {
      assert x in t <==> x in multiset(t);
      assert x in s <==> x in multiset(s);
    }
  }

  /** Up to `mark`, the rows of `run` read the same in both tables. */
  ghost predicate SameUpTo(t: Table, u: Table, run: string, mark: int) {
    forall after: int :: Between(RowsOf(u, run), after, mark) == Between(RowsOf(t, run), after, mark)
  }

  ghost predicate AppendsAbove(events: seq<RunEvent>, run: string, mark: int) {
    forall i :: 0 <= i < |events| && events[i].runId == run ==> events[i].seqNo > mark
  }

  lemma InsertIntoSameUpTo(t: Table, e: RunEvent, run: string, mark: int)
    requires InsertInto(t, e).Some? && (e.runId == run ==> e.seqNo > mark)
    ensures SameUpTo(t, InsertInto(t, e).value, run, mark)
  {
    if e.runId == run {
      forall after: int
        ensures Between(RowsOf(InsertInto(t, e).value, run), after, mark)
             == Between(RowsOf(t, run), after, mark)
      {
        InsertAboveInvisible(RowsOf(t, run), e, after, mark);
      }
    }
  }

  /** All rows of a batch, or none: a taken key refuses the whole batch. */
  function InsertAll(t: Table, events: seq<RunEvent>): Option<Table>
    decreases |events|
  {
    if events == [] then Some(t) else
    match InsertInto(t, events[0])
    case None => None
    case Some(u) => InsertAll(u, events[1..])
  }

  /** A stored batch adds exactly its own events, each to its run. */
  lemma {:induction false} InsertAllRows(t: Table, events: seq<RunEvent>, contract: RunEvent -> bool)
    requires ValidTable(t, contract) && InsertAll(t, events).Some?
    requires forall i :: 0 <= i < |events| ==> Storable(events[i], contract)
    ensures var u := InsertAll(t, events).value;
            && ValidTable(u, contract)
            && (forall run, x :: x in RowsOf(u, run) <==> x in RowsOf(t, run) || (x in events && x.runId == run))
    decreases |events|
  {
    if events != [] {
      var t' := InsertInto(t, events[0]).value;
      InsertIntoRows(t, events[0], contract);
      InsertAllRows(t', events[1..], contract);
      assert events == [events[0]] + events[1..];
    }
  }

  /** The row of this run and number exists already. */
  ghost predicate Taken(t: Table, e: RunEvent) {
    exists x :: x in RowsOf(t, e.runId) && x.seqNo == e.seqNo
  }

  predicate SameKey(a: RunEvent, b: RunEvent) { a.runId == b.runId && a.seqNo == b.seqNo }

  /** The batch names every pair of run and number once, and none that exists already. */
  ghost predicate KeysFree(t: Table, events: seq<RunEvent>) {
    && (forall i, j :: 0 <= i < j < |events| ==> !SameKey(events[i], events[j]))
    && (forall i :: 0 <= i < |events| ==> !Taken(t, events[i]))
  }

  lemma InsertIntoPossible(t: Table, e: RunEvent, contract: RunEvent -> bool)
    requires ValidTable(t, contract)
    ensures InsertInto(t, e).Some? <==> !Taken(t, e)
  {
    var s := RowsOf(t, e.runId);
    InsertRefusesTakenKeys(s, e);
    if i :| 0 <= i < |s| && s[i].seqNo == e.seqNo { assert s[i] in s; }
  }

  lemma KeysFreeTail(t: Table, u: Table, events: seq<RunEvent>)
    requires events != []
    requires forall run, x :: x in RowsOf(u, run) <==> x in RowsOf(t, run) || (x == events[0] && run == events[0].runId)
    requires !Taken(t, events[0])
    ensures KeysFree(t, events) <==> KeysFree(u, events[1..])
  {
    var rest := events[1..];
    forall e ensures Taken(u, e) <==> Taken(t, e) || SameKey(events[0], e) {
      if SameKey(events[0], e) { assert events[0] in RowsOf(u, e.runId); }
      if x :| x in RowsOf(t, e.runId) && x.seqNo == e.seqNo { assert x in RowsOf(u, e.runId); }
    }
    assert forall i :: 0 <= i < |rest| ==> rest[i] == events[i + 1];
    if KeysFree(u, rest) {
      forall i | 0 <= i < |events| ensures !Taken(t, events[i]) {
        if i > 0 { assert !Taken(u, rest[i - 1]); }
      }
      forall i, j | 0 <= i < j < |events| ensures !SameKey(events[i], events[j]) {
        if i > 0 { assert !SameKey(rest[i - 1], rest[j - 1]); } else { assert !Taken(u, rest[j - 1]); }
      }
    }
  }

  /** A checked batch can be stored exactly when its keys are free and distinct. */
  lemma {:induction false} InsertAllPossible(t: Table, events: seq<RunEvent>, contract: RunEvent -> bool)
    requires ValidTable(t, contract) && (forall i :: 0 <= i < |events| ==> Storable(events[i], contract))
    ensures InsertAll(t, events).Some? <==> KeysFree(t, events)
    decreases |events|
  {
    if events != [] {
      InsertIntoPossible(t, events[0], contract);
      if !Taken(t, events[0]) {
        InsertIntoRows(t, events[0], contract);
        var u := InsertInto(t, events[0]).value;
        InsertAllPossible(u, events[1..], contract);
        KeysFreeTail(t, u, events);
      }
    }
  }

  ghost predicate AllStorable(events: seq<RunEvent>, contract: RunEvent -> bool) {
    forall i :: 0 <= i < |events| ==> Storable(events[i], contract)
  }

  /** What saving a batch leaves. */
  ghost function Saved(t: Table, events: seq<RunEvent>, contract: RunEvent -> bool): Table {
    if AllStorable(events, contract) && InsertAll(t, events).Some? then InsertAll(t, events).value else t
  }

  /** `u` has the rows of `t` and the events, each under its run. */
  ghost predicate AddsExactly(t: Table, u: Table, events: seq<RunEvent>) {
    forall run, x :: x in RowsOf(u, run) <==> x in RowsOf(t, run) || (x in events && x.runId == run)
  }

  lemma SaveChecked(t: Table, events: seq<RunEvent>, contract: RunEvent -> bool)
    requires ValidTable(t, contract) && AllStorable(events, contract)
    ensures InsertAll(t, events).Some? <==> KeysFree(t, events)
    ensures InsertAll(t, events).Some? ==> AddsExactly(t, InsertAll(t, events).value, events)
  {
    InsertAllPossible(t, events, contract);
    if InsertAll(t, events).Some? { InsertAllRows(t, events, contract); }
  }

  ghost function SavedAll(t: Table, batches: seq<seq<RunEvent>>, contract: RunEvent -> bool): Table {
    if batches == [] then t
    else Saved(SavedAll(t, batches[..|batches| - 1], contract), batches[|batches| - 1], contract)
  }

  lemma SavedOneMore(t: Table, batches: seq<seq<RunEvent>>, k: nat, contract: RunEvent -> bool)
    requires k < |batches|
    ensures SavedAll(t, batches[..k + 1], contract) == Saved(SavedAll(t, batches[..k], contract), batches[k], contract)
  {
    assert batches[..k + 1][..k] == batches[..k];
  }

  lemma {:induction false} InsertAllSameUpTo(t: Table, events: seq<RunEvent>, run: string, mark: int)
    requires InsertAll(t, events).Some? && AppendsAbove(events, run, mark)
    ensures SameUpTo(t, InsertAll(t, events).value, run, mark)
    decreases |events|
  {
    if events != [] {
      InsertIntoSameUpTo(t, events[0], run, mark);
      InsertAllSameUpTo(InsertInto(t, events[0]).value, events[1..], run, mark);
    }
  }

  /** `page` shows the first `n` of `all` and says whether and where to go on. */
  ghost predicate IsPage(page: Page, all: seq<RunEvent>, n: nat) {
    && page.events == Take(all, n)
    && (page.hasMore <==> |all| > n)
    && (page.events == [] ==> page.nextAfter == None)
    && (page.events != [] ==> page.nextAfter == Some(page.events[|page.events| - 1].seqNo))
  }

  /** What a page adds to the events received so far. */
  lemma GrowPrefix(all: seq<RunEvent>, k: nat, page: Page, n: nat)
    requires k < |all| && n > 0 && IsPage(page, all[k..], n)
    ensures var k' := k + |page.events|;
            && k < k' <= |all| && all[..k] + page.events == all[..k']
            && (page.hasMore <==> k' < |all|)
            && page.nextAfter == Some(all[k' - 1].seqNo)
  {
    var k' := k + |page.events|;
    assert all[..k] + page.events == all[..k'];
    assert page.events[|page.events| - 1] == all[k' - 1];
  }

  /** The events received so far are a prefix of all, and the page says whether and where to go on. */
  ghost predicate Progress(all: seq<RunEvent>, events: seq<RunEvent>, page: Page) {
    && |events| <= |all| && events == all[..|events|]
    && (page.hasMore <==> |events| < |all|)
    && (page.hasMore ==> |events| > 0 && page.nextAfter == Some(all[|events| - 1].seqNo))
  }

  lemma ProgressFirst(all: seq<RunEvent>, page: Page, n: nat)
    requires n > 0 && IsPage(page, all, n)
    ensures Progress(all, page.events, page)
  {
  }

  lemma ProgressNext(all: seq<RunEvent>, events: seq<RunEvent>, before: Page, page: Page, n: nat)
    requires Progress(all, events, before) && before.hasMore && n > 0 && IsPage(page, all[|events|..], n)
    ensures Progress(all, events + page.events, page) && page.events != []
  {
    GrowPrefix(all, |events|, page, n);
  }

  lemma HeadBounds(s: seq<RunEvent>)
    requires Ascending(s)
    ensures forall e :: e in s ==> e.seqNo <= Head(s)
  {
  }

  /** The ledger table and the task rows that can close a run without an event. */
  class Ledger {
    var rows: Table
    var tasks: map<string, string>
    const contract: RunEvent -> bool  // what writer and reader check of every row

    constructor ()
      ensures Valid() && rows == map[] && tasks == map[] && contract == DurableContract
    {
      rows, tasks, contract := map[], map[], DurableContract;
    }

    ghost predicate Valid()
      reads this
    {
      ValidTable(rows, contract)
    }

    function Of(run: string): seq<RunEvent>
      reads this
    {
      RowsOf(rows, run)
    }

    /** Head sequence and closed flag of a run. */
    method EventHead(run: string) returns (head: nat, closed: bool)
      requires Valid()
      ensures head == Head(Of(run)) && head <= MAX_SQLITE_INTEGER
      ensures forall e :: e in Of(run) ==> e.seqNo <= head
      ensures closed <==>
        (exists i :: 0 <= i < |Of(run)| && ClosesRun(Of(run)[i]))
        || (run in tasks && tasks[run] in {"completed", "failed", "timed_out", "cancelled"})
    {
      var s := Of(run);
      var task := if run in tasks then Some(tasks[run]) else None;
      head := Head(s);
      closed := SqlClosed(s, task);
      ClosedFlagMeaning(s, task);
    }

    /** One transaction: every event is checked first, and a taken key rolls all back. */
    method SaveBatch(events: seq<RunEvent>) returns (r: Result<(), LedgerError>)
      requires Valid()
      modifies this`rows
      ensures Valid()
      ensures r.Ok? <==> AllStorable(events, contract) && KeysFree(old(rows), events)
      ensures r == Err(DuplicateKey) <==> AllStorable(events, contract) && !KeysFree(old(rows), events)
      ensures forall i: nat :: FirstBad(events, contract, i) ==>
        r == Err(if contract(events[i]) then SequenceTooLarge else InvalidEvent)
      ensures rows == Saved(old(rows), events, contract)
      ensures r.Err? ==> rows == old(rows)
      ensures r.Ok? ==> AddsExactly(old(rows), rows, events)
    {
      var failure := CheckBatch(events, contract);
      if failure.Some? { return Err(failure.value); }
      SaveChecked(rows, events, contract);
      var ok := InsertBatch(events);
      return if ok then Ok(()) else Err(DuplicateKey);
    }

    method InsertBatch(events: seq<RunEvent>) returns (ok: bool)
      requires Valid() && forall i :: 0 <= i < |events| ==> Storable(events[i], contract)
      modifies this`rows
      ensures Valid()
      ensures ok <==> InsertAll(old(rows), events).Some?
      ensures rows == if ok then InsertAll(old(rows), events).value else old(rows)
    {
      var table, i := rows, 0;
      while i < |events|
        invariant 0 <= i <= |events| && rows == old(rows)
        invariant InsertAll(rows, events) == InsertAll(table, events[i..])
      {
        assert events[i..][0] == events[i] && events[i..][1..] == events[i + 1..];
        match InsertInto(table, events[i])
        case None => return false;
        case Some(next) => table := next;
        i := i + 1;
      }
      assert events[i..] == [];
      InsertAllRows(rows, events, contract);
      rows := table;
      return true;
    }

    /** The select of the recovery queries; a cursor beyond SQLite's range, or a row that breaks its contract, is an error. */
    method ListFrom(run: string, after: nat, upTo: nat, limit: nat)
      returns (r: Result<seq<RunEvent>, LedgerError>)
      ensures r == Err(CursorOutOfRange) <==> after > MAX_SQLITE_INTEGER || upTo > MAX_SQLITE_INTEGER
      ensures r == Err(InvalidRow) <==>
        && after <= MAX_SQLITE_INTEGER && upTo <= MAX_SQLITE_INTEGER
        && !AllMeet(Take(Between(Of(run), after, upTo), limit), contract)
      ensures r.Err? ==> r.error == CursorOutOfRange || r.error == InvalidRow
      ensures r.Ok? ==> r.value == Take(Between(Of(run), after, upTo), limit)
    {
      if after > MAX_SQLITE_INTEGER || upTo > MAX_SQLITE_INTEGER { return Err(CursorOutOfRange); }
      var events := SelectRows(Of(run), after, upTo, limit);
      var ok := CheckRows(events, contract);
      return if ok then Ok(events) else Err(InvalidRow);
    }

    /** One recovery page; the first request freezes the current head. */
    method EventPage(run: string, after: nat, frozen: Option<nat>, limit: nat)
      returns (r: Result<Page, LedgerError>)
      requires Valid()
      ensures r.Err? <==>
        after > MAX_SQLITE_INTEGER || (frozen.Some? && frozen.value > MAX_SQLITE_INTEGER)
      ensures r.Ok? ==>
        IsPage(r.value, Between(Of(run), after, r.value.highWater), Clamp(limit, 1, MAX_PAGE))
        && r.value.highWater == if frozen.Some? then frozen.value else Head(Of(run))
    {
      var h: nat;
      if frozen.Some? {
        h := frozen.value;
      } else {
        var closed;
        h, closed := EventHead(run);
      }
      var n := Clamp(limit, 1, MAX_PAGE);
      RowsRead(run, after, h, n + 1);
      var fetched := ListFrom(run, after, h, n + 1);
      if fetched.Err? { return Err(fetched.error); }
      var events := fetched.value;
      var hasMore := |events| > n;
      if hasMore { events := events[..n]; }
      return Ok(Page(events, h, if events == [] then None else Some(events[|events| - 1].seqNo), hasMore));
    }

    /** The page after `k` events of `all` have been received. */
    method NextPage(run: string, cursor: nat, h: nat, limit: nat,
                    ghost after: nat, ghost all: seq<RunEvent>, ghost k: nat)
      returns (page: Page)
      requires Valid() && h <= MAX_SQLITE_INTEGER
      requires all == Between(Of(run), after, h) && 0 < k <= |all| && cursor == all[k - 1].seqNo
      ensures IsPage(page, all[k..], Clamp(limit, 1, MAX_PAGE))
    {
      ResumeAfter(Of(run), after, h, k);
      var r := EventPage(run, cursor, Some(h), limit);
      page := r.value;
    }

    /** A producer saves a batch above the frozen mark. */
    method Produce(batch: seq<RunEvent>, ghost run: string, ghost after: nat, ghost mark: nat)
      requires Valid() && AppendsAbove(batch, run, mark)
      modifies this`rows
      ensures Valid() && Between(Of(run), after, mark) == old(Between(Of(run), after, mark))
      ensures rows == Saved(old(rows), batch, contract)
    {
      var saved := SaveBatch(batch);
      if InsertAll(old(rows), batch).Some? { InsertAllSameUpTo(old(rows), batch, run, mark); }
    }

    /** The producer's turn between two pages, if it has a batch left. */
    method ProduceNext(appends: seq<seq<RunEvent>>, k: nat, ghost run: string, ghost after: nat, ghost mark: nat, ghost start: Table)
      returns (ghost used: nat)
      requires Valid() && (forall i :: 0 <= i < |appends| ==> AppendsAbove(appends[i], run, mark))
      requires rows == SavedAll(start, appends[..Min(k, |appends|)], contract)
      modifies this`rows
      ensures Valid() && Between(Of(run), after, mark) == old(Between(Of(run), after, mark))
      ensures used == Min(k + 1, |appends|) && rows == SavedAll(start, appends[..used], contract)
    {
      if k < |appends| {
        Produce(appends[k], run, after, mark);
        SavedOneMore(start, appends, k, contract);
      }
      used := Min(k + 1, |appends|);
    }

    /**
     Follows pages to the end while a producer saves `appends[k]` before page `k + 1`.
     The caller receives the events after its cursor up to the head that the first
     page froze, once each and in order, whatever was appended above that head.
     */
    method Recover(run: string, after: nat, limit: nat, appends: seq<seq<RunEvent>>)
      returns (r: Result<seq<RunEvent>, LedgerError>, ghost used: nat)
      requires Valid()
      requires forall k :: 0 <= k < |appends| ==> AppendsAbove(appends[k], run, Head(Of(run)))
      modifies this`rows
      ensures Valid()
      ensures r.Err? <==> after > MAX_SQLITE_INTEGER
      ensures r.Ok? ==> r.value == old(Between(Of(run), after, Head(Of(run))))
      ensures used <= |appends| && rows == SavedAll(old(rows), appends[..used], contract)
    {
      HeadInRange(run);
      used := 0;
      var first := EventPage(run, after, None, limit);
      if first.Err? { return Err(first.error), used; }
      var page := first.value;
      var h := page.highWater;
      ghost var all := Between(Of(run), after, h);
      ProgressFirst(all, page, Clamp(limit, 1, MAX_PAGE));
      var events, k := page.events, 0;
      while page.hasMore
        invariant Valid() && h == old(Head(Of(run))) && h <= MAX_SQLITE_INTEGER
        invariant Progress(all, events, page)
        invariant Between(Of(run), after, h) == all
        invariant used == Min(k, |appends|) && rows == SavedAll(old(rows), appends[..used], contract)
        decreases |all| - |events|
      {
        used := ProduceNext(appends, k, run, after, h, old(rows));
        var next := NextPage(run, page.nextAfter.value, h, limit, after, all, |events|);
        ProgressNext(all, events, page, next, Clamp(limit, 1, MAX_PAGE));
        events, page := events + next.events, next;
        k := k + 1;
      }
      return Ok(events), used;
    }

    /** Rows that went through the checks never make the reader fail. */
    lemma RowsRead(run: string, after: int, upTo: int, n: nat)
      requires Valid()
      ensures AllMeet(Take(Between(Of(run), after, upTo), n), contract)
    {
      if run in rows { ValidRowsRead(run, rows[run], after, upTo, n, contract); }
    }

    lemma HeadInRange(run: string)
      requires Valid()
      ensures Head(Of(run)) <= MAX_SQLITE_INTEGER
    {
    }
  }

  /** What recovery returns: every event past the cursor, once and in order. */
  lemma RecoveredEvents(s: seq<RunEvent>, after: int)
    requires Ascending(s)
    ensures Ascending(Between(s, after, Head(s)))
    ensures forall e :: e in Between(s, after, Head(s)) <==> e in s && e.seqNo > after
  {
    BetweenMembers(s, after, Head(s));
    HeadBounds(s);
  }
}
