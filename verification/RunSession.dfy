/**
 One turn of an agent session over the run-event outbox: a collector submits the
 executor's events, other producers may submit too, an actor numbers events and
 commits them in batches, and the session returns past the terminal barrier.

 The system is a set of atomic steps; a run is any interleaving of them.
 */
module RunSession {
  import opened Prelude
  import opened RunEvents

  const QUEUE_CAPACITY: nat := 512
  const MAX_BATCH: nat := 32

  datatype Barrier = Open | Committed(seqNo: nat) | Failed

  datatype SubmitResult =
    | Accepted | InvalidEvent | AlreadyClosed | QueueFull | ActorUnavailable | PreviewDropped

  /** The outbox of one run, its actor, and what the database holds for that run. */
  datatype Outbox = Outbox(
    runId: string,
    closed: bool,                // the terminal_submitted flag of the producers
    queue: seq<RunEvent>,
    failureRequested: bool,
    running: bool,               // the actor has not ended
    lastSeq: nat,
    pending: seq<RunEvent>,
    ledger: seq<RunEvent>,       // committed rows
    taskClosed: bool,            // the task row is terminal without a closing event
    barrier: Barrier)

  /** Where `start_turn` stands. */
  datatype Session =
    | Collecting(next: nat)
    | Finishing
    | AwaitingBarrier(afterError: Option<SubmitResult>)
    | Ended(pastBarrier: bool)

  datatype State = State(
    stream: seq<RunEvent>, turnId: string,
    session: Session, terminalSubmitted: bool, outbox: Outbox,
    closedElsewhere: bool)

  datatype Action =
    | Collect                                         // the collector submits its next event
    | Finish                                          // submit a missing terminal, then wait
    | Return                                          // the barrier has been decided
    | SubmitOther(event: RunEvent)                    // some other producer of the same run
    | Receive(deferred: bool, writeOk: bool, claimOk: bool)
    | Flush(writeOk: bool, claimOk: bool)
    | Drain(kept: nat, claimOk: bool)                 // the actor handles a saturated queue
    | CloseElsewhere                                  // another writer finishes the task row

  // ---- Producers ------------------------------------------------------------------

  /** `validate_producer_lifecycle`. */
  predicate LifecycleOk(e: RunEvent) {
    && (e.kind == Done ==>
          e.status in {Some("completed"), Some("cancelled"), Some("timed_out")})
    && (e.kind == Error ==>
          e.status in {Some("failed"), Some("cancelled"), Some("timed_out")})
  }

  predicate Submittable(o: Outbox, e: RunEvent) {
    && e.seqNo == 0 && e.runId == o.runId && LifecycleOk(e)
    && (!e.durable ==> !ClosesRun(e))
    && DurableContract(e.(seqNo := 1))
  }

  function Submit(o: Outbox, e: RunEvent): (SubmitResult, Outbox) { Enqueue(o, e, Submittable(o, e)) }

  /** The submission of an event that has been found `valid` or not. */
  function Enqueue(o: Outbox, e: RunEvent, valid: bool): (SubmitResult, Outbox) {
    if !valid then (InvalidEvent, o)
    else if o.closed then (AlreadyClosed, o)
    else if !o.running then
      if e.durable then (ActorUnavailable, o.(closed := true)) else (ActorUnavailable, o)
    else if |o.queue| >= QUEUE_CAPACITY then
      if e.durable then (QueueFull, o.(closed := true, failureRequested := true)) else (PreviewDropped, o)
    else (Accepted, o.(queue := o.queue + [e], closed := ClosesRun(e)))
  }

  /** The collector and the session submit durable events only. */
  function SubmitDurable(o: Outbox, e: RunEvent): (SubmitResult, Outbox) {
    if !e.durable then (InvalidEvent, o) else Submit(o, e)
  }

  /** Among terminal events exactly those with a final status are let through, so each of them closes the run. */
  lemma TerminalLifecycle(e: RunEvent)
    requires IsTerminal(e)
    ensures LifecycleOk(e) <==>
      && ClosesRun(e) && e.status.Some?
      && (|| e.status.value == "cancelled" || e.status.value == "timed_out"
          || e.status.value == (if e.kind == Done then "completed" else "failed"))
  {
    assert |"paused"| == 6 && |"completed"| == 9 && |"cancelled"| == 9 && |"timed_out"| == 9;
  }

  /** A valid event is accepted exactly when the run is open, its actor runs, and the queue has room. */
  lemma AcceptedExactly(o: Outbox, e: RunEvent)
    requires Submittable(o, e)
    ensures Submit(o, e).0 == Accepted <==> !o.closed && o.running && |o.queue| < 512
    ensures e.durable && !o.closed && Submit(o, e).0 != Accepted ==> Submit(o, e).1.closed
  {
    AcceptsWithRoom(o, e);
  }

  lemma AcceptsWithRoom(o: Outbox, e: RunEvent)
    ensures Enqueue(o, e, true).0 == Accepted <==> !o.closed && o.running && |o.queue| < 512
    ensures e.durable && !o.closed && Enqueue(o, e, true).0 != Accepted ==> Enqueue(o, e, true).1.closed
  {
  }

  /** The `finish_reason` of a finished execution becomes the status of its event. */
  function DoneStatus(finishReason: Option<string>): string {
    if finishReason == Some("cancelled") then "cancelled"
    else if finishReason == Some("timed_out") then "timed_out"
    else "completed"
  }

  /** So no `done` event the executor emits is refused or merely pauses the run. */
  lemma ExecutorDoneCloses(e: RunEvent, finishReason: Option<string>)
    requires e.kind == Done && e.status == Some(DoneStatus(finishReason))
    ensures LifecycleOk(e) && ClosesRun(e)
  {
    assert "completed" != "paused" && "cancelled" != "paused" && "timed_out" != "paused" by {
      assert |"paused"| == 6;
    }
  }

  function TerminalError(s: State): RunEvent {
    RunEvent(EVENT_VERSION, s.outbox.runId, s.turnId, 0, Error, Some("failed"), true,
             Object(map["message" := Str("Agent execution failed.")]))
  }

  // ---- The actor ------------------------------------------------------------------

  /** The closed flag of the head query. */
  predicate ClosedInDatabase(o: Outbox) { CountWhere(o.ledger, ClosesRun) > 0 || o.taskClosed }

  /** One commit of the pending batch; a closed run refuses it. */
  function Commit(o: Outbox, writeOk: bool): Option<Outbox> {
    if o.pending == [] then Some(o)
    else if !writeOk || ClosedInDatabase(o) then None
    else Some(o.(ledger := o.ledger + o.pending, pending := []))
  }

  function HeadOf(o: Outbox): nat { if o.ledger == [] then 0 else o.ledger[|o.ledger| - 1].seqNo }

  /** The actor gives up: it claims the task row, or finds the run already closed. */
  function FailClosed(o: Outbox, claimOk: bool): Outbox {
    var o1 := o.(closed := true, running := false, pending := []);
    if !claimOk then o1.(barrier := Failed)
    else if ClosedInDatabase(o) then o1.(barrier := Committed(HeadOf(o)))
    else o1.(taskClosed := true, barrier := Failed)
  }

  predicate MayDefer(k: EventKind) { k == OutputDelta || k == Thinking || k == UsageUpdated }

  function ReceiveEvent(o: Outbox, deferred: bool, writeOk: bool, claimOk: bool): Outbox
    requires o.queue != []
  {
    var e := o.queue[0].(seqNo := o.lastSeq + 1);
    var o1 := o.(queue := o.queue[1..], lastSeq := o.lastSeq + 1);
    if !e.durable then
      match Commit(o1, writeOk)
      case None => FailClosed(o1, claimOk)
      case Some(o2) => o2
    else
      var o2 := o1.(pending := o1.pending + [e]);
      if deferred && MayDefer(e.kind) && |o2.pending| < MAX_BATCH then o2 else
      match Commit(o2, writeOk)
      case None => FailClosed(o2, claimOk)
      case Some(o3) =>
        if ClosesRun(e) then o3.(barrier := Committed(o3.lastSeq), running := false) else o3
  }

  /** The durable events of a queue, each numbered by its place. */
  function Numbered(q: seq<RunEvent>, last: nat): seq<RunEvent> {
    if q == [] then [] else
    var rest := Numbered(q[1..], last + 1);
    if q[0].durable then [q[0].(seqNo := last + 1)] + rest else rest
  }

  /** A saturated queue: what is queued is still numbered, some of it may be committed. */
  function DrainQueue(o: Outbox, kept: nat, claimOk: bool): Outbox {
    var all := o.pending + Numbered(o.queue, o.lastSeq);
    var k := if o.taskClosed || kept > |all| then 0 else kept;
    FailClosed(o.(queue := [], lastSeq := o.lastSeq + |o.queue|, ledger := o.ledger + all[..k]), claimOk)
  }

  // ---- Steps ----------------------------------------------------------------------

  predicate Enabled(s: State, a: Action) {
    match a
    case Collect => s.session.Collecting?
    case Finish => s.session.Finishing?
    case Return => s.session.AwaitingBarrier? && !s.outbox.barrier.Open?
    case SubmitOther(_) => true
    case Receive(_, _, _) => s.outbox.running && !s.outbox.failureRequested && s.outbox.queue != []
    case Flush(_, _) => s.outbox.running && !s.outbox.failureRequested && s.outbox.pending != []
    case Drain(_, _) => s.outbox.running && s.outbox.failureRequested
    case CloseElsewhere => true
  }

  function Apply(s: State, a: Action): State
    requires Enabled(s, a)
  {
    match a
    case Collect =>
      var i := s.session.next;
      if i >= |s.stream| then s.(session := Finishing) else
      var (r, o) := SubmitDurable(s.outbox, s.stream[i]);
      if r == Accepted then
        s.(outbox := o, session := Collecting(i + 1),
           terminalSubmitted := s.terminalSubmitted || ClosesRun(s.stream[i]))
      else s.(outbox := o, session := AwaitingBarrier(Some(r)))
    case Finish =>
      if s.terminalSubmitted then s.(session := AwaitingBarrier(None)) else
      var (r, o) := SubmitDurable(s.outbox, TerminalError(s));
      if r == Accepted then s.(outbox := o, session := AwaitingBarrier(None))
      else s.(outbox := o, session := Ended(false))
    case Return => s.(session := Ended(s.outbox.barrier.Committed?))
    case SubmitOther(e) => s.(outbox := Submit(s.outbox, e).1)
    case Receive(deferred, writeOk, claimOk) =>
      s.(outbox := ReceiveEvent(s.outbox, deferred, writeOk, claimOk))
    case Flush(writeOk, claimOk) =>
      s.(outbox :=
        match Commit(s.outbox, writeOk)
        case None => FailClosed(s.outbox, claimOk)
        case Some(o) => o)
    case Drain(kept, claimOk) => s.(outbox := DrainQueue(s.outbox, kept, claimOk))
    case CloseElsewhere => s.(outbox := s.outbox.(taskClosed := true), closedElsewhere := true)
  }

  // ---- The invariant --------------------------------------------------------------

  /** A closing event, if the queue holds one, is durable and is the last to be received. */
  ghost predicate QueueInv(q: seq<RunEvent>) {
    forall i :: 0 <= i < |q| && ClosesRun(q[i]) ==> q[i].durable && i == |q| - 1
  }

  ghost predicate AscendingTo(s: seq<RunEvent>, top: nat) {
    && (forall i :: 0 <= i < |s| ==> s[i].seqNo <= top)
    && (forall i, j :: 0 <= i < j < |s| ==> s[i].seqNo < s[j].seqNo)
  }

  ghost predicate OutboxInv(o: Outbox, elsewhere: bool) {
    && QueueInv(o.queue)
    && CountWhere(o.pending, ClosesRun) == 0
    && AscendingTo(o.ledger + o.pending, o.lastSeq)
    && (!o.closed ==> CountWhere(o.queue, ClosesRun) == 0)
    && (o.failureRequested && o.running ==> o.closed && CountWhere(o.queue, ClosesRun) == 0)
    && (o.running && o.closed && !o.failureRequested ==> CountWhere(o.queue, ClosesRun) > 0)
    && (o.running <==> o.barrier.Open?)
    && (o.running ==> CountWhere(o.ledger, ClosesRun) == 0)
    && (o.running && o.taskClosed ==> elsewhere)
    && (!o.running ==> o.closed && o.pending == [])
    && (CountWhere(o.ledger, ClosesRun) > 0 ==> ClosedByLast(o.ledger))
    && (o.barrier.Committed? ==> CountWhere(o.ledger, ClosesRun) > 0 || elsewhere)
  }

  ghost predicate Inv(s: State) {
    && OutboxInv(s.outbox, s.closedElsewhere)
    && (s.terminalSubmitted ==> s.outbox.closed)
    && (s.session == AwaitingBarrier(None) ==> s.outbox.closed)
    && (s.session.AwaitingBarrier? && s.session.afterError.Some? ==>
          (s.session.afterError.value == InvalidEvent || s.outbox.closed))
    && (s.session == Ended(true) ==> s.outbox.barrier.Committed?)
  }

  ghost predicate Initial(s: State) {
    && s.session == Collecting(0) && !s.terminalSubmitted && !s.closedElsewhere
    && var o := s.outbox;
       && !o.closed && o.queue == [] && !o.failureRequested && o.running && o.pending == []
       && !o.taskClosed && o.barrier == Open
       && CountWhere(o.ledger, ClosesRun) == 0 && AscendingTo(o.ledger, o.lastSeq)
  }

  lemma SubmitInv(o: Outbox, elsewhere: bool, e: RunEvent)
    requires OutboxInv(o, elsewhere)
    ensures OutboxInv(Submit(o, e).1, elsewhere)
    ensures o.closed ==> Submit(o, e).1.closed
    ensures Submit(o, e).0 in {AlreadyClosed, QueueFull} ==> Submit(o, e).1.closed
    ensures Submit(o, e).0 == ActorUnavailable ==> Submit(o, e).1.closed
    ensures Submit(o, e).0 == Accepted && ClosesRun(e) ==> Submit(o, e).1.closed
  {
    CountWhereAppend(o.queue, [e], ClosesRun);
    CountWherePositive(o.queue, ClosesRun);
  }

  lemma FailClosedInv(o: Outbox, elsewhere: bool, claimOk: bool)
    requires QueueInv(o.queue) && AscendingTo(o.ledger, o.lastSeq)
    requires CountWhere(o.ledger, ClosesRun) == 0 && (o.taskClosed ==> elsewhere)
    ensures OutboxInv(FailClosed(o, claimOk), elsewhere)
  {
    assert o.ledger + [] == o.ledger;
  }

  lemma QueueTail(q: seq<RunEvent>)
    requires q != [] && QueueInv(q)
    ensures QueueInv(q[1..])
    ensures ClosesRun(q[0]) ==> q[0].durable && q[1..] == []
    ensures CountWhere(q[1..], ClosesRun) == CountWhere(q, ClosesRun) - (if ClosesRun(q[0]) then 1 else 0)
  {
    forall i | 0 <= i < |q| - 1 && ClosesRun(q[1..][i]) ensures q[1..][i].durable && i == |q| - 2 {
      assert q[1..][i] == q[i + 1];
    }
  }

  lemma PrefixAscending(a: seq<RunEvent>, b: seq<RunEvent>, top: nat)
    requires AscendingTo(a + b, top)
    ensures AscendingTo(a, top)
  {
    assert forall i :: 0 <= i < |a| ==> (a + b)[i] == a[i];
  }

  /** A preview is delivered after everything pending before it is committed. */
  lemma ReceivePreviewInv(o: Outbox, elsewhere: bool, deferred: bool, writeOk: bool, claimOk: bool)
    requires OutboxInv(o, elsewhere) && o.running && !o.failureRequested
    requires o.queue != [] && !o.queue[0].durable
    ensures OutboxInv(ReceiveEvent(o, deferred, writeOk, claimOk), elsewhere)
  {
    var o1 := o.(queue := o.queue[1..], lastSeq := o.lastSeq + 1);
    QueueTail(o.queue);
    PrefixAscending(o.ledger, o.pending, o.lastSeq);
    CountWhereAppend(o.ledger, o.pending, ClosesRun);
    assert (o.ledger + o.pending) + [] == o.ledger + o.pending;
    if Commit(o1, writeOk).None? { FailClosedInv(o1, elsewhere, claimOk); }
  }

  /** Adding one more pending event keeps the rows ordered and counts it. */
  lemma PendingGrows(ledger: seq<RunEvent>, pending: seq<RunEvent>, e: RunEvent, last: nat)
    requires AscendingTo(ledger + pending, last) && e.seqNo == last + 1
    ensures AscendingTo(ledger + (pending + [e]), last + 1)
    ensures CountWhere(pending + [e], ClosesRun) == CountWhere(pending, ClosesRun) + (if ClosesRun(e) then 1 else 0)
  {
    var old_, rows := ledger + pending, ledger + (pending + [e]);
    assert rows == old_ + [e];
    CountWhereAppend(pending, [e], ClosesRun);
    assert CountWhere([e][1..], ClosesRun) == 0;
  }

  /** The rows a commit leaves: closed at most by the last pending event. */
  lemma CommittedRows(ledger: seq<RunEvent>, pending: seq<RunEvent>)
    requires CountWhere(ledger, ClosesRun) == 0
    ensures CountWhere(ledger + pending, ClosesRun) == CountWhere(pending, ClosesRun)
    ensures pending != [] && CountWhere(pending, ClosesRun) == 1 && ClosesRun(pending[|pending| - 1]) ==>
      ClosedByLast(ledger + pending)
  {
    CountWhereAppend(ledger, pending, ClosesRun);
    if pending != [] {
      assert (ledger + pending)[|ledger + pending| - 1] == pending[|pending| - 1];
      ClosedByLastCount(ledger + pending);
    }
  }

  lemma AppendNothing(rows: seq<RunEvent>)
    ensures rows + [] == rows
  {
  }

  /** Committing what is pending, where only its last event may close the run. */
  lemma CommitInv(o: Outbox, elsewhere: bool, writeOk: bool)
    requires QueueInv(o.queue) && o.running && o.barrier.Open? && !o.failureRequested
    requires AscendingTo(o.ledger + o.pending, o.lastSeq) && o.pending != []
    requires CountWhere(o.ledger, ClosesRun) == 0 && (o.taskClosed ==> elsewhere)
    requires CountWhere(o.pending, ClosesRun) == (if ClosesRun(o.pending[|o.pending| - 1]) then 1 else 0)
    requires ClosesRun(o.pending[|o.pending| - 1]) ==> o.closed && o.queue == []
    requires !ClosesRun(o.pending[|o.pending| - 1]) ==> (o.closed <==> CountWhere(o.queue, ClosesRun) > 0)
    requires Commit(o, writeOk).Some?
    ensures var o3 := Commit(o, writeOk).value;
            OutboxInv(if ClosesRun(o.pending[|o.pending| - 1])
                      then o3.(barrier := Committed(o3.lastSeq), running := false) else o3, elsewhere)
  {
    CommittedRows(o.ledger, o.pending);
    AppendNothing(o.ledger + o.pending);
  }

  /** The outbox between numbering a durable event and committing it. */
  ghost predicate Numbering(o: Outbox, elsewhere: bool) {
    && QueueInv(o.queue) && o.running && o.barrier.Open? && !o.failureRequested && o.pending != []
    && AscendingTo(o.ledger + o.pending, o.lastSeq) && AscendingTo(o.ledger, o.lastSeq)
    && CountWhere(o.ledger, ClosesRun) == 0 && (o.taskClosed ==> elsewhere)
    && CountWhere(o.pending, ClosesRun) == (if ClosesRun(o.pending[|o.pending| - 1]) then 1 else 0)
    && (ClosesRun(o.pending[|o.pending| - 1]) ==> o.closed && o.queue == [])
    && (!ClosesRun(o.pending[|o.pending| - 1]) ==> (o.closed <==> CountWhere(o.queue, ClosesRun) > 0))
  }

  function TakeFromQueue(o: Outbox): Outbox
    requires o.queue != []
  {
    o.(queue := o.queue[1..], lastSeq := o.lastSeq + 1, pending := o.pending + [o.queue[0].(seqNo := o.lastSeq + 1)])
  }

  lemma TakeFromQueueInv(o: Outbox, elsewhere: bool)
    requires OutboxInv(o, elsewhere) && o.running && !o.failureRequested && o.queue != [] && o.queue[0].durable
    ensures Numbering(TakeFromQueue(o), elsewhere)
  {
    QueueTail(o.queue);
    PendingGrows(o.ledger, o.pending, o.queue[0].(seqNo := o.lastSeq + 1), o.lastSeq);
    PrefixAscending(o.ledger, o.pending, o.lastSeq);
  }

  lemma DeferredInv(o: Outbox, elsewhere: bool)
    requires Numbering(o, elsewhere) && !ClosesRun(o.pending[|o.pending| - 1])
    ensures OutboxInv(o, elsewhere)
  {
  }

  lemma NumberedCommitInv(o: Outbox, elsewhere: bool, writeOk: bool, claimOk: bool)
    requires Numbering(o, elsewhere)
    ensures OutboxInv(match Commit(o, writeOk)
                      case None => FailClosed(o, claimOk)
                      case Some(o3) =>
                        if ClosesRun(o.pending[|o.pending| - 1])
                        then o3.(barrier := Committed(o3.lastSeq), running := false) else o3, elsewhere)
  {
    if Commit(o, writeOk).None? { FailClosedInv(o, elsewhere, claimOk); } else { CommitInv(o, elsewhere, writeOk); }
  }

  lemma ReceiveDurableInv(o: Outbox, elsewhere: bool, deferred: bool, writeOk: bool, claimOk: bool)
    requires OutboxInv(o, elsewhere) && o.running && !o.failureRequested
    requires o.queue != [] && o.queue[0].durable
    ensures OutboxInv(ReceiveEvent(o, deferred, writeOk, claimOk), elsewhere)
  {
    var o2 := TakeFromQueue(o);
    TakeFromQueueInv(o, elsewhere);
    var e := o2.pending[|o2.pending| - 1];
    if deferred && MayDefer(e.kind) && |o2.pending| < MAX_BATCH {
      DeferredInv(o2, elsewhere);
    } else {
      NumberedCommitInv(o2, elsewhere, writeOk, claimOk);
    }
  }

  lemma FlushInv(o: Outbox, elsewhere: bool, writeOk: bool, claimOk: bool)
    requires OutboxInv(o, elsewhere) && o.running && !o.failureRequested && o.pending != []
    ensures Commit(o, writeOk).None? ==> OutboxInv(FailClosed(o, claimOk), elsewhere)
    ensures Commit(o, writeOk).Some? ==> OutboxInv(Commit(o, writeOk).value, elsewhere)
  {
    PrefixAscending(o.ledger, o.pending, o.lastSeq);
    CountWhereAppend(o.ledger, o.pending, ClosesRun);
    FailClosedInv(o, elsewhere, claimOk);
    assert (o.ledger + o.pending) + [] == o.ledger + o.pending;
  }

  /** Any part of what was pending and queued extends the rows in order. */
  lemma DrainedRows(ledger: seq<RunEvent>, pending: seq<RunEvent>, more: seq<RunEvent>, k: nat, last: nat, top: nat)
    requires AscendingTo(ledger + pending, last) && last <= top && k <= |pending + more|
    requires Rising(more, last, top)
    ensures AscendingTo(ledger + (pending + more)[..k], top)
  {
    var old_, all := ledger + pending, pending + more;
    assert ledger + all == old_ + more;
    assert AscendingTo(old_ + more, top);
    assert ledger + all == (ledger + all[..k]) + all[k..];
    PrefixAscending(ledger + all[..k], all[k..], top);
  }

  lemma DrainedCount(ledger: seq<RunEvent>, pending: seq<RunEvent>, more: seq<RunEvent>, k: nat)
    requires k <= |pending + more|
    requires CountWhere(ledger, ClosesRun) == CountWhere(pending, ClosesRun) == CountWhere(more, ClosesRun) == 0
    ensures CountWhere(ledger + (pending + more)[..k], ClosesRun) == 0
  {
    var all := pending + more;
    CountWhereAppend(pending, more, ClosesRun);
    assert all == all[..k] + all[k..];
    CountWhereAppend(all[..k], all[k..], ClosesRun);
    CountWhereAppend(ledger, all[..k], ClosesRun);
  }

  lemma DrainInv(o: Outbox, elsewhere: bool, kept: nat, claimOk: bool)
    requires OutboxInv(o, elsewhere) && o.running && o.failureRequested
    ensures OutboxInv(DrainQueue(o, kept, claimOk), elsewhere)
  {
    var more, top := Numbered(o.queue, o.lastSeq), o.lastSeq + |o.queue|;
    NumberedOrder(o.queue, o.lastSeq);
    NumberedCount(o.queue, o.lastSeq);
    var k := if o.taskClosed || kept > |o.pending + more| then 0 else kept;
    DrainedRows(o.ledger, o.pending, more, k, o.lastSeq, top);
    DrainedCount(o.ledger, o.pending, more, k);
    FailClosedInv(o.(queue := [], lastSeq := top, ledger := o.ledger + (o.pending + more)[..k]), elsewhere, claimOk);
  }

  /** What a submission reports, without looking into the outbox. */
  ghost predicate Reported(s: State, r: SubmitResult, o: Outbox, closes: bool) {
    && OutboxInv(o, s.closedElsewhere)
    && (s.outbox.closed ==> o.closed)
    && (r in {AlreadyClosed, QueueFull, ActorUnavailable} ==> o.closed)
    && (r == Accepted && closes ==> o.closed)
    && r != PreviewDropped
    && o.barrier == s.outbox.barrier
  }

  lemma SubmitReports(s: State, e: RunEvent)
    requires Inv(s)
    ensures Reported(s, SubmitDurable(s.outbox, e).0, SubmitDurable(s.outbox, e).1, ClosesRun(e))
  {
    SubmitInv(s.outbox, s.closedElsewhere, e);
  }

  lemma CollectedInv(s: State, r: SubmitResult, o: Outbox, closes: bool)
    requires Inv(s) && s.session.Collecting? && Reported(s, r, o, closes)
    ensures r == Accepted ==>
      Inv(s.(outbox := o, session := Collecting(s.session.next + 1), terminalSubmitted := s.terminalSubmitted || closes))
    ensures r != Accepted ==> Inv(s.(outbox := o, session := AwaitingBarrier(Some(r))))
  {
  }

  lemma CollectInv(s: State)
    requires Inv(s) && Enabled(s, Collect)
    ensures Inv(Apply(s, Collect))
  {
    if s.session.next < |s.stream| {
      var e := s.stream[s.session.next];
      var (r, o) := SubmitDurable(s.outbox, e);
      SubmitReports(s, e);
      CollectedInv(s, r, o, ClosesRun(e));
    }
  }

  lemma FinishInv(s: State)
    requires Inv(s) && Enabled(s, Finish)
    ensures Inv(Apply(s, Finish))
  {
    SubmitInv(s.outbox, s.closedElsewhere, TerminalError(s));
  }

  /** The session's own invariant only needs producers to stay closed. */
  lemma WithOutbox(s: State, o: Outbox)
    requires Inv(s) && OutboxInv(o, s.closedElsewhere)
    requires (s.outbox.closed ==> o.closed) && (s.outbox.barrier.Committed? ==> o.barrier.Committed?)
    ensures Inv(s.(outbox := o))
  {
  }

  lemma ReceiveInv(s: State, deferred: bool, writeOk: bool, claimOk: bool)
    requires Inv(s) && Enabled(s, Receive(deferred, writeOk, claimOk))
    ensures Inv(Apply(s, Receive(deferred, writeOk, claimOk)))
  {
    var o := s.outbox;
    if o.queue[0].durable {
      ReceiveDurableInv(o, s.closedElsewhere, deferred, writeOk, claimOk);
    } else {
      ReceivePreviewInv(o, s.closedElsewhere, deferred, writeOk, claimOk);
    }
    WithOutbox(s, ReceiveEvent(o, deferred, writeOk, claimOk));
  }

  lemma StepInv(s: State, a: Action)
    requires Inv(s) && Enabled(s, a)
    ensures Inv(Apply(s, a))
  {
    match a
    case Collect => CollectInv(s);
    case Finish => FinishInv(s);
    case Return =>
    case SubmitOther(e) =>
      SubmitInv(s.outbox, s.closedElsewhere, e);
      WithOutbox(s, Submit(s.outbox, e).1);
    case Receive(deferred, writeOk, claimOk) => ReceiveInv(s, deferred, writeOk, claimOk);
    case Flush(writeOk, claimOk) =>
      FlushInv(s.outbox, s.closedElsewhere, writeOk, claimOk);
      WithOutbox(s, Apply(s, a).outbox);
    case Drain(kept, claimOk) =>
      DrainInv(s.outbox, s.closedElsewhere, kept, claimOk);
      WithOutbox(s, Apply(s, a).outbox);
    case CloseElsewhere =>
  }

  // ---- Runs -----------------------------------------------------------------------

  ghost predicate Run(states: seq<State>, acts: seq<Action>) {
    && |states| == |acts| + 1
    && Initial(states[0])
    && forall i :: 0 <= i < |acts| ==>
         Enabled(states[i], acts[i]) && states[i + 1] == Apply(states[i], acts[i])
  }

  lemma InitialInv(s: State)
    requires Initial(s)
    ensures Inv(s)
  {
    assert s.outbox.ledger + [] == s.outbox.ledger;
  }

  lemma {:induction false} RunInv(states: seq<State>, acts: seq<Action>, i: nat)
    requires Run(states, acts) && i < |states|
    ensures Inv(states[i])
    ensures states[i].closedElsewhere ==> exists k :: 0 <= k < i && acts[k] == CloseElsewhere
  {
    if i == 0 {
      InitialInv(states[0]);
    } else {
      RunInv(states, acts, i - 1);
      StepInv(states[i - 1], acts[i - 1]);
      if states[i].closedElsewhere && !states[i - 1].closedElsewhere {
        assert acts[i - 1] == CloseElsewhere;
      }
    }
  }

  // ---- What the barrier means ---------------------------------------------------------

  /** Before step `i` another writer finished the task row while the actor was still running. */
  ghost predicate EarlyClose(states: seq<State>, acts: seq<Action>, i: nat)
    requires |states| == |acts| + 1 && i < |states|
  {
    exists k :: 0 <= k < i && acts[k] == CloseElsewhere && states[k].outbox.running
  }

  /** A finished task row stays finished, and from then on the rows do not change. */
  lemma TaskClosedFreezes(s: State, a: Action)
    requires Enabled(s, a) && s.outbox.taskClosed
    ensures Apply(s, a).outbox.taskClosed && Apply(s, a).outbox.ledger == s.outbox.ledger
  {
    var o := s.outbox;
    match a
    case Receive(deferred, writeOk, claimOk) => TaskClosedReceive(o, deferred, writeOk, claimOk);
    case Drain(_, _) => assert o.ledger + (o.pending + Numbered(o.queue, o.lastSeq))[..0] == o.ledger;
    case Collect => OtherStepsFrame(s, a);
    case Finish => OtherStepsFrame(s, a);
    case Return => OtherStepsFrame(s, a);
    case SubmitOther(_) => OtherStepsFrame(s, a);
    case Flush(_, _) =>
    case CloseElsewhere => OtherStepsFrame(s, a);
  }

  lemma TaskClosedReceive(o: Outbox, deferred: bool, writeOk: bool, claimOk: bool)
    requires o.queue != [] && o.taskClosed
    ensures ReceiveEvent(o, deferred, writeOk, claimOk).taskClosed
    ensures ReceiveEvent(o, deferred, writeOk, claimOk).ledger == o.ledger
  {
  }

  /** Producers touch neither the rows nor the actor. */
  lemma SubmitFrame(o: Outbox, e: RunEvent)
    ensures var o' := Submit(o, e).1;
            o'.taskClosed == o.taskClosed && o'.running == o.running && o'.ledger == o.ledger && o'.barrier == o.barrier
  {
    EnqueueFrame(o, e, Submittable(o, e));
  }

  lemma EnqueueFrame(o: Outbox, e: RunEvent, valid: bool)
    ensures var o' := Enqueue(o, e, valid).1;
            o'.taskClosed == o.taskClosed && o'.running == o.running && o'.ledger == o.ledger && o'.barrier == o.barrier
  {
  }

  lemma ReceiveFrame(o: Outbox, deferred: bool, writeOk: bool, claimOk: bool)
    requires o.queue != [] && o.running
    ensures ReceiveEvent(o, deferred, writeOk, claimOk).running ==>
      ReceiveEvent(o, deferred, writeOk, claimOk).taskClosed == o.taskClosed
  {
  }

  /** Steps other than the actor's leave rows, actor and barrier alone. */
  lemma OtherStepsFrame(s: State, a: Action)
    requires Enabled(s, a) && !a.Receive? && !a.Flush? && !a.Drain?
    ensures var o, o' := s.outbox, Apply(s, a).outbox;
            && o'.running == o.running && o'.ledger == o.ledger && o'.barrier == o.barrier
            && (o'.taskClosed == o.taskClosed || a == CloseElsewhere)
  {
    match a
    case Collect => if s.session.next < |s.stream| { SubmitFrame(s.outbox, s.stream[s.session.next]); }
    case Finish => SubmitFrame(s.outbox, TerminalError(s));
    case SubmitOther(e) => SubmitFrame(s.outbox, e);
    case Return =>
    case CloseElsewhere =>
  }

  /** While the actor runs, only another writer finishes the task row. */
  lemma RunningTaskClosed(s: State, a: Action)
    requires Enabled(s, a) && Apply(s, a).outbox.running && Apply(s, a).outbox.taskClosed
    ensures s.outbox.running && (s.outbox.taskClosed || a == CloseElsewhere)
  {
    match a
    case Receive(deferred, writeOk, claimOk) => ReceiveFrame(s.outbox, deferred, writeOk, claimOk);
    case Flush(_, _) =>
    case Drain(_, _) =>
    case Collect => OtherStepsFrame(s, a);
    case Finish => OtherStepsFrame(s, a);
    case Return => OtherStepsFrame(s, a);
    case SubmitOther(_) => OtherStepsFrame(s, a);
    case CloseElsewhere => OtherStepsFrame(s, a);
  }

  lemma FlushNeedsTask(o: Outbox, writeOk: bool, claimOk: bool)
    requires o.running && o.barrier.Open? && !o.taskClosed && CountWhere(o.ledger, ClosesRun) == 0
    ensures Commit(o, writeOk).Some? ==> Commit(o, writeOk).value.barrier.Open?
    ensures !FailClosed(o, claimOk).barrier.Committed?
  {
  }

  /** Passing the barrier without a closing row needs a finished task row while the actor runs. */
  lemma CommittedWithoutRow(s: State, a: Action)
    requires Inv(s) && Enabled(s, a)
    requires Apply(s, a).outbox.barrier.Committed? && CountWhere(Apply(s, a).outbox.ledger, ClosesRun) == 0
    ensures if s.outbox.running then s.outbox.taskClosed
            else s.outbox.barrier.Committed? && CountWhere(s.outbox.ledger, ClosesRun) == 0
  {
    if !ActorStep(a) {
      OtherStepsFrame(s, a);
    } else if !s.outbox.taskClosed {
      match a
      case Receive(deferred, writeOk, claimOk) => ReceiveClosingRow(s.outbox, deferred, writeOk, claimOk);
      case Flush(writeOk, claimOk) => FlushNeedsTask(s.outbox, writeOk, claimOk);
      case Drain(kept, claimOk) => DrainNeedsTask(s.outbox, kept, claimOk);
    }
  }

  /** Without a finished task row, a received event decides the barrier only with a closing row. */
  lemma ReceiveClosingRow(o: Outbox, deferred: bool, writeOk: bool, claimOk: bool)
    requires o.queue != [] && o.running && o.barrier.Open? && !o.taskClosed
    requires CountWhere(o.ledger, ClosesRun) == 0
    requires ReceiveEvent(o, deferred, writeOk, claimOk).barrier.Committed?
    ensures CountWhere(ReceiveEvent(o, deferred, writeOk, claimOk).ledger, ClosesRun) > 0
  {
    var e := o.queue[0].(seqNo := o.lastSeq + 1);
    CountWhereAppend(o.ledger, o.pending + [e], ClosesRun);
    CountWhereAppend(o.pending, [e], ClosesRun);
  }

  lemma DrainNeedsTask(o: Outbox, kept: nat, claimOk: bool)
    requires o.running && !o.taskClosed && CountWhere(DrainQueue(o, kept, claimOk).ledger, ClosesRun) == 0
    ensures !DrainQueue(o, kept, claimOk).barrier.Committed?
  {
  }

  /** How an early close shows in the state. */
  ghost predicate EarlyCloseShows(s: State, early: bool) {
    && (early ==> s.outbox.taskClosed && CountWhere(s.outbox.ledger, ClosesRun) == 0)
    && (s.outbox.running && s.outbox.taskClosed ==> early)
    && (s.outbox.barrier.Committed? && CountWhere(s.outbox.ledger, ClosesRun) == 0 ==> early)
  }

  lemma EarlyCloseStep(s: State, a: Action, early: bool)
    requires Inv(s) && Enabled(s, a) && EarlyCloseShows(s, early)
    ensures EarlyCloseShows(Apply(s, a), early || (a == CloseElsewhere && s.outbox.running))
  {
    var t := Apply(s, a);
    if early { TaskClosedFreezes(s, a); }
    if t.outbox.running && t.outbox.taskClosed { RunningTaskClosed(s, a); }
    if t.outbox.barrier.Committed? && CountWhere(t.outbox.ledger, ClosesRun) == 0 { CommittedWithoutRow(s, a); }
  }

  lemma EarlyCloseLast(states: seq<State>, acts: seq<Action>, i: nat)
    requires |states| == |acts| + 1 && 0 < i < |states|
    ensures EarlyClose(states, acts, i) <==>
            EarlyClose(states, acts, i - 1) || (acts[i - 1] == CloseElsewhere && states[i - 1].outbox.running)
  {
    if k :| 0 <= k < i && acts[k] == CloseElsewhere && states[k].outbox.running && k == i - 1 {
      assert acts[i - 1] == CloseElsewhere;
    }
  }

  lemma {:induction false} EarlyCloseInRun(states: seq<State>, acts: seq<Action>, i: nat)
    requires Run(states, acts) && i < |states|
    ensures EarlyCloseShows(states[i], EarlyClose(states, acts, i))
  {
    if i > 0 {
      EarlyCloseInRun(states, acts, i - 1);
      RunInv(states, acts, i - 1);
      EarlyCloseStep(states[i - 1], acts[i - 1], EarlyClose(states, acts, i - 1));
      EarlyCloseLast(states, acts, i);
    }
  }

  /**
   A turn that returns past its terminal barrier leaves exactly one closing event, in last
   place, exactly when no other writer finished the task row while the actor was running;
   otherwise it leaves none.
   */
  lemma BarrierMeansOneClosingEvent(states: seq<State>, acts: seq<Action>, i: nat)
    requires Run(states, acts) && i < |states| && states[i].session == Ended(true)
    ensures var ledger := states[i].outbox.ledger;
            && AscendingTo(ledger, states[i].outbox.lastSeq)
            && (ledger != [] && ClosedByLast(ledger) <==> !EarlyClose(states, acts, i))
            && (CountWhere(ledger, ClosesRun) == 0 <==> EarlyClose(states, acts, i))
  {
    RunInv(states, acts, i);
    EarlyCloseInRun(states, acts, i);
    var o := states[i].outbox;
    AppendNothing(o.ledger);
    CountWherePositive(o.ledger, ClosesRun);
    if o.ledger != [] { ClosedByLastCount(o.ledger); }
  }

  /** In every state of every run the committed log is ordered and closed at most once. */
  lemma LedgerNeverClosedTwice(states: seq<State>, acts: seq<Action>, i: nat)
    requires Run(states, acts) && i < |states|
    ensures CountWhere(states[i].outbox.ledger, ClosesRun) <= 1
    ensures CountWhere(states[i].outbox.ledger, ClosesRun) == 1 ==> ClosedByLast(states[i].outbox.ledger)
    ensures AscendingTo(states[i].outbox.ledger, states[i].outbox.lastSeq)
  {
    RunInv(states, acts, i);
    var o := states[i].outbox;
    PrefixAscending(o.ledger, o.pending, o.lastSeq);
    if o.ledger != [] { ClosedByLastCount(o.ledger); }
  }

  // ---- What is accepted is committed ------------------------------------------------

  /** The event that a step puts into the outbox, if any. */
  function AcceptedAt(s: State, a: Action): seq<RunEvent> {
    match a
    case Collect =>
      if s.session.Collecting? && s.session.next < |s.stream|
         && SubmitDurable(s.outbox, s.stream[s.session.next]).0 == Accepted
      then [s.stream[s.session.next]] else []
    case Finish =>
      if !s.terminalSubmitted && SubmitDurable(s.outbox, TerminalError(s)).0 == Accepted then [TerminalError(s)] else []
    case SubmitOther(e) => if Submit(s.outbox, e).0 == Accepted then [e] else []
    case _ => []
  }

  /** What the first `i` steps contribute, one after the other. */
  function Gather(states: seq<State>, acts: seq<Action>, i: nat, part: (State, Action) -> seq<RunEvent>): seq<RunEvent>
    requires i <= |acts| && i <= |states|
  {
    if i == 0 then [] else Gather(states, acts, i - 1, part) + part(states[i - 1], acts[i - 1])
  }

  /** Everything accepted in the first `i` steps, in the order of submission. */
  function AcceptedIn(states: seq<State>, acts: seq<Action>, i: nat): seq<RunEvent>
    requires i <= |acts| && i <= |states|
  {
    Gather(states, acts, i, AcceptedAt)
  }

  lemma {:induction false} NumberedAppend(a: seq<RunEvent>, b: seq<RunEvent>, last: nat)
    ensures Numbered(a + b, last) == Numbered(a, last) + Numbered(b, last + |a|)
  {
    if a == [] {
      assert a + b == b;
    } else {
      assert (a + b)[1..] == a[1..] + b;
      NumberedAppend(a[1..], b, last + 1);
      if a[0].durable {
        ConcatAssoc([a[0].(seqNo := last + 1)], Numbered(a[1..], last + 1), Numbered(b, last + |a|));
      }
    }
  }

  lemma {:induction false} NumberedOrder(q: seq<RunEvent>, last: nat)
    ensures Rising(Numbered(q, last), last, last + |q|)
  {
    if q != [] {
      NumberedOrder(q[1..], last + 1);
      RisingCons(q[0].(seqNo := last + 1), Numbered(q[1..], last + 1), last, last + |q|);
    }
  }

  /** Strictly ascending numbers above `low` and up to `top`. */
  ghost predicate Rising(r: seq<RunEvent>, low: nat, top: nat) {
    && (forall i :: 0 <= i < |r| ==> low < r[i].seqNo <= top)
    && (forall i, j :: 0 <= i < j < |r| ==> r[i].seqNo < r[j].seqNo)
  }

  lemma RisingCons(e: RunEvent, rest: seq<RunEvent>, low: nat, top: nat)
    requires Rising(rest, low + 1, top) && e.seqNo == low + 1 && low < top
    ensures Rising([e] + rest, low, top)
  {
    var r := [e] + rest;
    assert forall i :: 0 < i < |r| ==> r[i] == rest[i - 1];
  }

  lemma {:induction false} NumberedCount(q: seq<RunEvent>, last: nat)
    ensures CountWhere(Numbered(q, last), ClosesRun) <= CountWhere(q, ClosesRun)
  {
    if q != [] {
      var e := q[0].(seqNo := last + 1);
      NumberedCount(q[1..], last + 1);
      CountWhereAppend([e], Numbered(q[1..], last + 1), ClosesRun);
    }
  }

  predicate IsDurable(e: RunEvent) { e.durable }

  /** Numbering drops previews only, and an event is numbered by its place in the queue. */
  lemma {:induction false} NumberedMeaning(q: seq<RunEvent>, last: nat)
    ensures |Numbered(q, last)| == CountWhere(q, IsDurable)
    ensures forall i :: 0 <= i < |q| && q[i].durable ==> q[i].(seqNo := last + i + 1) in Numbered(q, last)
  {
    if q != [] {
      NumberedMeaning(q[1..], last + 1);
      forall i | 0 <= i < |q| && q[i].durable ensures q[i].(seqNo := last + i + 1) in Numbered(q, last) {
        if i > 0 { assert q[i] == q[1..][i - 1]; }
      }
    }
  }

  /** The rows of the outbox: committed, then pending, then queued. */
  function Rows(o: Outbox): seq<RunEvent> { o.ledger + (o.pending + Numbered(o.queue, o.lastSeq)) }

  /** `acc` was accepted since the outbox held `base` with `last` as its last number. */
  ghost predicate Conserves(o: Outbox, base: seq<RunEvent>, last: nat, acc: seq<RunEvent>) {
    var total := base + Numbered(acc, last);
    && base <= o.ledger <= total
    && (o.running ==> Rows(o) == total)
    && (o.running ==> o.lastSeq + |o.queue| == last + |acc|)
    && (CountWhere(o.ledger, ClosesRun) > 0 ==> o.ledger == total)
  }

  /** What a submission does to the queue. */
  lemma SubmitQueues(o: Outbox, e: RunEvent)
    ensures var (r, o') := Submit(o, e);
            && o'.running == o.running && o'.ledger == o.ledger && o'.pending == o.pending && o'.lastSeq == o.lastSeq
            && o'.runId == o.runId
            && (r == Accepted ==> o.running && !o.closed && o'.queue == o.queue + [e] && (ClosesRun(e) ==> o'.closed))
            && (r != Accepted ==> o'.queue == o.queue)
  {
    EnqueueQueues(o, e, Submittable(o, e));
  }

  lemma EnqueueQueues(o: Outbox, e: RunEvent, valid: bool)
    ensures var (r, o') := Enqueue(o, e, valid);
            && o'.running == o.running && o'.ledger == o.ledger && o'.pending == o.pending && o'.lastSeq == o.lastSeq
            && o'.runId == o.runId
            && (r == Accepted ==> o.running && !o.closed && o'.queue == o.queue + [e] && (ClosesRun(e) ==> o'.closed))
            && (r != Accepted ==> o'.queue == o.queue)
  {
  }

  lemma AcceptConserves(o: Outbox, o': Outbox, e: RunEvent, base: seq<RunEvent>, last: nat, acc: seq<RunEvent>)
    requires Conserves(o, base, last, acc) && o.running && CountWhere(o.ledger, ClosesRun) == 0
    requires o'.running && o'.ledger == o.ledger && o'.pending == o.pending && o'.lastSeq == o.lastSeq
    requires o'.queue == o.queue + [e]
    ensures Conserves(o', base, last, acc + [e])
  {
    var more := [e];
    NumberedAppend(acc, more, last);
    QueueGrows(o, o', more);
    ConcatAssoc(base, Numbered(acc, last), Numbered(more, last + |acc|));
  }

  lemma QueueGrows(o: Outbox, o': Outbox, more: seq<RunEvent>)
    requires o'.ledger == o.ledger && o'.pending == o.pending && o'.lastSeq == o.lastSeq
    requires o'.queue == o.queue + more
    ensures Rows(o') == Rows(o) + Numbered(more, o.lastSeq + |o.queue|)
  {
    var new_ := Numbered(more, o.lastSeq + |o.queue|);
    NumberedAppend(o.queue, more, o.lastSeq);
    ConcatAssoc(o.pending, Numbered(o.queue, o.lastSeq), new_);
    ConcatAssoc(o.ledger, o.pending + Numbered(o.queue, o.lastSeq), new_);
  }

  lemma ProducerConserves(s: State, a: Action, base: seq<RunEvent>, last: nat, acc: seq<RunEvent>)
    requires Inv(s) && Enabled(s, a) && !ActorStep(a) && Conserves(s.outbox, base, last, acc)
    ensures Conserves(Apply(s, a).outbox, base, last, acc + AcceptedAt(s, a))
  {
    AppendNothing(acc);
    var o, o' := s.outbox, Apply(s, a).outbox;
    match a
    case Collect =>
      if s.session.next < |s.stream| {
        var e := s.stream[s.session.next];
        SubmitQueues(o, e);
        if AcceptedAt(s, a) != [] { AcceptConserves(o, o', e, base, last, acc); }
      }
    case Finish =>
      SubmitQueues(o, TerminalError(s));
      if AcceptedAt(s, a) != [] { AcceptConserves(o, o', TerminalError(s), base, last, acc); }
    case SubmitOther(e) =>
      SubmitQueues(o, e);
      if AcceptedAt(s, a) != [] { AcceptConserves(o, o', e, base, last, acc); }
    case Return =>
    case CloseElsewhere =>
  }

  /** Committing moves rows, giving up drops them. */
  lemma CommitConserves(o: Outbox, writeOk: bool, base: seq<RunEvent>, last: nat, acc: seq<RunEvent>)
    requires Conserves(o, base, last, acc) && o.running && Commit(o, writeOk).Some?
    requires CountWhere(o.ledger, ClosesRun) == 0
    requires CountWhere(o.pending, ClosesRun) > 0 ==> o.queue == []
    ensures Conserves(Commit(o, writeOk).value, base, last, acc)
  {
    CommitMovesRows(o.ledger, o.pending, Numbered(o.queue, o.lastSeq));
    CountWhereAppend(o.ledger, o.pending, ClosesRun);
  }

  lemma CommitMovesRows(ledger: seq<RunEvent>, pending: seq<RunEvent>, queued: seq<RunEvent>)
    ensures (ledger + pending) + ([] + queued) == ledger + (pending + queued)
    ensures ledger <= ledger + pending <= ledger + (pending + queued)
    ensures queued == [] ==> ledger + pending == ledger + (pending + queued)
  {
    ConcatAssoc(ledger, pending, queued);
    AppendNothing(ledger + pending);
  }

  lemma GiveUpConserves(o: Outbox, claimOk: bool, base: seq<RunEvent>, last: nat, acc: seq<RunEvent>)
    requires base <= o.ledger <= base + Numbered(acc, last) && CountWhere(o.ledger, ClosesRun) == 0
    ensures Conserves(FailClosed(o, claimOk), base, last, acc)
  {
  }

  lemma TakeConserves(o: Outbox, base: seq<RunEvent>, last: nat, acc: seq<RunEvent>)
    requires Conserves(o, base, last, acc) && o.running && o.queue != [] && CountWhere(o.ledger, ClosesRun) == 0
    ensures Conserves(Taken(o), base, last, acc)
  {
    TakenRows(o);
  }

  lemma TakenRows(o: Outbox)
    requires o.queue != []
    ensures Rows(Taken(o)) == Rows(o)
  {
    NumberedHead(o.queue, o.lastSeq);
    if o.queue[0].durable { FirstRowMoves(o, TakeFromQueue(o), o.queue[0].(seqNo := o.lastSeq + 1)); }
  }

  lemma FirstRowMoves(o: Outbox, o': Outbox, e: RunEvent)
    requires o'.ledger == o.ledger && o'.pending == o.pending + [e]
    requires Numbered(o.queue, o.lastSeq) == [e] + Numbered(o'.queue, o'.lastSeq)
    ensures Rows(o') == Rows(o)
  {
    ConcatAssoc(o.pending, [e], Numbered(o'.queue, o'.lastSeq));
  }

  /** The outbox once the first queued event is numbered and, if durable, pending. */
  function Taken(o: Outbox): Outbox
    requires o.queue != []
  {
    if o.queue[0].durable then TakeFromQueue(o) else o.(queue := o.queue[1..], lastSeq := o.lastSeq + 1)
  }

  lemma NumberedHead(q: seq<RunEvent>, last: nat)
    requires q != []
    ensures Numbered(q, last) == if q[0].durable then [q[0].(seqNo := last + 1)] + Numbered(q[1..], last + 1)
                                 else Numbered(q[1..], last + 1)
  {
  }

  lemma ReceiveConserves(o: Outbox, elsewhere: bool, deferred: bool, writeOk: bool, claimOk: bool,
                         base: seq<RunEvent>, last: nat, acc: seq<RunEvent>)
    requires OutboxInv(o, elsewhere) && o.running && !o.failureRequested && o.queue != []
    requires Conserves(o, base, last, acc)
    ensures Conserves(ReceiveEvent(o, deferred, writeOk, claimOk), base, last, acc)
  {
    TakeConserves(o, base, last, acc);
    TakenCloses(o, elsewhere);
    SettledConserves(Taken(o), writeOk, claimOk, base, last, acc);
    ReceiveSettles(o, deferred, writeOk, claimOk);
  }

  lemma TakenCloses(o: Outbox, elsewhere: bool)
    requires OutboxInv(o, elsewhere) && o.running && !o.failureRequested && o.queue != []
    ensures CountWhere(Taken(o).pending, ClosesRun) > 0 ==> Taken(o).queue == []
  {
    if o.queue[0].durable { TakeFromQueueInv(o, elsewhere); }
  }

  /** A received event is left pending, committed with what was pending, or given up. */
  lemma ReceiveSettles(o: Outbox, deferred: bool, writeOk: bool, claimOk: bool)
    requires o.queue != []
    ensures var o2, r := Taken(o), ReceiveEvent(o, deferred, writeOk, claimOk);
            || r == o2
            || (Commit(o2, writeOk).None? && r == FailClosed(o2, claimOk))
            || (Commit(o2, writeOk).Some?
                && r == Commit(o2, writeOk).value.(barrier := r.barrier, running := r.running)
                && (r.running ==> o.running))
  {
  }

  lemma SettledConserves(o: Outbox, writeOk: bool, claimOk: bool, base: seq<RunEvent>, last: nat, acc: seq<RunEvent>)
    requires Conserves(o, base, last, acc) && o.running && CountWhere(o.ledger, ClosesRun) == 0
    requires CountWhere(o.pending, ClosesRun) > 0 ==> o.queue == []
    ensures Commit(o, writeOk).Some? ==> Conserves(Commit(o, writeOk).value, base, last, acc)
    ensures Conserves(FailClosed(o, claimOk), base, last, acc)
  {
    if Commit(o, writeOk).Some? { CommitConserves(o, writeOk, base, last, acc); }
    GiveUpConserves(o, claimOk, base, last, acc);
  }

  lemma DrainConserves(o: Outbox, elsewhere: bool, kept: nat, claimOk: bool,
                       base: seq<RunEvent>, last: nat, acc: seq<RunEvent>)
    requires OutboxInv(o, elsewhere) && o.running && o.failureRequested && Conserves(o, base, last, acc)
    ensures Conserves(DrainQueue(o, kept, claimOk), base, last, acc)
  {
    var more := Numbered(o.queue, o.lastSeq);
    var k := if o.taskClosed || kept > |o.pending + more| then 0 else kept;
    NumberedCount(o.queue, o.lastSeq);
    DrainedCount(o.ledger, o.pending, more, k);
    GiveUpConserves(
      o.(queue := [], lastSeq := o.lastSeq + |o.queue|, ledger := o.ledger + (o.pending + more)[..k]),
      claimOk, base, last, acc);
  }

  lemma ActorConserves(s: State, a: Action, base: seq<RunEvent>, last: nat, acc: seq<RunEvent>)
    requires Inv(s) && Enabled(s, a) && ActorStep(a) && Conserves(s.outbox, base, last, acc)
    ensures Conserves(Apply(s, a).outbox, base, last, acc)
  {
    var o := s.outbox;
    match a
    case Receive(deferred, writeOk, claimOk) =>
      ReceiveConserves(o, s.closedElsewhere, deferred, writeOk, claimOk, base, last, acc);
    case Flush(writeOk, claimOk) =>
      SettledConserves(o, writeOk, claimOk, base, last, acc);
    case Drain(kept, claimOk) => DrainConserves(o, s.closedElsewhere, kept, claimOk, base, last, acc);
  }

  /**
   In every state of every run, as long as the actor runs, the accepted durable events are,
   each once and under its own number, what the run has committed, then what is pending, then
   what is queued; and at any time what it has committed is the first part of them.
   */
  lemma {:induction false} AcceptedIsConserved(states: seq<State>, acts: seq<Action>, i: nat)
    requires Run(states, acts) && i < |states|
    ensures var o := states[0].outbox;
            Conserves(states[i].outbox, o.ledger, o.lastSeq, AcceptedIn(states, acts, i))
  {
    var base, last := states[0].outbox.ledger, states[0].outbox.lastSeq;
    if i == 0 {
      NothingAccepted(states[0]);
    } else {
      AcceptedIsConserved(states, acts, i - 1);
      ConservesStep(states, acts, i - 1, base, last, AcceptedIn(states, acts, i - 1));
    }
  }

  lemma NothingAccepted(s: State)
    requires Initial(s)
    ensures Conserves(s.outbox, s.outbox.ledger, s.outbox.lastSeq, [])
  {
    AppendNothing(s.outbox.ledger);
  }

  lemma ConservesStep(states: seq<State>, acts: seq<Action>, i: nat,
                      base: seq<RunEvent>, last: nat, acc: seq<RunEvent>)
    requires Run(states, acts) && i < |acts| && Conserves(states[i].outbox, base, last, acc)
    ensures Conserves(states[i + 1].outbox, base, last, acc + AcceptedAt(states[i], acts[i]))
  {
    RunInv(states, acts, i);
    if ActorStep(acts[i]) {
      AppendNothing(acc);
      ActorConserves(states[i], acts[i], base, last, acc);
    } else {
      ProducerConserves(states[i], acts[i], base, last, acc);
    }
  }

  /**
   The rows are `base` and then, in ascending order, the durable ones of `acc`, each numbered
   by its place.
   */
  ghost predicate AllCommitted(base: seq<RunEvent>, acc: seq<RunEvent>, last: nat, rows: seq<RunEvent>) {
    && base <= rows
    && |rows| == |base| + CountWhere(acc, IsDurable)
    && (forall k :: 0 <= k < |acc| && acc[k].durable ==> acc[k].(seqNo := last + k + 1) in rows[|base|..])
    && (forall i, j :: |base| <= i < j < |rows| ==> rows[i].seqNo < rows[j].seqNo)
  }

  /**
   A turn that returns past its barrier, with no early close, has lost and repeated nothing:
   its rows are the initial ones and every accepted durable event, unchanged but for a number
   that is its place among the accepted events.
   */
  lemma BarrierMeansAllCommitted(states: seq<State>, acts: seq<Action>, i: nat)
    requires Run(states, acts) && i < |states| && states[i].session == Ended(true) && !EarlyClose(states, acts, i)
    ensures AllCommitted(
              states[0].outbox.ledger, AcceptedIn(states, acts, i), states[0].outbox.lastSeq, states[i].outbox.ledger)
  {
    ClosedRunIsComplete(states, acts, i);
    AllCommittedMeaning(states[0].outbox.ledger, AcceptedIn(states, acts, i), states[0].outbox.lastSeq);
  }

  lemma ClosedRunIsComplete(states: seq<State>, acts: seq<Action>, i: nat)
    requires Run(states, acts) && i < |states| && states[i].session == Ended(true) && !EarlyClose(states, acts, i)
    ensures states[i].outbox.ledger
         == states[0].outbox.ledger + Numbered(AcceptedIn(states, acts, i), states[0].outbox.lastSeq)
  {
    AcceptedIsConserved(states, acts, i);
    BarrierMeansOneClosingEvent(states, acts, i);
  }

  lemma AllCommittedMeaning(base: seq<RunEvent>, acc: seq<RunEvent>, last: nat)
    ensures AllCommitted(base, acc, last, base + Numbered(acc, last))
  {
    NumberedMeaning(acc, last);
    NumberedOrder(acc, last);
  }

  // ---- What a turn commits ------------------------------------------------------------

  /** What the session itself, collector and finish, put into the outbox in the first `i` steps. */
  function OwnIn(states: seq<State>, acts: seq<Action>, i: nat): seq<RunEvent>
    requires i <= |acts| && i <= |states|
  {
    Gather(states, acts, i, OwnAt)
  }

  function OwnAt(s: State, a: Action): seq<RunEvent> { if a.SubmitOther? then [] else AcceptedAt(s, a) }

  ghost predicate AllDurable(s: seq<RunEvent>) { forall i :: 0 <= i < |s| ==> s[i].durable }

  /** The stream, with the terminal error where it does not close the run itself. */
  function WithTerminal(s: State): seq<RunEvent> {
    if CountWhere(s.stream, ClosesRun) > 0 then s.stream else s.stream + [TerminalError(s)]
  }

  /** What the session has submitted follows the stream. */
  ghost predicate Follows(s: State, own: seq<RunEvent>) {
    && AllDurable(own)
    && match s.session
       case Collecting(n) =>
         n <= |s.stream| && own == s.stream[..n] && (s.terminalSubmitted <==> CountWhere(own, ClosesRun) > 0)
       case Finishing => own == s.stream && (s.terminalSubmitted <==> CountWhere(own, ClosesRun) > 0)
       case AwaitingBarrier(None) => own == WithTerminal(s)
       case AwaitingBarrier(Some(_)) => own <= s.stream
       case Ended(_) => own <= s.stream || own == WithTerminal(s)
  }

  lemma ReceiveKeepsRun(o: Outbox, deferred: bool, writeOk: bool, claimOk: bool)
    requires o.queue != []
    ensures ReceiveEvent(o, deferred, writeOk, claimOk).runId == o.runId
  {
  }

  lemma ActorKeepsSession(s: State, a: Action)
    requires Enabled(s, a) && ActorStep(a)
    ensures Apply(s, a) == s.(outbox := Apply(s, a).outbox) && Apply(s, a).outbox.runId == s.outbox.runId
  {
    match a
    case Receive(deferred, writeOk, claimOk) => ReceiveKeepsRun(s.outbox, deferred, writeOk, claimOk);
    case Flush(_, _) =>
    case Drain(_, _) =>
  }

  lemma CollectFollows(s: State, own: seq<RunEvent>)
    requires Enabled(s, Collect) && Follows(s, own)
    ensures Follows(Apply(s, Collect), own + AcceptedAt(s, Collect))
  {
    var n := s.session.next;
    AppendNothing(own);
    if n < |s.stream| {
      CountWhereAppend(own, [s.stream[n]], ClosesRun);
      assert s.stream[..n + 1] == s.stream[..n] + [s.stream[n]];
    }
  }

  lemma FinishFollows(s: State, own: seq<RunEvent>)
    requires Enabled(s, Finish) && Follows(s, own)
    ensures Follows(Apply(s, Finish), own + AcceptedAt(s, Finish))
  {
    AppendNothing(own);
    SubmitQueues(s.outbox, TerminalError(s));
  }

  lemma FollowsStep(s: State, a: Action, own: seq<RunEvent>)
    requires Enabled(s, a) && Follows(s, own)
    ensures Follows(Apply(s, a), own + OwnAt(s, a))
  {
    AppendNothing(own);
    if ActorStep(a) {
      ActorKeepsSession(s, a);
    } else {
      match a
      case Collect => CollectFollows(s, own);
      case Finish => FinishFollows(s, own);
      case Return =>
      case SubmitOther(e) => SubmitQueues(s.outbox, e);
      case CloseElsewhere =>
    }
  }

  lemma StreamKept(s: State, a: Action)
    requires Enabled(s, a)
    ensures Apply(s, a).stream == s.stream && TerminalError(Apply(s, a)) == TerminalError(s)
  {
    if ActorStep(a) {
      ActorKeepsSession(s, a);
    } else {
      match a
      case Collect => if s.session.next < |s.stream| { SubmitQueues(s.outbox, s.stream[s.session.next]); }
      case Finish => SubmitQueues(s.outbox, TerminalError(s));
      case Return =>
      case SubmitOther(e) => SubmitQueues(s.outbox, e);
      case CloseElsewhere =>
    }
  }

  /**
   In every run, whatever other producers and the actor do, the session submits its stream in
   order without skipping or repeating an event, and closes it with a terminal error exactly
   when the stream does not close the run.
   */
  lemma {:induction false} SessionFollowsStream(states: seq<State>, acts: seq<Action>, i: nat)
    requires Run(states, acts) && i < |states|
    ensures Follows(states[i], OwnIn(states, acts, i))
    ensures states[i].stream == states[0].stream && TerminalError(states[i]) == TerminalError(states[0])
  {
    if i > 0 {
      SessionFollowsStream(states, acts, i - 1);
      FollowsStep(states[i - 1], acts[i - 1], OwnIn(states, acts, i - 1));
      StreamKept(states[i - 1], acts[i - 1]);
    }
  }

  lemma {:induction false} GatherAgree(states: seq<State>, acts: seq<Action>, i: nat,
                                       f: (State, Action) -> seq<RunEvent>, g: (State, Action) -> seq<RunEvent>)
    requires i <= |acts| && i <= |states|
    requires forall k :: 0 <= k < i ==> f(states[k], acts[k]) == g(states[k], acts[k])
    ensures Gather(states, acts, i, f) == Gather(states, acts, i, g)
  {
    if i > 0 { GatherAgree(states, acts, i - 1, f, g); }
  }

  lemma AloneOwnsAll(states: seq<State>, acts: seq<Action>, i: nat)
    requires i <= |acts| && i <= |states| && forall k :: 0 <= k < i ==> !acts[k].SubmitOther?
    ensures OwnIn(states, acts, i) == AcceptedIn(states, acts, i)
  {
    GatherAgree(states, acts, i, OwnAt, AcceptedAt);
  }

  lemma {:induction false} NumberedDurable(q: seq<RunEvent>, last: nat)
    requires AllDurable(q)
    ensures |Numbered(q, last)| == |q|
    ensures forall k :: 0 <= k < |q| ==> Numbered(q, last)[k] == q[k].(seqNo := last + k + 1)
  {
    if q != [] {
      NumberedDurable(q[1..], last + 1);
      assert forall k :: 1 <= k < |q| ==> q[k] == q[1..][k - 1];
    }
  }

  /** The events up to the first one that closes the run. */
  function UpToClosing(s: seq<RunEvent>): seq<RunEvent> {
    if s == [] then [] else if ClosesRun(s[0]) then [s[0]] else [s[0]] + UpToClosing(s[1..])
  }

  lemma {:induction false} ClosedPrefix(p: seq<RunEvent>, s: seq<RunEvent>)
    requires p != [] && p <= s && ClosedByLast(p)
    ensures p == UpToClosing(s) && CountWhere(s, ClosesRun) > 0
  {
    if !ClosesRun(s[0]) {
      assert ClosedByLast(p[1..]) by {
        assert forall k :: 0 <= k < |p| - 1 ==> p[1..][k] == p[k + 1];
      }
      ClosedPrefix(p[1..], s[1..]);
      assert p == [s[0]] + p[1..];
    }
  }

  lemma {:induction false} OpenStream(s: seq<RunEvent>)
    requires CountWhere(s, ClosesRun) == 0
    ensures UpToClosing(s) == s
  {
    if s != [] { OpenStream(s[1..]); }
  }

  lemma OwnClosed(base: seq<RunEvent>, own: seq<RunEvent>, last: nat)
    requires CountWhere(base, ClosesRun) == 0 && AllDurable(own)
    requires base + Numbered(own, last) != [] && ClosedByLast(base + Numbered(own, last))
    ensures own != [] && ClosedByLast(own)
  {
    var rows := base + Numbered(own, last);
    NumberedDurable(own, last);
    ClosedByLastCount(rows);
    CountWhereAppend(base, Numbered(own, last), ClosesRun);
    forall k | 0 <= k < |own| ensures ClosesRun(own[k]) <==> k == |own| - 1 {
      assert rows[|base| + k] == own[k].(seqNo := last + k + 1);
    }
  }

  /** The events of a turn: up to the first closing one, or all of them and the terminal error. */
  function TurnEvents(s: State): seq<RunEvent> {
    if CountWhere(s.stream, ClosesRun) > 0 then UpToClosing(s.stream) else s.stream + [TerminalError(s)]
  }

  lemma ClosedOwnIsTurn(s: State, own: seq<RunEvent>)
    requires Follows(s, own) && s.session.Ended? && own != [] && ClosedByLast(own)
    ensures own == TurnEvents(s)
  {
    if own <= s.stream || CountWhere(s.stream, ClosesRun) > 0 { ClosedPrefix(own, s.stream); }
  }

  /** `rows` are `base` and then `events`, unchanged but for consecutive numbers after `last`. */
  ghost predicate Appended(base: seq<RunEvent>, events: seq<RunEvent>, last: nat, rows: seq<RunEvent>) {
    && base <= rows && |rows| == |base| + |events|
    && forall k :: 0 <= k < |events| ==> rows[|base| + k] == events[k].(seqNo := last + k + 1)
  }

  lemma OwnAppended(s: State, base: seq<RunEvent>, own: seq<RunEvent>, last: nat)
    requires CountWhere(base, ClosesRun) == 0 && Follows(s, own) && s.session.Ended?
    requires base + Numbered(own, last) != [] && ClosedByLast(base + Numbered(own, last))
    ensures Appended(base, TurnEvents(s), last, base + Numbered(own, last))
  {
    OwnClosed(base, own, last);
    ClosedOwnIsTurn(s, own);
    NumberedDurable(own, last);
  }

  /**
   A turn without other producers that returns past its barrier, with no early close, has
   added exactly the executor's events up to the first closing one, or, where none closes the
   run, all of them and the terminal error, with consecutive numbers.
   */
  lemma TurnCommitsStream(states: seq<State>, acts: seq<Action>, i: nat)
    requires Run(states, acts) && i < |states| && states[i].session == Ended(true) && !EarlyClose(states, acts, i)
    requires forall k :: 0 <= k < i ==> !acts[k].SubmitOther?
    ensures Appended(
              states[0].outbox.ledger, TurnEvents(states[0]), states[0].outbox.lastSeq, states[i].outbox.ledger)
  {
    var own := OwnIn(states, acts, i);
    ClosedRunIsComplete(states, acts, i);
    BarrierMeansOneClosingEvent(states, acts, i);
    SessionFollowsStream(states, acts, i);
    AloneOwnsAll(states, acts, i);
    OwnAppended(states[i], states[0].outbox.ledger, own, states[0].outbox.lastSeq);
  }

  // ---- What the actor does ------------------------------------------------------------

  /** A durable event that the actor may keep back: its kind, the caller's word and the room left decide. */
  predicate KeptBack(o: Outbox, e: RunEvent, deferred: bool) {
    deferred && e.kind in {OutputDelta, Thinking, UsageUpdated} && |o.pending| + 1 < 32
  }

  /**
   An event received is kept back, or everything pending and the event itself are committed, or
   the actor gives up; a preview is delivered only when nothing is pending any more.
   */
  lemma ReceiveOutcome(o: Outbox, deferred: bool, writeOk: bool, claimOk: bool)
    requires o.queue != [] && o.running
    ensures var e, r := o.queue[0].(seqNo := o.lastSeq + 1), ReceiveEvent(o, deferred, writeOk, claimOk);
            && (e.durable && KeptBack(o, e, deferred) ==>
                  r.running && r.ledger == o.ledger && r.pending == o.pending + [e])
            && (e.durable && !KeptBack(o, e, deferred) ==>
                  if writeOk && !ClosedInDatabase(o)
                  then r.ledger == o.ledger + (o.pending + [e]) && r.pending == [] && (r.running <==> !ClosesRun(e))
                  else !r.running && r.ledger == o.ledger)
            && (!e.durable ==>
                  if o.pending == [] || (writeOk && !ClosedInDatabase(o))
                  then r.running && r.pending == [] && r.ledger == o.ledger + o.pending
                  else !r.running && r.ledger == o.ledger)
  {
    AppendNothing(o.ledger);
  }

  /**
   Giving up drops what is pending. It reports the run as closed exactly when the database says
   so already; and unless the claim itself fails, the database says so afterwards.
   */
  lemma GiveUpOutcome(o: Outbox, claimOk: bool)
    ensures var r := FailClosed(o, claimOk);
            && r.closed && !r.running && r.pending == [] && r.ledger == o.ledger && !r.barrier.Open?
            && (r.barrier.Committed? <==> claimOk && ClosedInDatabase(o))
            && (claimOk ==> ClosedInDatabase(r))
  {
  }

  /** The bounds of an outbox, and what its barrier names. */
  ghost predicate Settled(o: Outbox) {
    && |o.queue| <= 512 && |o.pending| < 32
    && (o.barrier.Committed? ==> o.barrier.seqNo == HeadOf(o))
  }

  lemma ReceiveSettled(o: Outbox, deferred: bool, writeOk: bool, claimOk: bool)
    requires Settled(o) && o.running && o.barrier.Open? && o.queue != []
    ensures Settled(ReceiveEvent(o, deferred, writeOk, claimOk))
  {
  }

  lemma CommitSettled(o: Outbox, writeOk: bool, claimOk: bool)
    requires Settled(o) && o.barrier.Open?
    ensures Commit(o, writeOk).Some? ==> Settled(Commit(o, writeOk).value)
    ensures Settled(FailClosed(o, claimOk))
  {
  }

  lemma DrainSettled(o: Outbox, kept: nat, claimOk: bool)
    requires o.barrier.Open?
    ensures Settled(DrainQueue(o, kept, claimOk))
  {
  }

  lemma SubmitSettled(o: Outbox, e: RunEvent)
    requires Settled(o)
    ensures Settled(Submit(o, e).1)
  {
    EnqueueSettled(o, e, Submittable(o, e));
  }

  lemma EnqueueSettled(o: Outbox, e: RunEvent, valid: bool)
    requires Settled(o)
    ensures Settled(Enqueue(o, e, valid).1)
  {
  }

  lemma SettledStep(s: State, a: Action)
    requires Enabled(s, a) && Settled(s.outbox) && (s.outbox.running ==> s.outbox.barrier.Open?)
    ensures Settled(Apply(s, a).outbox)
  {
    match a
    case Collect => if s.session.next < |s.stream| { SubmitSettled(s.outbox, s.stream[s.session.next]); }
    case Finish => SubmitSettled(s.outbox, TerminalError(s));
    case SubmitOther(e) => SubmitSettled(s.outbox, e);
    case Receive(deferred, writeOk, claimOk) => ReceiveSettled(s.outbox, deferred, writeOk, claimOk);
    case Flush(writeOk, claimOk) => CommitSettled(s.outbox, writeOk, claimOk);
    case Drain(kept, claimOk) => DrainSettled(s.outbox, kept, claimOk);
    case Return =>
    case CloseElsewhere =>
  }

  /**
   In every state of every run the queue holds at most its capacity, fewer events are pending
   than a batch, and a passed barrier names the last committed row.
   */
  lemma {:induction false} RunSettled(states: seq<State>, acts: seq<Action>, i: nat)
    requires Run(states, acts) && i < |states|
    ensures Settled(states[i].outbox)
  {
    if i > 0 {
      RunSettled(states, acts, i - 1);
      RunInv(states, acts, i - 1);
      SettledStep(states[i - 1], acts[i - 1]);
    }
  }

  /** The claim of the task row, where the step makes one, does not fail. */
  predicate Claims(a: Action) {
    match a
    case Receive(_, _, claimOk) => claimOk
    case Flush(_, claimOk) => claimOk
    case Drain(_, claimOk) => claimOk
    case _ => true
  }

  lemma ReceiveShows(o: Outbox, deferred: bool, writeOk: bool)
    requires o.queue != [] && o.running
    ensures var r := ReceiveEvent(o, deferred, writeOk, true); !r.running ==> ClosedInDatabase(r)
  {
    var e := o.queue[0].(seqNo := o.lastSeq + 1);
    if ClosesRun(e) {
      CountWhereAppend(o.ledger, o.pending + [e], ClosesRun);
      CountWhereAppend(o.pending, [e], ClosesRun);
    }
  }

  lemma ShowsStep(s: State, a: Action)
    requires Enabled(s, a) && Claims(a) && (!s.outbox.running ==> ClosedInDatabase(s.outbox))
    ensures !Apply(s, a).outbox.running ==> ClosedInDatabase(Apply(s, a).outbox)
  {
    match a
    case Receive(deferred, writeOk, _) => ReceiveShows(s.outbox, deferred, writeOk);
    case Flush(_, _) => GiveUpOutcome(s.outbox, true);
    case Drain(kept, _) =>
    case _ => OtherStepsFrame(s, a);
  }

  /** An actor that has ended leaves a run that the database reports as closed, if no claim failed. */
  lemma {:induction false} EndedRunIsClosed(states: seq<State>, acts: seq<Action>, i: nat)
    requires Run(states, acts) && i < |states| && forall k :: 0 <= k < i ==> Claims(acts[k])
    ensures !states[i].outbox.running ==> ClosedInDatabase(states[i].outbox)
  {
    if i > 0 {
      EndedRunIsClosed(states, acts, i - 1);
      ShowsStep(states[i - 1], acts[i - 1]);
    }
  }

  /** An event of this run that meets the durable contract once it is numbered. */
  predicate Storeworthy(runId: string, e: RunEvent) { e.runId == runId && DurableContract(e.(seqNo := 1)) }

  function Worthy(runId: string): RunEvent -> bool {
    (e: RunEvent) => Storeworthy(runId, e)
  }

  lemma EnqueueNeedsValid(o: Outbox, e: RunEvent, valid: bool)
    ensures Enqueue(o, e, valid).0 == Accepted ==> valid
  {
  }

  lemma AcceptedIsWorthy(s: State, a: Action)
    ensures forall e :: e in AcceptedAt(s, a) ==> Storeworthy(s.outbox.runId, e)
  {
    forall e | e in AcceptedAt(s, a) ensures Storeworthy(s.outbox.runId, e) {
      EnqueueNeedsValid(s.outbox, e, Submittable(s.outbox, e));
    }
  }

  lemma {:induction false} AllAcceptedWorthy(states: seq<State>, acts: seq<Action>, i: nat)
    requires Run(states, acts) && i < |states|
    ensures forall e :: e in AcceptedIn(states, acts, i) ==> Worthy(states[0].outbox.runId)(e)
  {
    if i > 0 {
      AllAcceptedWorthy(states, acts, i - 1);
      SessionFollowsStream(states, acts, i - 1);
      AcceptedIsWorthy(states[i - 1], acts[i - 1]);
    }
  }

  lemma AnyNumber(runId: string, e: RunEvent, n: nat)
    requires Storeworthy(runId, e) && n > 0
    ensures DurableContract(e.(seqNo := n)) && e.runId == runId
  {
  }

  lemma {:induction false} NumberedFrom(q: seq<RunEvent>, last: nat, x: RunEvent)
    requires x in Numbered(q, last)
    ensures x.durable && x.seqNo > 0 && exists e :: e in q && x == e.(seqNo := x.seqNo)
  {
    if q[0].durable && x == q[0].(seqNo := last + 1) {
      assert q[0] in q;
    } else {
      NumberedFrom(q[1..], last + 1, x);
      var e :| e in q[1..] && x == e.(seqNo := x.seqNo);
      assert e in q;
    }
  }

  lemma NumberedWorthy(q: seq<RunEvent>, last: nat, runId: string, x: RunEvent)
    requires (forall e :: e in q ==> Worthy(runId)(e)) && x in Numbered(q, last)
    ensures x.durable && x.runId == runId && DurableContract(x)
  {
    NumberedFrom(q, last, x);
    var e :| e in q && x == e.(seqNo := x.seqNo);
    assert Worthy(runId)(e);
    AnyNumber(runId, e, x.seqNo);
  }

  /** Every row the run commits is a durable event of this run that meets the durable contract. */
  lemma CommittedRowsMeetContract(states: seq<State>, acts: seq<Action>, i: nat, k: nat)
    requires Run(states, acts) && i < |states| && |states[0].outbox.ledger| <= k < |states[i].outbox.ledger|
    ensures var x := states[i].outbox.ledger[k];
            x.durable && x.runId == states[0].outbox.runId && DurableContract(x)
  {
    AcceptedIsConserved(states, acts, i);
    AllAcceptedWorthy(states, acts, i);
    var acc, base := AcceptedIn(states, acts, i), states[0].outbox.ledger;
    var added := Numbered(acc, states[0].outbox.lastSeq);
    assert states[i].outbox.ledger[k] == (base + added)[k] == added[k - |base|];
    NumberedWorthy(acc, states[0].outbox.lastSeq, states[0].outbox.runId, added[k - |base|]);
  }

  // ---- Reaching the barrier -------------------------------------------------------

  predicate ActorStep(a: Action) { a.Receive? || a.Flush? || a.Drain? }

  ghost predicate ActorSteps(states: seq<State>, acts: seq<Action>) {
    && |states| == |acts| + 1
    && forall i :: 0 <= i < |acts| ==>
         ActorStep(acts[i]) && Enabled(states[i], acts[i]) && states[i + 1] == Apply(states[i], acts[i])
  }

  lemma ActorStepsCons(s: State, a: Action, states: seq<State>, acts: seq<Action>)
    requires ActorStep(a) && Enabled(s, a) && ActorSteps(states, acts) && states[0] == Apply(s, a)
    ensures ActorSteps([s] + states, [a] + acts)
  {
    var states', acts' := [s] + states, [a] + acts;
    forall i | 0 <= i < |acts'|
      ensures ActorStep(acts'[i]) && Enabled(states'[i], acts'[i])
      ensures states'[i + 1] == Apply(states'[i], acts'[i])
    {
      if i > 0 { assert acts'[i] == acts[i - 1] && states'[i] == states[i - 1]; }
    }
  }

  lemma ReceiveShortensQueue(s: State, w: bool, c: bool)
    requires Inv(s) && s.outbox.closed && s.outbox.running && !s.outbox.failureRequested
    ensures Enabled(s, Receive(false, w, c))
    ensures Apply(s, Receive(false, w, c)).outbox.closed
    ensures |Apply(s, Receive(false, w, c)).outbox.queue| == |s.outbox.queue| - 1
  {
    CountWherePositive(s.outbox.queue, ClosesRun);
  }

  /** Once producers are closed, the actor decides the barrier whatever its writes do. */
  lemma {:induction false} ClosedOutboxReachesBarrier(s: State, writes: seq<bool>, claims: seq<bool>)
    returns (states: seq<State>, acts: seq<Action>)
    requires Inv(s) && s.outbox.closed
    requires |writes| == |claims| == |s.outbox.queue| + 1
    ensures ActorSteps(states, acts) && states[0] == s && |acts| <= |s.outbox.queue| + 1
    ensures !states[|acts|].outbox.barrier.Open?
    ensures (forall i :: 0 <= i < |writes| ==> writes[i]) ==> forall k :: 0 <= k < |acts| ==> Undisturbed(acts[k])
    decreases |s.outbox.queue|
  {
    if !s.outbox.running {
      states, acts := [s], [];
    } else if s.outbox.failureRequested {
      var a := Drain(0, claims[0]);
      states, acts := [s, Apply(s, a)], [a];
    } else {
      var a := Receive(false, writes[0], claims[0]);
      ReceiveShortensQueue(s, writes[0], claims[0]);
      StepInv(s, a);
      states, acts := ClosedOutboxReachesBarrier(Apply(s, a), writes[1..], claims[1..]);
      ActorStepsCons(s, a, states, acts);
      states, acts := [s] + states, [a] + acts;
    }
  }

  /** How many actor steps are left at most: a queued event is received and then committed. */
  function ActorRank(o: Outbox): nat { if o.running then 1 + 2 * |o.queue| + |o.pending| else 0 }

  lemma CommitRank(o: Outbox, writeOk: bool, claimOk: bool)
    ensures Commit(o, writeOk).Some? ==>
      var o' := Commit(o, writeOk).value;
      o'.queue == o.queue && o'.running == o.running && o'.closed == o.closed && o'.pending == []
    ensures !FailClosed(o, claimOk).running && FailClosed(o, claimOk).closed
  {
  }

  lemma ReceiveRank(o: Outbox, deferred: bool, writeOk: bool, claimOk: bool)
    requires o.queue != [] && o.running
    ensures ActorRank(ReceiveEvent(o, deferred, writeOk, claimOk)) < ActorRank(o)
    ensures o.closed ==> ReceiveEvent(o, deferred, writeOk, claimOk).closed
  {
    var e := o.queue[0].(seqNo := o.lastSeq + 1);
    var o1 := o.(queue := o.queue[1..], lastSeq := o.lastSeq + 1);
    CommitRank(o1, writeOk, claimOk);
    CommitRank(o1.(pending := o1.pending + [e]), writeOk, claimOk);
  }

  /** Every actor step uses up work, deferring or not, whatever its writes do. */
  lemma ActorStepsRunOut(s: State, a: Action)
    requires ActorStep(a) && Enabled(s, a)
    ensures ActorRank(Apply(s, a).outbox) < ActorRank(s.outbox)
    ensures s.outbox.closed ==> Apply(s, a).outbox.closed
  {
    match a
    case Receive(deferred, writeOk, claimOk) => ReceiveRank(s.outbox, deferred, writeOk, claimOk);
    case Flush(writeOk, claimOk) => CommitRank(s.outbox, writeOk, claimOk);
    case Drain(kept, claimOk) => DrainRank(s.outbox, kept, claimOk);
  }

  lemma DrainRank(o: Outbox, kept: nat, claimOk: bool)
    ensures !DrainQueue(o, kept, claimOk).running && DrainQueue(o, kept, claimOk).closed
  {
  }

  /** With producers closed, a running actor always has a step to take. */
  lemma ActorNeverStuck(s: State) returns (a: Action)
    requires Inv(s) && s.outbox.closed && s.outbox.running
    ensures ActorStep(a) && Enabled(s, a)
  {
    if s.outbox.failureRequested {
      a := Drain(0, true);
    } else {
      CountWherePositive(s.outbox.queue, ClosesRun);
      a := Receive(true, true, true);
    }
  }

  lemma {:induction false} ActorStepsKeep(states: seq<State>, acts: seq<Action>, i: nat)
    requires ActorSteps(states, acts) && Inv(states[0]) && i < |states|
    ensures Inv(states[i]) && ActorRank(states[i].outbox) + i <= ActorRank(states[0].outbox)
    ensures states[0].outbox.closed ==> states[i].outbox.closed
  {
    if i > 0 {
      ActorStepsKeep(states, acts, i - 1);
      StepInv(states[i - 1], acts[i - 1]);
      ActorStepsRunOut(states[i - 1], acts[i - 1]);
    }
  }

  /**
   Once producers are closed, every schedule of the actor, deferring or not and whatever its
   writes do, ends after boundedly many steps, and where it can go no further it has decided
   the barrier.
   */
  lemma EveryScheduleDecides(states: seq<State>, acts: seq<Action>)
    requires ActorSteps(states, acts) && Inv(states[0]) && states[0].outbox.closed
    ensures |acts| <= ActorRank(states[0].outbox)
    ensures (forall a :: ActorStep(a) ==> !Enabled(states[|acts|], a)) <==> !states[|acts|].outbox.barrier.Open?
  {
    ActorStepsKeep(states, acts, |acts|);
    var t := states[|acts|];
    if t.outbox.running { var a := ActorNeverStuck(t); }
  }

  // ---- Waiting after a refused event --------------------------------------------------------

  /** The session waits because an event of its stream was refused, and nothing is closed. */
  ghost predicate WaitsOpen(s: State) {
    s.session == AwaitingBarrier(Some(InvalidEvent)) && !s.outbox.closed && !s.outbox.taskClosed
  }

  /** Steps of the session and of an actor whose writes succeed. */
  predicate Undisturbed(a: Action) {
    !a.SubmitOther? && !a.CloseElsewhere? && ((a.Receive? || a.Flush?) ==> a.writeOk)
  }

  lemma WaitsOpenStep(s: State, a: Action)
    requires Inv(s) && Enabled(s, a) && WaitsOpen(s) && Undisturbed(a)
    ensures WaitsOpen(Apply(s, a)) && Apply(s, a).outbox.barrier.Open?
  {
    CountWherePositive(s.outbox.queue, ClosesRun);
    CountWherePositive(s.outbox.ledger, ClosesRun);
  }

  /**
   A session that waits after a refused event keeps waiting, over any number of steps, as
   long as no other producer submits, no other writer finishes the task row and no write fails.
   */
  lemma {:induction false} OpenOutboxKeepsWaiting(states: seq<State>, acts: seq<Action>, i: nat, j: nat)
    requires Run(states, acts) && i <= j < |states| && WaitsOpen(states[i])
    requires forall k :: i <= k < j ==> Undisturbed(acts[k])
    ensures WaitsOpen(states[j]) && states[j].outbox.barrier.Open?
    decreases j
  {
    if i == j {
      WaitsWithOpenBarrier(states, acts, j);
    } else {
      OpenOutboxKeepsWaiting(states, acts, i, j - 1);
      WaitsOneMoreStep(states, acts, j - 1);
    }
  }

  lemma WaitsWithOpenBarrier(states: seq<State>, acts: seq<Action>, i: nat)
    requires Run(states, acts) && i < |states| && WaitsOpen(states[i])
    ensures states[i].outbox.barrier.Open?
  {
    RunInv(states, acts, i);
  }

  lemma WaitsOneMoreStep(states: seq<State>, acts: seq<Action>, i: nat)
    requires Run(states, acts) && i < |acts| && WaitsOpen(states[i]) && Undisturbed(acts[i])
    ensures WaitsOpen(states[i + 1]) && states[i + 1].outbox.barrier.Open?
  {
    RunInv(states, acts, i);
    RunStep(states, acts, i);
    WaitsOpenStep(states[i], acts[i]);
  }

  lemma RunStep(states: seq<State>, acts: seq<Action>, i: nat)
    requires Run(states, acts) && i < |acts|
    ensures Enabled(states[i], acts[i]) && states[i + 1] == Apply(states[i], acts[i])
  {
  }

  /** Something that the database will refuse once the task row is finished. */
  predicate HasDurableWork(o: Outbox) {
    o.pending != [] || exists i :: 0 <= i < |o.queue| && o.queue[i].durable
  }

  /** What decides whether the actor alone can release the turn. */
  predicate Releasable(o: Outbox) { o.closed || (o.taskClosed && HasDurableWork(o)) }

  lemma UnreleasableStep(s: State, a: Action)
    requires Inv(s) && ActorStep(a) && Enabled(s, a) && Undisturbed(a) && !Releasable(s.outbox)
    ensures !Releasable(Apply(s, a).outbox) && Apply(s, a).outbox.barrier.Open?
  {
    var o := s.outbox;
    CountWherePositive(o.queue, ClosesRun);
    CountWherePositive(o.ledger, ClosesRun);
    if a.Receive? && o.taskClosed {
      assert !o.queue[0].durable;
      assert forall i :: 0 <= i < |o.queue[1..]| ==> o.queue[1..][i] == o.queue[i + 1];
    }
  }

  lemma {:induction false} UnreleasableStays(states: seq<State>, acts: seq<Action>, i: nat)
    requires ActorSteps(states, acts) && Inv(states[0]) && !Releasable(states[0].outbox) && i < |states|
    requires forall k :: 0 <= k < |acts| ==> Undisturbed(acts[k])
    ensures Inv(states[i]) && !Releasable(states[i].outbox) && states[i].outbox.barrier.Open?
  {
    if i > 0 {
      UnreleasableStays(states, acts, i - 1);
      StepInv(states[i - 1], acts[i - 1]);
      UnreleasableStep(states[i - 1], acts[i - 1]);
    }
  }

  /** With the task row finished, the first durable work that the actor commits decides the barrier. */
  lemma {:induction false} RefusedWorkDecides(s: State) returns (states: seq<State>, acts: seq<Action>)
    requires Inv(s) && s.outbox.running && !s.outbox.failureRequested && s.outbox.taskClosed && HasDurableWork(s.outbox)
    ensures ActorSteps(states, acts) && states[0] == s && !states[|acts|].outbox.barrier.Open?
    ensures forall k :: 0 <= k < |acts| ==> Undisturbed(acts[k])
    decreases |s.outbox.queue|
  {
    var o := s.outbox;
    if o.pending != [] {
      var a := Flush(true, true);
      states, acts := [s, Apply(s, a)], [a];
    } else {
      var a := Receive(false, true, true);
      var t := Apply(s, a);
      if o.queue[0].durable {
        states, acts := [s, t], [a];
      } else {
        StepInv(s, a);
        var i :| 0 <= i < |o.queue| && o.queue[i].durable;
        assert t.outbox.queue[i - 1].durable;
        states, acts := RefusedWorkDecides(t);
        ActorStepsCons(s, a, states, acts);
        states, acts := [s] + states, [a] + acts;
      }
    }
  }

  /** The actor can decide the barrier without a failing write exactly when the outbox is releasable. */
  ghost predicate ActorCanDecide(s: State) {
    exists states: seq<State>, acts: seq<Action> ::
      && ActorSteps(states, acts) && states[0] == s && !states[|acts|].outbox.barrier.Open?
      && forall k :: 0 <= k < |acts| ==> Undisturbed(acts[k])
  }

  /**
   A waiting turn can be released by the actor alone, without a failing write, exactly when
   producers are closed or the task row is finished and durable work is left to be refused.
   */
  lemma ReleaseCondition(s: State)
    requires Inv(s)
    ensures ActorCanDecide(s) <==> Releasable(s.outbox)
  {
    if s.outbox.closed {
      var yes := seq(|s.outbox.queue| + 1, _ => true);
      var states, acts := ClosedOutboxReachesBarrier(s, yes, yes);
    } else if Releasable(s.outbox) {
      var states, acts := RefusedWorkDecides(s);
    } else if ActorCanDecide(s) {
      var states: seq<State>, acts: seq<Action> :|
        && ActorSteps(states, acts) && states[0] == s && !states[|acts|].outbox.barrier.Open?
        && forall k :: 0 <= k < |acts| ==> Undisturbed(acts[k]);
      UnreleasableStays(states, acts, |acts|);
    }
  }

  /** A paused `done` is refused and changes nothing, so it neither closes nor pauses the run. */
  lemma PausedDoneRefused(o: Outbox, e: RunEvent)
    requires e.kind == Done && e.status == Some("paused")
    ensures Submit(o, e) == (InvalidEvent, o)
  {
    assert |"paused"| == 6 && |"completed"| == 9 && |"cancelled"| == 9 && |"timed_out"| == 9;
  }

  lemma MessagePayload(text: string)
    ensures HasAllPaths(Object(map["message" := Str(text)]), RequiredPaths(Error))
  {
    var payload := Object(map["message" := Str(text)]);
    assert Field(payload, "message") == Some(Str(text));
    assert ["message"][1..] == [];
    assert HasPath(payload, ["message"]);
  }

  lemma TerminalErrorSubmittable(s: State)
    requires !IsBlank(s.outbox.runId) && !IsBlank(s.turnId)
    ensures ClosesRun(TerminalError(s)) && Submittable(s.outbox, TerminalError(s))
    ensures TerminalError(s).kind == Error && TerminalError(s).status == Some("failed") && TerminalError(s).turnId == s.turnId
  {
    MessagePayload("Agent execution failed.");
  }

  lemma AcceptedWhenOpen(o: Outbox, e: RunEvent)
    requires Submittable(o, e) && ClosesRun(e) && !o.closed && o.running && |o.queue| < QUEUE_CAPACITY
    ensures Submit(o, e) == (Accepted, o.(queue := o.queue + [e], closed := true))
  {
  }

  lemma TerminalErrorAccepted(s: State)
    requires !IsBlank(s.outbox.runId) && !IsBlank(s.turnId)
    requires !s.outbox.closed && s.outbox.running && |s.outbox.queue| < QUEUE_CAPACITY
    ensures ClosesRun(TerminalError(s))
    ensures Submit(s.outbox, TerminalError(s))
         == (Accepted, s.outbox.(queue := s.outbox.queue + [TerminalError(s)], closed := true))
  {
    TerminalErrorSubmittable(s);
    AcceptedWhenOpen(s.outbox, TerminalError(s));
  }

  /** A batch refused because the task row is finished still decides the barrier. */
  lemma RefusedBatchPassesBarrier(s: State)
    requires s.session == AwaitingBarrier(None) && s.outbox.running && !s.outbox.failureRequested
    requires s.outbox.taskClosed && s.outbox.queue != [] && s.outbox.queue[0].durable
    requires ClosesRun(s.outbox.queue[0])
    ensures Enabled(s, Receive(false, true, true))
    ensures var t := Apply(s, Receive(false, true, true));
            && t.outbox.ledger == s.outbox.ledger
            && Enabled(t, Return) && Apply(t, Return).session == Ended(true)
            && Apply(t, Return).outbox.ledger == s.outbox.ledger
  {
  }

  lemma FinishSubmitsTerminal(s: State)
    requires s.session == Finishing && !s.terminalSubmitted
    requires !IsBlank(s.outbox.runId) && !IsBlank(s.turnId)
    requires !s.outbox.closed && s.outbox.running && |s.outbox.queue| < QUEUE_CAPACITY
    ensures ClosesRun(TerminalError(s)) && TerminalError(s).durable
    ensures Apply(s, Finish)
         == s.(session := AwaitingBarrier(None),
               outbox := s.outbox.(queue := s.outbox.queue + [TerminalError(s)], closed := true))
  {
    TerminalErrorAccepted(s);
  }

  ghost predicate Step(s: State, a: Action, t: State) { Enabled(s, a) && t == Apply(s, a) }

  lemma RunExtends(states: seq<State>, acts: seq<Action>, a: Action, t: State)
    requires Run(states, acts) && Step(states[|acts|], a, t)
    ensures Run(states + [t], acts + [a])
  {
    forall i | 0 <= i < |acts| + 1 ensures Step((states + [t])[i], (acts + [a])[i], (states + [t])[i + 1]) {
      if i < |acts| { RunStep(states, acts, i); }
    }
    StepsMakeRun(states + [t], acts + [a]);
  }

  lemma StepsMakeRun(states: seq<State>, acts: seq<Action>)
    requires |states| == |acts| + 1 && Initial(states[0])
    requires forall i :: 0 <= i < |acts| ==> Step(states[i], acts[i], states[i + 1])
    ensures Run(states, acts)
  {
    forall i | 0 <= i < |acts| ensures Enabled(states[i], acts[i]) && states[i + 1] == Apply(states[i], acts[i]) {
      assert Step(states[i], acts[i], states[i + 1]);
    }
  }

  lemma LastThreeSteps(s: State) returns (s3: State, s4: State, s5: State)
    requires s.session == Finishing && !s.terminalSubmitted && s.outbox.taskClosed
    requires !IsBlank(s.outbox.runId) && !IsBlank(s.turnId)
    requires !s.outbox.closed && s.outbox.running && !s.outbox.failureRequested && s.outbox.queue == []
    ensures Step(s, Finish, s3) && Step(s3, Receive(false, true, true), s4) && Step(s4, Return, s5)
    ensures s5.session == Ended(true) && s5.outbox.ledger == s.outbox.ledger
  {
    FinishSubmitsTerminal(s);
    s3 := Apply(s, Finish);
    RefusedBatchPassesBarrier(s3);
    s4 := Apply(s3, Receive(false, true, true));
    s5 := Apply(s4, Return);
  }

  lemma FirstTwoSteps(runId: string, turnId: string) returns (s0: State, s1: State, s2: State)
    ensures Initial(s0) && Step(s0, Collect, s1) && Step(s1, CloseElsewhere, s2)
    ensures s2.session == Finishing && !s2.terminalSubmitted && s2.turnId == turnId
    ensures s2.outbox == Outbox(runId, false, [], false, true, 0, [], [], true, Open)
  {
    s0 := State([], turnId, Collecting(0), false, Outbox(runId, false, [], false, true, 0, [], [], false, Open), false);
    s1 := Apply(s0, Collect);
    s2 := Apply(s1, CloseElsewhere);
  }

  /** The initial state of a turn with this stream, on a run without events. */
  function Fresh(runId: string, turnId: string, stream: seq<RunEvent>): State {
    State(stream, turnId, Collecting(0), false, Outbox(runId, false, [], false, true, 0, [], [], false, Open), false)
  }

  lemma CollectClosing(s: State, e: RunEvent) returns (s1: State, s2: State, s3: State)
    requires s.stream == [e] && s.session == Collecting(0) && Submittable(s.outbox, e) && ClosesRun(e)
    requires !s.outbox.closed && s.outbox.running && s.outbox.queue == []
    ensures Step(s, Collect, s1) && Step(s1, Collect, s2) && Step(s2, Finish, s3)
    ensures s3 == s.(session := AwaitingBarrier(None), terminalSubmitted := true,
                     outbox := s.outbox.(queue := [e], closed := true))
  {
    AcceptedWhenOpen(s.outbox, e);
    assert s.outbox.queue + [e] == [e];
    s1 := Apply(s, Collect);
    s2 := Apply(s1, Collect);
    s3 := Apply(s2, Finish);
  }

  lemma CommitClosing(s: State, e: RunEvent) returns (t: State, u: State)
    requires s.session == AwaitingBarrier(None) && s.outbox.running && !s.outbox.failureRequested
    requires s.outbox.queue == [e] && e.durable && ClosesRun(e) && s.outbox.pending == [] && s.outbox.ledger == []
    requires !s.outbox.taskClosed
    ensures Step(s, Receive(false, true, true), t) && Step(t, Return, u)
    ensures u.session == Ended(true) && u.outbox.ledger == [e.(seqNo := s.outbox.lastSeq + 1)]
  {
    var e' := e.(seqNo := s.outbox.lastSeq + 1);
    assert ClosesRun(e') && [] + [e'] == [e'];
    t := Apply(s, Receive(false, true, true));
    u := Apply(t, Return);
  }

  /** The ordinary turn: the executor's closing event is committed and the turn returns past its barrier. */
  lemma OrdinaryTurn(runId: string, turnId: string, e: RunEvent) returns (states: seq<State>, acts: seq<Action>)
    requires Submittable(Fresh(runId, turnId, [e]).outbox, e) && ClosesRun(e)
    ensures Run(states, acts) && states[|acts|].session == Ended(true)
    ensures states[|acts|].outbox.ledger == [e.(seqNo := 1)]
  {
    var s0 := Fresh(runId, turnId, [e]);
    var s1, s2, s3 := CollectClosing(s0, e);
    var s4, s5 := CommitClosing(s3, e);
    states, acts := [s0], [];
    RunExtends(states, acts, Collect, s1);
    states, acts := states + [s1], acts + [Collect];
    RunExtends(states, acts, Collect, s2);
    states, acts := states + [s2], acts + [Collect];
    RunExtends(states, acts, Finish, s3);
    states, acts := states + [s3], acts + [Finish];
    RunExtends(states, acts, Receive(false, true, true), s4);
    states, acts := states + [s4], acts + [Receive(false, true, true)];
    RunExtends(states, acts, Return, s5);
    states, acts := states + [s5], acts + [Return];
  }

  /** A stream that holds a paused `done` gets there: one step, and the turn waits on an open run. */
  lemma PausedDoneWaits(runId: string, turnId: string, e: RunEvent) returns (states: seq<State>, acts: seq<Action>)
    requires e.kind == Done && e.status == Some("paused")
    ensures Run(states, acts) && |acts| == 1 && states[0] == Fresh(runId, turnId, [e])
    ensures WaitsOpen(states[1]) && !Releasable(states[1].outbox)
  {
    var s0 := Fresh(runId, turnId, [e]);
    PausedDoneRefused(s0.outbox, e);
    var s1 := Apply(s0, Collect);
    states, acts := [s0], [];
    RunExtends(states, acts, Collect, s1);
    states, acts := states + [s1], acts + [Collect];
  }

  /** The exception is real: with the task row finished elsewhere the barrier needs no event. */
  lemma BarrierWithoutClosingEvent(runId: string, turnId: string)
    returns (states: seq<State>, acts: seq<Action>)
    requires !IsBlank(runId) && !IsBlank(turnId)
    ensures Run(states, acts) && states[|acts|].session == Ended(true)
    ensures CountWhere(states[|acts|].outbox.ledger, ClosesRun) == 0
  {
    var s0, s1, s2 := FirstTwoSteps(runId, turnId);
    var s3, s4, s5 := LastThreeSteps(s2);
    states, acts := [s0], [];
    RunExtends(states, acts, Collect, s1);
    states, acts := states + [s1], acts + [Collect];
    RunExtends(states, acts, CloseElsewhere, s2);
    states, acts := states + [s2], acts + [CloseElsewhere];
    RunExtends(states, acts, Finish, s3);
    states, acts := states + [s3], acts + [Finish];
    RunExtends(states, acts, Receive(false, true, true), s4);
    states, acts := states + [s4], acts + [Receive(false, true, true)];
    RunExtends(states, acts, Return, s5);
    states, acts := states + [s5], acts + [Return];
  }
}
