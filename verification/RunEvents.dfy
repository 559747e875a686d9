/**
 Run events: their kinds, the contract a durable event meets, and which events
 close a run for good.
 */
module RunEvents {
  import opened Prelude

  datatype Json =
    | Null
    | Bool(b: bool)
    | Number(n: int)
    | Str(s: string)
    | Array(items: seq<Json>)
    | Object(fields: map<string, Json>)

  datatype EventKind =
    | OutputDelta | OutputSnapshot | StreamReset | Thinking | Status | PlanUpdated
    | ToolPreparing | ToolStarted | ToolProgress | ToolCompleted
    | ApprovalRequested | ApprovalResolved | RecoveryAttempt | UsageUpdated | AutoCompacted
    | Done | Error

  datatype RunEvent = RunEvent(
    version: nat, runId: string, turnId: string, seqNo: nat,
    kind: EventKind, status: Option<string>, durable: bool, payload: Json)

  const EVENT_VERSION: nat := 2

  /** The name a kind has in the `kind` column. */
  function WireName(k: EventKind): string {
    match k
    case OutputDelta => "outputDelta"
    case OutputSnapshot => "outputSnapshot"
    case StreamReset => "streamReset"
    case Thinking => "thinking"
    case Status => "status"
    case PlanUpdated => "planUpdated"
    case ToolPreparing => "toolPreparing"
    case ToolStarted => "toolStarted"
    case ToolProgress => "toolProgress"
    case ToolCompleted => "toolCompleted"
    case ApprovalRequested => "approvalRequested"
    case ApprovalResolved => "approvalResolved"
    case RecoveryAttempt => "recoveryAttempt"
    case UsageUpdated => "usageUpdated"
    case AutoCompacted => "autoCompacted"
    case Done => "done"
    case Error => "error"
  }

  predicate IsTerminal(e: RunEvent) { e.kind.Done? || e.kind.Error? }

  /** An old `done` with status `paused` is a turn boundary, not the end of the run. */
  predicate ClosesRun(e: RunEvent) {
    IsTerminal(e) && !(e.kind == Done && e.status == Some("paused"))
  }

  // ---- The durable contract ---------------------------------------------------

  function Field(j: Json, name: string): Option<Json> {
    if j.Object? && name in j.fields then Some(j.fields[name]) else None
  }

  /** What a path of field names leads to. */
  function At(j: Json, path: seq<string>): Option<Json>
    decreases |path|
  {
    if path == [] then Some(j) else
    match Field(j, path[0])
    case None => None
    case Some(next) => At(next, path[1..])
  }

  predicate HasPath(j: Json, path: seq<string>) {
    At(j, path).Some? && At(j, path).value != Null
  }

  predicate HasAllPaths(j: Json, paths: seq<seq<string>>) {
    forall i :: 0 <= i < |paths| ==> HasPath(j, paths[i])
  }

  /** The walk of `payload_has_path`: one field at a time, stopping at a miss. */
  method PayloadHasPath(payload: Json, path: seq<string>) returns (found: bool)
    ensures found == HasPath(payload, path)
  {
    var current := payload;
    var i := 0;
    while i < |path|
      invariant 0 <= i <= |path|
      invariant At(payload, path) == At(current, path[i..])
    {
      assert path[i..][0] == path[i] && path[i..][1..] == path[i + 1..];
      match Field(current, path[i])
      case None => return false;
      case Some(next) => current := next;
      i := i + 1;
    }
    assert path[i..] == [];
    return current != Null;
  }

  function RequiredPaths(k: EventKind): seq<seq<string>> {
    match k
    case OutputDelta => [["delta"]]
    case OutputSnapshot => [["blockId"], ["channel"], ["text"]]
    case StreamReset => [["reason"]]
    case Thinking => [["content"]]
    case Status => [["content"]]
    case PlanUpdated => [["plan"]]
    case ToolPreparing => [["run", "callId"], ["run", "toolName"], ["run", "status"]]
    case ToolStarted => [["run", "callId"], ["run", "toolName"], ["run", "status"]]
    case ToolProgress => [["run", "callId"], ["run", "toolName"], ["run", "status"]]
    case ToolCompleted => [["run", "callId"], ["run", "toolName"], ["run", "status"]]
    case ApprovalRequested => [["request"]]
    case ApprovalResolved => [["requestId"], ["decision"]]
    case RecoveryAttempt => [["reason"]]
    case UsageUpdated => [["usageTotal"], ["lastPromptTokens"]]
    case AutoCompacted => [["evictedCount"]]
    case Done => [["message"], ["usageTotal"]]
    case Error => [["message"]]
  }

  function AlternativePaths(k: EventKind): seq<seq<seq<string>>> {
    match k
    case OutputDelta => [[["blockId"], ["channel"], ["offset"], ["delta"]]]
    case ToolPreparing => [[["toolName"]]]
    case ToolStarted => [[["toolName"]]]
    case ToolProgress => [[["note"]]]
    case ToolCompleted => [[["toolName"]]]
    case RecoveryAttempt =>
      [[["state", "state"], ["state", "providerId"], ["state", "modelId"],
        ["state", "attempt"], ["state", "maxAttempts"]]]
    case _ => []
  }

  predicate PayloadContract(e: RunEvent) {
    || HasAllPaths(e.payload, RequiredPaths(e.kind))
    || exists i :: 0 <= i < |AlternativePaths(e.kind)| &&
         HasAllPaths(e.payload, AlternativePaths(e.kind)[i])
  }

  /** `validate_durable_contract` accepts `e`. */
  predicate DurableContract(e: RunEvent) {
    && e.version == EVENT_VERSION
    && !IsBlank(e.runId) && !IsBlank(e.turnId)
    && e.seqNo != 0
    && PayloadContract(e)
  }

  // ---- Validation of one turn's log ---------------------------------------------

  datatype TurnError =
    | EmptyLog | MissingRunId | MissingTurnId | UnsupportedVersion | MixedRunIds | MixedTurnIds
    | SequenceGap(expected: nat, actual: nat) | TerminalCount(count: nat) | TerminalNotLast

  /** Event `i` belongs to the turn of the first event and has the next number. */
  predicate InTurn(log: seq<RunEvent>, i: nat)
    requires i < |log|
  {
    && log[i].version == EVENT_VERSION
    && log[i].runId == log[0].runId && log[i].turnId == log[0].turnId
    && log[i].seqNo == log[0].seqNo + i
  }

  ghost predicate ClosedByLast(log: seq<RunEvent>) {
    forall i :: 0 <= i < |log| ==> (ClosesRun(log[i]) <==> i == |log| - 1)
  }

  /** One contiguous, single-run, single-turn log whose only closing event is its last. */
  ghost predicate WellFormedTurn(log: seq<RunEvent>) {
    && log != [] && !IsBlank(log[0].runId) && !IsBlank(log[0].turnId)
    && (forall i :: 0 <= i < |log| ==> InTurn(log, i))
    && ClosedByLast(log)
  }

  /** Counting closing events decides whether the last one is the only one. */
  lemma ClosedByLastCount(log: seq<RunEvent>)
    requires log != []
    ensures ClosedByLast(log) <==> CountWhere(log, ClosesRun) == 1 && ClosesRun(log[|log| - 1])
  {
    var n := |log| - 1;
    assert log == log[..n] + [log[n]];
    CountWhereAppend(log[..n], [log[n]], ClosesRun);
    CountWherePositive(log[..n], ClosesRun);
    assert forall i :: 0 <= i < n ==> log[..n][i] == log[i];
    if CountWhere(log, ClosesRun) == 1 && ClosesRun(log[n]) {
      assert forall i :: 0 <= i < n ==> !ClosesRun(log[..n][i]);
    }
  }

  /** The validator's loop: checks every event and collects the closing ones. */
  method CheckEvents(log: seq<RunEvent>) returns (failure: Option<TurnError>, terminals: seq<nat>)
    ensures failure.None? <==> forall i :: 0 <= i < |log| ==> InTurn(log, i)
    ensures failure.Some? ==> !failure.value.TerminalCount?
    ensures failure.None? ==> |terminals| == CountWhere(log, ClosesRun)
    ensures forall k :: 0 <= k < |terminals| ==> terminals[k] < |log| && ClosesRun(log[terminals[k]])
  {
    terminals := [];
    var i := 0;
    while i < |log|
      invariant 0 <= i <= |log|
      invariant forall j :: 0 <= j < i ==> InTurn(log, j)
      invariant forall k :: 0 <= k < |terminals| ==> terminals[k] < i && ClosesRun(log[terminals[k]])
      invariant |terminals| == CountWhere(log[..i], ClosesRun)
    {
      var e := log[i];
      if !InTurn(log, i) {
        failure := Some(
          if e.version != EVENT_VERSION then UnsupportedVersion
          else if e.runId != log[0].runId then MixedRunIds
          else if e.turnId != log[0].turnId then MixedTurnIds
          else SequenceGap(log[0].seqNo + i, e.seqNo));
        return;
      }
      assert log[..i + 1] == log[..i] + [e];
      CountWhereAppend(log[..i], [e], ClosesRun);
      if ClosesRun(e) { terminals := terminals + [i]; }
      i := i + 1;
    }
    assert log[..|log|] == log;
    failure := None;
  }

  /** The validator accepts exactly the well-formed turns. */
  method ValidateTurn(log: seq<RunEvent>) returns (r: Result<nat, TurnError>)
    ensures r.Ok? <==> WellFormedTurn(log)
    ensures r.Ok? ==> r.value == |log|
    ensures r.Err? && r.error.TerminalCount? ==>
      r.error.count == CountWhere(log, ClosesRun) && r.error.count != 1
  {
    if log == [] { return Err(EmptyLog); }
    if IsBlank(log[0].runId) { return Err(MissingRunId); }
    if IsBlank(log[0].turnId) { return Err(MissingTurnId); }
    var failure, terminals := CheckEvents(log);
    if failure.Some? { return Err(failure.value); }
    ClosedByLastCount(log);
    if |terminals| != 1 { return Err(TerminalCount(|terminals|)); }
    if terminals[0] + 1 != |log| {
      assert ClosesRun(log[terminals[0]]);
      return Err(TerminalNotLast);
    }
    return Ok(|log|);
  }
}
