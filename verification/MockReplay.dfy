/**
 The mock replay of a recorded trajectory: a run event log built from its tool
 calls and approvals, and the tool sequence read back from a log.
 */
module MockReplay {
  import opened Prelude
  import opened RunEvents
  import RunSession
  import Permissions

  // ---- Lookups in recorded values --------------------------------------------------------

  /** The non-blank string at a path. */
  function StrAt(j: Json, path: seq<string>): Option<string> {
    match At(j, path)
    case Some(Str(s)) => if IsBlank(s) then None else Some(s)
    case _ => None
  }

  function FirstStr(j: Json, paths: seq<seq<string>>): (r: Option<string>)
    ensures r.Some? ==> !IsBlank(r.value)
    decreases |paths|
  {
    if paths == [] then None
    else if StrAt(j, paths[0]).Some? then StrAt(j, paths[0])
    else FirstStr(j, paths[1..])
  }

  function FirstBool(j: Json, paths: seq<seq<string>>): Option<bool>
    decreases |paths|
  {
    if paths == [] then None else
    match At(j, paths[0])
    case Some(Bool(b)) => Some(b)
    case _ => FirstBool(j, paths[1..])
  }

  const TOOL_NAME_PATHS: seq<seq<string>> :=
    [["toolName"], ["name"], ["run", "toolName"], ["function", "name"],
     ["payload", "toolName"], ["payload", "run", "toolName"]]

  const CALL_ID_PATHS: seq<seq<string>> :=
    [["callId"], ["id"], ["run", "callId"], ["payload", "callId"], ["payload", "run", "callId"]]

  const REQUEST_ID_PATHS: seq<seq<string>> :=
    [["requestId"], ["id"], ["request", "id"], ["payload", "requestId"], ["payload", "request", "id"]]

  const DECISION_PATHS: seq<seq<string>> :=
    [["decision"], ["status"], ["payload", "decision"], ["payload", "status"]]

  const IS_ERROR_PATHS: seq<seq<string>> :=
    [["isError"], ["payload", "isError"], ["run", "isError"], ["payload", "run", "isError"]]

  const STATUS_PATHS: seq<seq<string>> :=
    [["status"], ["payload", "status"], ["run", "status"], ["payload", "run", "status"]]

  function ToolName(value: Json): Option<string> { FirstStr(value, TOOL_NAME_PATHS) }

  function Or<T>(value: Option<T>, other: T): T { if value.Some? then value.value else other }

  function LowerChar(c: char): char { if 'A' <= c <= 'Z' then ((c as int) + 32) as char else c }

  function Lower(s: string): string { seq(|s|, i requires 0 <= i < |s| => LowerChar(s[i])) }

  /** The decision a recorded approval stands for; anything unknown allows once. */
  function DecisionOf(value: Json): Permissions.Decision {
    var decision := Lower(Or(FirstStr(value, DECISION_PATHS), ""));
    if decision == "allow_session" then Permissions.AllowSession
    else if decision == "never" then Permissions.Never
    else if decision in ["deny", "denied", "declined", "rejected"] then Permissions.Deny
    else Permissions.AllowOnce
  }

  predicate IsErrorCall(value: Json) {
    match FirstBool(value, IS_ERROR_PATHS)
    case Some(b) => b
    case None => Lower(Or(FirstStr(value, STATUS_PATHS), "")) in ["failed", "error"]
  }

  // ---- The log as a specification ------------------------------------------------------------

  datatype Trajectory = Trajectory(
    id: string, userInput: string, toolCalls: seq<Json>, approvals: seq<Json>, outcome: Option<string>, answer: Option<string>)

  /** An event before it gets its run, turn and number. */
  datatype Body = Body(kind: EventKind, status: string, payload: Json)

  function CallName(t: Trajectory, i: nat): string
    requires i < |t.toolCalls|
  {
    Or(ToolName(t.toolCalls[i]), "mock_tool_" + Decimal(i + 1))
  }

  function CallId(t: Trajectory, i: nat): string
    requires i < |t.toolCalls|
  {
    Or(FirstStr(t.toolCalls[i], CALL_ID_PATHS), "mock-call-" + Decimal(i + 1))
  }

  function RequestId(t: Trajectory, i: nat): string
    requires i < |t.approvals|
  {
    Or(FirstStr(t.approvals[i], REQUEST_ID_PATHS), "mock-approval-" + Decimal(i + 1))
  }

  /** The tool an approval is about: its own, else that of the call beside it. */
  function ApprovalTool(t: Trajectory, i: nat): string
    requires i < |t.approvals|
  {
    if ToolName(t.approvals[i]).Some? then ToolName(t.approvals[i]).value
    else if i < |t.toolCalls| then Or(ToolName(t.toolCalls[i]), "mock_tool")
    else "mock_tool"
  }

  function RunPayload(callId: string, toolName: string, status: string): Json {
    Object(map["run" := Object(map["callId" := Str(callId), "toolName" := Str(toolName), "status" := Str(status)])])
  }

  function RequestPayload(id: string, toolName: string): Json {
    Object(map["request" := Object(map["id" := Str(id), "toolName" := Str(toolName)])])
  }

  function ResolutionPayload(id: string, decision: string): Json {
    Object(map["requestId" := Str(id), "decision" := Str(decision)])
  }

  function Routing(t: Trajectory): Body {
    Body(Status, "running",
         Object(map["mode" := Str("mock_runtime"), "trajectoryId" := Str(t.id), "userInput" := Str(t.userInput),
                    "content" := Str("Mock replay runtime started")]))
  }

  function Requested(t: Trajectory, i: nat): Body
    requires i < |t.approvals|
  {
    Body(ApprovalRequested, "pending", RequestPayload(RequestId(t, i), ApprovalTool(t, i)))
  }

  function Resolved(t: Trajectory, i: nat): Body
    requires i < |t.approvals|
  {
    var decision := DecisionOf(t.approvals[i]);
    Body(ApprovalResolved, if Permissions.IsAllowed(decision) then "allowed" else "denied",
         ResolutionPayload(RequestId(t, i), Permissions.DecisionName(decision)))
  }

  function Started(t: Trajectory, i: nat): Body
    requires i < |t.toolCalls|
  {
    Body(ToolStarted, "running", RunPayload(CallId(t, i), CallName(t, i), "running"))
  }

  function Completed(t: Trajectory, i: nat): Body
    requires i < |t.toolCalls|
  {
    var status := if IsErrorCall(t.toolCalls[i]) then "failed" else "completed";
    Body(ToolCompleted, status, RunPayload(CallId(t, i), CallName(t, i), status))
  }

  function FinalText(t: Trajectory, other: string): string {
    if t.answer.Some? && !IsBlank(t.answer.value) then t.answer.value else other
  }

  function FinishReason(outcome: string): string {
    if outcome in ["cancelled", "canceled"] then "cancelled"
    else if outcome in ["timed_out", "timeout", "timedout"] then "timed_out"
    else "stop"
  }

  function Terminal(t: Trajectory): Body {
    var outcome := Lower(Or(t.outcome, ""));
    if outcome in ["failed", "failure", "error"] then
      Body(Error, "failed", Object(map["message" := Str(FinalText(t, "Mock replay failed."))]))
    else
      Body(Done, RunSession.DoneStatus(Some(FinishReason(outcome))),
           Object(map["message" := Str(FinalText(t, "Mock replay completed.")), "usageTotal" := Object(map[])]))
  }

  /** What a log is made of: pairs for the approvals and for the tool calls, and the two ends. */
  datatype Plan = Plan(first: Body, approvals: seq<(Body, Body)>, calls: seq<(Body, Body)>, last: Body)

  function ApprovalPair(t: Trajectory, i: nat): (Body, Body)
    requires i < |t.approvals|
  {
    (Requested(t, i), Resolved(t, i))
  }

  function CallPair(t: Trajectory, i: nat): (Body, Body)
    requires i < |t.toolCalls|
  {
    (Started(t, i), Completed(t, i))
  }

  function PlanOf(t: Trajectory): (p: Plan)
    ensures |p.approvals| == |t.approvals| && |p.calls| == |t.toolCalls|
  {
    Plan(Routing(t),
         seq(|t.approvals|, i requires 0 <= i < |t.approvals| => ApprovalPair(t, i)),
         seq(|t.toolCalls|, i requires 0 <= i < |t.toolCalls| => CallPair(t, i)),
         Terminal(t))
  }

  function PairAt(pairs: seq<(Body, Body)>, i: nat): seq<Body> {
    if i < |pairs| then [pairs[i].0, pairs[i].1] else []
  }

  /** Steps up to `n`: the approval with each index, then the tool call with that index. */
  function Bodies(p: Plan, n: nat): seq<Body> {
    if n == 0 then [] else Bodies(p, n - 1) + PairAt(p.approvals, n - 1) + PairAt(p.calls, n - 1)
  }

  function StepCount(p: Plan): nat { Max(|p.calls|, |p.approvals|) }

  function LogBodies(p: Plan): seq<Body> { [p.first] + Bodies(p, StepCount(p)) + [p.last] }

  function SlugChar(c: char): char {
    if 'a' <= c <= 'z' || 'A' <= c <= 'Z' || '0' <= c <= '9' || c == '-' || c == '_' then c else '-'
  }

  function DropDashes(s: string): string {
    if s == [] then [] else if s[0] == '-' then DropDashes(s[1..])
    else if s[|s| - 1] == '-' then DropDashes(s[..|s| - 1]) else s
  }

  function Identifier(prefix: string, id: string): string {
    var slug := DropDashes(seq(|id|, i requires 0 <= i < |id| => SlugChar(id[i])));
    if slug == [] then prefix else prefix + "-" + slug
  }

  function Event(run: string, turn: string, b: Body, seqNo: nat): RunEvent {
    RunEvent(EVENT_VERSION, run, turn, seqNo, b.kind, Some(b.status), true, b.payload)
  }

  /** Bodies as events numbered from one. */
  function Numbered(run: string, turn: string, bs: seq<Body>): (log: seq<RunEvent>)
    ensures |log| == |bs| && forall i :: 0 <= i < |bs| ==> log[i] == Event(run, turn, bs[i], i + 1)
  {
    seq(|bs|, i requires 0 <= i < |bs| => Event(run, turn, bs[i], i + 1))
  }

  function MockLog(t: Trajectory): seq<RunEvent> {
    Numbered(Identifier("mock-run", t.id), Identifier("mock-turn", t.id), LogBodies(PlanOf(t)))
  }

  // ---- Building the log --------------------------------------------------------------------------

  /** Pushes the two events of a pair, if there is one, and bumps the counter for each. */
  method PushPair(run: string, turn: string, events: seq<RunEvent>, pairs: seq<(Body, Body)>, i: nat, seqNo: nat,
                  ghost done: seq<Body>)
    returns (r: seq<RunEvent>, next: nat)
    requires events == Numbered(run, turn, done) && seqNo == |done| + 1
    ensures r == Numbered(run, turn, done + PairAt(pairs, i)) && next == |done + PairAt(pairs, i)| + 1
  {
    r, next := events, seqNo;
    if i < |pairs| {
      r, next := r + [Event(run, turn, pairs[i].0, next)], next + 1;
      r, next := r + [Event(run, turn, pairs[i].1, next)], next + 1;
    } else {
      assert done + PairAt(pairs, i) == done;
    }
  }

  method Replay(run: string, turn: string, p: Plan) returns (events: seq<RunEvent>)
    ensures events == Numbered(run, turn, LogBodies(p))
  {
    events := [Event(run, turn, p.first, 1)];
    var seqNo := 2;
    ghost var done := [p.first];
    var n := StepCount(p);
    for i := 0 to n
      invariant done == [p.first] + Bodies(p, i)
      invariant events == Numbered(run, turn, done) && seqNo == |done| + 1
    {
      events, seqNo := PushPair(run, turn, events, p.approvals, i, seqNo, done);
      done := done + PairAt(p.approvals, i);
      events, seqNo := PushPair(run, turn, events, p.calls, i, seqNo, done);
      done := done + PairAt(p.calls, i);
      BodiesStep(p, i);
    }
    events := events + [Event(run, turn, p.last, seqNo)];
  }

  lemma BodiesStep(p: Plan, i: nat)
    ensures [p.first] + Bodies(p, i + 1) == [p.first] + Bodies(p, i) + PairAt(p.approvals, i) + PairAt(p.calls, i)
  {
  }

  method MockReplayEvents(t: Trajectory) returns (events: seq<RunEvent>)
    ensures events == MockLog(t)
  {
    events := Replay(Identifier("mock-run", t.id), Identifier("mock-turn", t.id), PlanOf(t));
  }

  // ---- Shape of the log -----------------------------------------------------------------------------

  lemma {:induction false} BodiesCount(p: Plan, n: nat)
    ensures |Bodies(p, n)| == 2 * Min(n, |p.approvals|) + 2 * Min(n, |p.calls|)
  {
    if n > 0 { BodiesCount(p, n - 1); }
  }

  /** Two ends, two events per approval and two per tool call, numbered from one without a gap. */
  lemma LogLength(t: Trajectory)
    ensures |MockLog(t)| == 2 + 2 * |t.approvals| + 2 * |t.toolCalls|
    ensures forall i :: 0 <= i < |MockLog(t)| ==> MockLog(t)[i].seqNo == i + 1
  {
    BodiesCount(PlanOf(t), StepCount(PlanOf(t)));
  }

  /** A request with its resolution, or a start with its completion, under the same ids. */
  predicate Matched(a: Body, b: Body) {
    || (a.kind == ApprovalRequested && b.kind == ApprovalResolved
        && At(a.payload, ["request", "id"]).Some? && At(a.payload, ["request", "id"]) == At(b.payload, ["requestId"]))
    || (a.kind == ToolStarted && b.kind == ToolCompleted
        && At(a.payload, ["run", "callId"]).Some? && At(a.payload, ["run", "callId"]) == At(b.payload, ["run", "callId"])
        && At(a.payload, ["run", "toolName"]) == At(b.payload, ["run", "toolName"]))
  }

  lemma AtOne(j: Json, a: string)
    requires j.Object? && a in j.fields
    ensures At(j, [a]) == Some(j.fields[a])
  {
    assert [a][1..] == [];
  }

  lemma AtTwo(j: Json, a: string, b: string)
    requires j.Object? && a in j.fields && j.fields[a].Object? && b in j.fields[a].fields
    ensures At(j, [a, b]) == Some(j.fields[a].fields[b])
  {
    assert [a, b][1..] == [b];
    AtOne(j.fields[a], b);
  }

  lemma ApprovalPairMatches(t: Trajectory, i: nat)
    requires i < |t.approvals|
    ensures Matched(Requested(t, i), Resolved(t, i))
  {
    AtTwo(Requested(t, i).payload, "request", "id");
    AtOne(Resolved(t, i).payload, "requestId");
  }

  lemma ToolPairMatches(t: Trajectory, i: nat)
    requires i < |t.toolCalls|
    ensures Matched(Started(t, i), Completed(t, i))
  {
    AtTwo(Started(t, i).payload, "run", "callId");
    AtTwo(Started(t, i).payload, "run", "toolName");
    AtTwo(Completed(t, i).payload, "run", "callId");
    AtTwo(Completed(t, i).payload, "run", "toolName");
  }

  /** A sequence of adjacent matched pairs. */
  ghost predicate Paired(bs: seq<Body>, matched: (Body, Body) -> bool) {
    |bs| % 2 == 0 && forall k :: 0 <= k < |bs| / 2 ==> matched(bs[2 * k], bs[2 * k + 1])
  }

  lemma PairedAppend(bs: seq<Body>, a: Body, b: Body, matched: (Body, Body) -> bool)
    requires Paired(bs, matched) && matched(a, b)
    ensures Paired(bs + [a, b], matched)
  {
    var r := bs + [a, b];
    forall k | 0 <= k < |r| / 2 ensures matched(r[2 * k], r[2 * k + 1]) {
      if k < |bs| / 2 { assert r[2 * k] == bs[2 * k] && r[2 * k + 1] == bs[2 * k + 1]; }
    }
  }

  ghost predicate PlanMatched(p: Plan, matched: (Body, Body) -> bool) {
    && (forall i :: 0 <= i < |p.approvals| ==> matched(p.approvals[i].0, p.approvals[i].1))
    && (forall i :: 0 <= i < |p.calls| ==> matched(p.calls[i].0, p.calls[i].1))
  }

  lemma PlanOfMatched(t: Trajectory)
    ensures PlanMatched(PlanOf(t), Matched)
  {
    var p := PlanOf(t);
    forall i | 0 <= i < |p.approvals| ensures Matched(p.approvals[i].0, p.approvals[i].1) {
      ApprovalPairMatches(t, i);
    }
    forall i | 0 <= i < |p.calls| ensures Matched(p.calls[i].0, p.calls[i].1) {
      ToolPairMatches(t, i);
    }
  }

  lemma PairedStep(bs: seq<Body>, pairs: seq<(Body, Body)>, i: nat, matched: (Body, Body) -> bool)
    requires Paired(bs, matched) && (i < |pairs| ==> matched(pairs[i].0, pairs[i].1))
    ensures Paired(bs + PairAt(pairs, i), matched)
  {
    if i < |pairs| {
      PairedAppend(bs, pairs[i].0, pairs[i].1, matched);
    } else {
      assert bs + PairAt(pairs, i) == bs;
    }
  }

  lemma {:induction false} BodiesPaired(p: Plan, n: nat, matched: (Body, Body) -> bool)
    requires PlanMatched(p, matched)
    ensures Paired(Bodies(p, n), matched)
  {
    if n > 0 {
      BodiesPaired(p, n - 1, matched);
      PairedStep(Bodies(p, n - 1), p.approvals, n - 1, matched);
      PairedStep(Bodies(p, n - 1) + PairAt(p.approvals, n - 1), p.calls, n - 1, matched);
    }
  }

  lemma PairedKinds(bs: seq<Body>, i: nat)
    requires Paired(bs, Matched) && i < |bs|
    ensures !bs[i].kind.Done? && !bs[i].kind.Error?
  {
    assert Matched(bs[2 * (i / 2)], bs[2 * (i / 2) + 1]);
  }

  lemma TerminalCloses(t: Trajectory, run: string, turn: string, seqNo: nat)
    ensures ClosesRun(Event(run, turn, Terminal(t), seqNo))
  {
    var e := Event(run, turn, Terminal(t), seqNo);
    if e.kind == Done {
      RunSession.ExecutorDoneCloses(e, Some(FinishReason(Lower(Or(t.outcome, "")))));
    }
  }

  lemma IdentifierVisible(prefix: string, id: string)
    requires prefix != [] && !IsWhitespace(prefix[0])
    ensures !IsBlank(Identifier(prefix, id))
  {
    VisibleStart(Identifier(prefix, id));
  }

  lemma OnlyLastCloses(run: string, turn: string, p: Plan)
    requires PlanMatched(p, Matched) && p.first.kind == Status
    requires forall n :: ClosesRun(Event(run, turn, p.last, n))
    ensures ClosedByLast(Numbered(run, turn, LogBodies(p)))
  {
    var bs, mid := LogBodies(p), Bodies(p, StepCount(p));
    var log := Numbered(run, turn, bs);
    BodiesPaired(p, StepCount(p), Matched);
    forall i | 0 <= i < |log| ensures ClosesRun(log[i]) <==> i == |log| - 1 {
      if 0 < i < |log| - 1 {
        assert bs[i] == mid[i - 1];
        PairedKinds(mid, i - 1);
      }
    }
  }

  lemma NumberedInTurn(run: string, turn: string, bs: seq<Body>)
    ensures var log := Numbered(run, turn, bs);
            forall i :: 0 <= i < |log| ==> InTurn(log, i)
  {
  }

  /** Every mock log passes the validator of runtime turns, whatever the trajectory. */
  lemma LogIsWellFormed(t: Trajectory)
    ensures WellFormedTurn(MockLog(t))
  {
    var run, turn, p := Identifier("mock-run", t.id), Identifier("mock-turn", t.id), PlanOf(t);
    IdentifierVisible("mock-run", t.id);
    IdentifierVisible("mock-turn", t.id);
    PlanOfMatched(t);
    forall n ensures ClosesRun(Event(run, turn, p.last, n)) { TerminalCloses(t, run, turn, n); }
    OnlyLastCloses(run, turn, p);
    NumberedInTurn(run, turn, LogBodies(p));
  }

  /** Between the routing event and the terminal one the log is a sequence of matched pairs. */
  lemma LogBrackets(t: Trajectory)
    ensures var bs := LogBodies(PlanOf(t));
            && |bs| >= 2 && bs[0] == Routing(t) && bs[|bs| - 1] == Terminal(t)
            && Paired(bs[1..|bs| - 1], Matched)
  {
    var p := PlanOf(t);
    PlanOfMatched(t);
    BodiesPaired(p, StepCount(p), Matched);
    assert LogBodies(p)[1..|LogBodies(p)| - 1] == Bodies(p, StepCount(p));
  }

  // ---- Where each event stands -----------------------------------------------------------------------

  lemma {:induction false} BodiesPrefix(p: Plan, m: nat, n: nat)
    requires m <= n
    ensures |Bodies(p, m)| <= |Bodies(p, n)| && Bodies(p, n)[..|Bodies(p, m)|] == Bodies(p, m)
    decreases n
  {
    if m < n { BodiesPrefix(p, m, n - 1); }
  }

  lemma MiddleParts(whole: seq<Body>, a: seq<Body>, b: seq<Body>, c: seq<Body>)
    requires |a + b + c| <= |whole| && whole[..|a + b + c|] == a + b + c
    ensures whole[|a|..|a| + |b|] == b && whole[|a| + |b|..|a| + |b| + |c|] == c
  {
    assert (a + b + c)[|a|..|a| + |b|] == b && (a + b + c)[|a| + |b|..] == c;
  }

  /** `whole` goes on after `a` with `b` and then `c`. */
  ghost predicate GoesOn(whole: seq<Body>, a: seq<Body>, b: seq<Body>, c: seq<Body>) {
    && |a| + |b| + |c| <= |whole|
    && whole[|a|..|a| + |b|] == b && whole[|a| + |b|..|a| + |b| + |c|] == c
  }

  lemma BodiesAt(p: Plan, n: nat, i: nat, a: seq<Body>, b: seq<Body>, c: seq<Body>)
    requires i < n && a == Bodies(p, i) && b == PairAt(p.approvals, i) && c == PairAt(p.calls, i)
    ensures GoesOn(Bodies(p, n), a, b, c)
  {
    BodiesPrefix(p, i + 1, n);
    assert Bodies(p, i + 1) == a + b + c;
    MiddleParts(Bodies(p, n), a, b, c);
  }

  function ApprovalPos(t: Trajectory, i: nat): nat { 1 + 2 * i + 2 * Min(i, |t.toolCalls|) }

  function CallPos(t: Trajectory, i: nat): nat { 1 + 2 * Min(i + 1, |t.approvals|) + 2 * i }

  /** The events at `k` and after it are these two. */
  ghost predicate StandsAt(log: seq<RunEvent>, run: string, turn: string, k: nat, pair: (Body, Body)) {
    && k + 1 < |log| && log[k] == Event(run, turn, pair.0, k + 1) && log[k + 1] == Event(run, turn, pair.1, k + 2)
  }

  lemma PairInLog(p: Plan, k: nat, pair: seq<Body>)
    requires |pair| == 2 && k + 2 <= |Bodies(p, StepCount(p))| && Bodies(p, StepCount(p))[k..k + 2] == pair
    ensures k + 2 < |LogBodies(p)| && LogBodies(p)[k + 1] == pair[0] && LogBodies(p)[k + 2] == pair[1]
  {
    var mid := Bodies(p, StepCount(p));
    assert mid[k..k + 2][0] == mid[k] && mid[k..k + 2][1] == mid[k + 1];
  }

  /** The body of the log holds this pair at `k`. */
  ghost predicate HoldsPair(bs: seq<Body>, k: nat, pair: (Body, Body)) {
    k + 1 < |bs| && bs[k] == pair.0 && bs[k + 1] == pair.1
  }

  lemma ApprovalPlace(p: Plan, i: nat)
    requires i < |p.approvals|
    ensures HoldsPair(LogBodies(p), 1 + 2 * i + 2 * Min(i, |p.calls|), p.approvals[i])
  {
    BodiesCount(p, i);
    BodiesAt(p, StepCount(p), i, Bodies(p, i), PairAt(p.approvals, i), PairAt(p.calls, i));
    PairInLog(p, |Bodies(p, i)|, PairAt(p.approvals, i));
  }

  lemma CallPlace(p: Plan, i: nat)
    requires i < |p.calls|
    ensures HoldsPair(LogBodies(p), 1 + 2 * Min(i + 1, |p.approvals|) + 2 * i, p.calls[i])
  {
    BodiesCount(p, i);
    BodiesAt(p, StepCount(p), i, Bodies(p, i), PairAt(p.approvals, i), PairAt(p.calls, i));
    PairInLog(p, |Bodies(p, i)| + |PairAt(p.approvals, i)|, PairAt(p.calls, i));
  }

  lemma InLog(run: string, turn: string, p: Plan, i: nat)
    ensures i < |p.approvals| ==>
      StandsAt(Numbered(run, turn, LogBodies(p)), run, turn, 1 + 2 * i + 2 * Min(i, |p.calls|), p.approvals[i])
    ensures i < |p.calls| ==>
      StandsAt(Numbered(run, turn, LogBodies(p)), run, turn, 1 + 2 * Min(i + 1, |p.approvals|) + 2 * i, p.calls[i])
  {
    if i < |p.approvals| { ApprovalPlace(p, i); }
    if i < |p.calls| { CallPlace(p, i); }
  }

  /**
   Every approval and every tool call has its place in the log, and the approval with an index
   is resolved before the tool call with that index starts.
   */
  lemma LogLayout(t: Trajectory, i: nat)
    ensures var run, turn := Identifier("mock-run", t.id), Identifier("mock-turn", t.id);
            && (i < |t.approvals| ==> StandsAt(MockLog(t), run, turn, ApprovalPos(t, i), ApprovalPair(t, i)))
            && (i < |t.toolCalls| ==> StandsAt(MockLog(t), run, turn, CallPos(t, i), CallPair(t, i)))
    ensures i < |t.approvals| && i < |t.toolCalls| ==> ApprovalPos(t, i) + 2 == CallPos(t, i)
  {
    InLog(Identifier("mock-run", t.id), Identifier("mock-turn", t.id), PlanOf(t), i);
  }

  /** A recorded call or request keeps its id. */
  lemma RecordedIdsKept(t: Trajectory, i: nat, id: string)
    ensures i < |t.toolCalls| && FirstStr(t.toolCalls[i], CALL_ID_PATHS) == Some(id) ==>
      At(Started(t, i).payload, ["run", "callId"]) == Some(Str(id))
    ensures i < |t.approvals| && FirstStr(t.approvals[i], REQUEST_ID_PATHS) == Some(id) ==>
      At(Requested(t, i).payload, ["request", "id"]) == Some(Str(id))
  {
    if i < |t.toolCalls| { AtTwo(Started(t, i).payload, "run", "callId"); }
    if i < |t.approvals| { AtTwo(Requested(t, i).payload, "request", "id"); }
  }

  /** An id of letters, digits, underscores and inner dashes goes into the run's name as it is. */
  lemma SlugKept(prefix: string, id: string)
    requires id != [] && id[0] != '-' && id[|id| - 1] != '-'
    requires forall i :: 0 <= i < |id| ==> SlugChar(id[i]) == id[i]
    ensures Identifier(prefix, id) == prefix + "-" + id
  {
    assert seq(|id|, i requires 0 <= i < |id| => SlugChar(id[i])) == id;
  }

  /** A request is about the tool the approval names, or else the tool call beside it. */
  lemma RequestNamesTool(t: Trajectory, i: nat)
    requires i < |t.approvals|
    ensures At(Requested(t, i).payload, ["request", "toolName"]) == Some(Str(
              if ToolName(t.approvals[i]).Some? then ToolName(t.approvals[i]).value
              else if i < |t.toolCalls| && ToolName(t.toolCalls[i]).Some? then ToolName(t.toolCalls[i]).value
              else "mock_tool"))
  {
    AtTwo(Requested(t, i).payload, "request", "toolName");
  }

  predicate OutcomeIn(t: Trajectory, names: seq<string>) { t.outcome.Some? && Lower(t.outcome.value) in names }

  predicate FailedOutcome(t: Trajectory) { OutcomeIn(t, ["failed", "failure", "error"]) }

  /** The log ends in an error exactly for a failed outcome, and in a `done` otherwise. */
  lemma LogEnds(t: Trajectory)
    ensures |MockLog(t)| >= 2
    ensures var last := MockLog(t)[|MockLog(t)| - 1];
            && (last.kind == Error <==> FailedOutcome(t))
            && (last.kind == Done <==> !FailedOutcome(t))
            && (last.status == Some("failed") <==> FailedOutcome(t))
            && (last.status == Some("cancelled") <==> OutcomeIn(t, ["cancelled", "canceled"]))
            && (last.status == Some("timed_out") <==> OutcomeIn(t, ["timed_out", "timeout", "timedout"]))
            && At(last.payload, ["message"]) == Some(Str(
                 if t.answer.Some? && !IsBlank(t.answer.value) then t.answer.value
                 else if FailedOutcome(t) then "Mock replay failed." else "Mock replay completed."))
  {
    TerminalShown(t);
    EndOfLog(t, LogBodies(PlanOf(t)));
  }

  lemma EndOfLog(t: Trajectory, bs: seq<Body>)
    requires bs == LogBodies(PlanOf(t))
    ensures |MockLog(t)| == |bs| >= 2
    ensures MockLog(t)[|bs| - 1] == Event(Identifier("mock-run", t.id), Identifier("mock-turn", t.id), Terminal(t), |bs|)
  {
  }

  lemma TerminalShown(t: Trajectory)
    ensures var b := Terminal(t);
            && (b.kind == Error <==> FailedOutcome(t)) && (b.kind == Done <==> !FailedOutcome(t))
            && (b.status == "failed" <==> FailedOutcome(t))
            && (b.status == "cancelled" <==> OutcomeIn(t, ["cancelled", "canceled"]))
            && (b.status == "timed_out" <==> OutcomeIn(t, ["timed_out", "timeout", "timedout"]))
            && At(b.payload, ["message"]) == Some(Str(
                 if t.answer.Some? && !IsBlank(t.answer.value) then t.answer.value
                 else if FailedOutcome(t) then "Mock replay failed." else "Mock replay completed."))
  {
    var outcome := Lower(Or(t.outcome, ""));
    OutcomeStatus(outcome);
    assert t.outcome.None? ==> outcome == "";
    AtOne(Terminal(t).payload, "message");
  }

  /** Failed outcomes aside, two groups of names have a status of their own. */
  lemma OutcomeStatus(outcome: string)
    ensures var status := RunSession.DoneStatus(Some(FinishReason(outcome)));
            && status != "failed"
            && (status == "cancelled" <==> outcome in ["cancelled", "canceled"])
            && (status == "timed_out" <==> outcome in ["timed_out", "timeout", "timedout"])
    ensures "failed" != "cancelled" && "failed" != "timed_out"
    ensures outcome in ["failed", "failure", "error"] ==>
      outcome !in ["cancelled", "canceled"] && outcome !in ["timed_out", "timeout", "timedout"]
    ensures outcome == "" ==>
      outcome !in ["failed", "failure", "error"] && outcome !in ["cancelled", "canceled"]
      && outcome !in ["timed_out", "timeout", "timedout"]
  {
    var c, t := "cancelled", "timed_out";
    assert |"failed"| == 6 && |"completed"| == 9 && |c| == 9 && |t| == 9 && |"stop"| == 4;
    assert c[0] == 'c' && t[0] == 't' && "completed"[1] == 'o' && c[1] == 'a';
    assert "canceled"[0] == 'c' && "timeout"[0] == 't' && "timedout"[0] == 't';
    assert "failed"[0] == 'f' && "failure"[0] == 'f' && "error"[0] == 'e';
  }

  /** A completion says `failed` exactly for an erroneous call. */
  lemma CompletedShown(t: Trajectory, i: nat)
    requires i < |t.toolCalls|
    ensures (Completed(t, i).status == "failed" <==> IsErrorCall(t.toolCalls[i]))
         && (Completed(t, i).status == "completed" <==> !IsErrorCall(t.toolCalls[i]))
  {
    assert |"failed"| == 6 && |"completed"| == 9;
  }

  /** An approval says `denied` exactly for a refusing decision. */
  lemma ResolvedShown(t: Trajectory, i: nat)
    requires i < |t.approvals|
    ensures var refuses := DecisionOf(t.approvals[i]) in {Permissions.Deny, Permissions.Never};
            && (Resolved(t, i).status == "denied" <==> refuses) && (Resolved(t, i).status == "allowed" <==> !refuses)
  {
    assert |"denied"| == 6 && |"allowed"| == 7;
  }

  // ---- What is read back from single events ------------------------------------------------------------

  lemma FirstStrHead(j: Json, paths: seq<seq<string>>, s: string)
    requires paths != [] && StrAt(j, paths[0]) == Some(s)
    ensures FirstStr(j, paths) == Some(s)
  {
  }

  lemma DecisionLower(d: Permissions.Decision)
    ensures Lower(Permissions.DecisionName(d)) == Permissions.DecisionName(d) && !IsBlank(Permissions.DecisionName(d))
  {
    VisibleStart(Permissions.DecisionName(d));
  }

  lemma NamesDiffer()
    ensures "allow_once" != "allow_session" && "allow_once" != "never" && "deny" != "allow_session" && "deny" != "never"
    ensures "never" != "allow_session" && "allow_once" !in ["deny", "denied", "declined", "rejected"]
  {
    assert |"allow_once"| == 10 && |"allow_session"| == 13 && |"never"| == 5 && |"deny"| == 4;
    assert |"denied"| == 6 && |"declined"| == 8 && |"rejected"| == 8;
  }

  /** A recorded decision is read back: whatever value holds it under `decision`. */
  lemma DecisionReadBack(value: Json, d: Permissions.Decision)
    requires At(value, ["decision"]) == Some(Str(Permissions.DecisionName(d)))
    ensures DecisionOf(value) == d
  {
    DecisionLower(d);
    FirstStrHead(value, DECISION_PATHS, Permissions.DecisionName(d));
    DecisionOfName(value, d);
  }

  lemma DecisionOfName(value: Json, d: Permissions.Decision)
    requires FirstStr(value, DECISION_PATHS) == Some(Permissions.DecisionName(d))
    ensures DecisionOf(value) == d
  {
    DecisionLower(d);
    NamesDiffer();
  }

  /** So the log keeps every decision: its resolution reads back as the recorded approval does. */
  lemma DecisionsKept(t: Trajectory, i: nat)
    requires i < |t.approvals|
    ensures DecisionOf(Resolved(t, i).payload) == DecisionOf(t.approvals[i])
  {
    AtOne(Resolved(t, i).payload, "decision");
    DecisionReadBack(Resolved(t, i).payload, DecisionOf(t.approvals[i]));
  }

  /** A flag that is there decides whether a call failed; without any flag the status does. */
  lemma ErrorCallMeaning(value: Json, b: bool, s: string)
    ensures At(value, ["isError"]) == Some(Bool(b)) ==> (IsErrorCall(value) <==> b)
    ensures FirstBool(value, IS_ERROR_PATHS).None? && At(value, ["status"]) == Some(Str(s)) && !IsBlank(s) ==>
      (IsErrorCall(value) <==> Lower(s) == "failed" || Lower(s) == "error")
  {
    if At(value, ["isError"]) == Some(Bool(b)) { FirstBoolHead(value, IS_ERROR_PATHS, b); }
    if At(value, ["status"]) == Some(Str(s)) && !IsBlank(s) { FirstStrHead(value, STATUS_PATHS, s); }
    ErrorCallCases(value);
  }

  lemma FirstBoolHead(j: Json, paths: seq<seq<string>>, b: bool)
    requires paths != [] && At(j, paths[0]) == Some(Bool(b))
    ensures FirstBool(j, paths) == Some(b)
  {
  }

  lemma ErrorCallCases(value: Json)
    ensures var flag, status := FirstBool(value, IS_ERROR_PATHS), FirstStr(value, STATUS_PATHS);
            && (flag.Some? ==> (IsErrorCall(value) <==> flag.value))
            && (flag.None? && status.Some? ==>
                  (IsErrorCall(value) <==> Lower(status.value) == "failed" || Lower(status.value) == "error"))
  {
  }

  // ---- The durable contract ---------------------------------------------------------------------------

  predicate MeetsContract(b: Body) { HasAllPaths(b.payload, RequiredPaths(b.kind)) }

  lemma RoutingContract(t: Trajectory)
    ensures MeetsContract(Routing(t))
  {
    AtOne(Routing(t).payload, "content");
  }

  lemma RequestPayloadContract(id: string, toolName: string)
    ensures HasAllPaths(RequestPayload(id, toolName), RequiredPaths(ApprovalRequested))
  {
    AtOne(RequestPayload(id, toolName), "request");
  }

  lemma ResolutionPayloadContract(id: string, decision: string)
    ensures HasAllPaths(ResolutionPayload(id, decision), RequiredPaths(ApprovalResolved))
  {
    AtOne(ResolutionPayload(id, decision), "requestId");
    AtOne(ResolutionPayload(id, decision), "decision");
  }

  lemma ApprovalContract(t: Trajectory, i: nat)
    requires i < |t.approvals|
    ensures MeetsContract(Requested(t, i)) && MeetsContract(Resolved(t, i))
  {
    RequestPayloadContract(RequestId(t, i), ApprovalTool(t, i));
    ResolutionPayloadContract(RequestId(t, i), Permissions.DecisionName(DecisionOf(t.approvals[i])));
  }

  lemma RunPayloadContract(callId: string, toolName: string, status: string)
    ensures HasAllPaths(RunPayload(callId, toolName, status), RequiredPaths(ToolStarted))
  {
    var j := RunPayload(callId, toolName, status);
    AtTwo(j, "run", "callId");
    AtTwo(j, "run", "toolName");
    AtTwo(j, "run", "status");
  }

  lemma CallContract(t: Trajectory, i: nat)
    requires i < |t.toolCalls|
    ensures MeetsContract(Started(t, i)) && MeetsContract(Completed(t, i))
  {
    RunPayloadContract(CallId(t, i), CallName(t, i), "running");
    RunPayloadContract(CallId(t, i), CallName(t, i), Completed(t, i).status);
  }

  lemma TerminalContract(t: Trajectory)
    ensures MeetsContract(Terminal(t))
  {
    var b := Terminal(t);
    AtOne(b.payload, "message");
    if b.kind == Done { AtOne(b.payload, "usageTotal"); }
  }

  ghost predicate All(bs: seq<Body>, holds: Body -> bool) { forall i :: 0 <= i < |bs| ==> holds(bs[i]) }

  ghost predicate AllPairs(pairs: seq<(Body, Body)>, holds: Body -> bool) {
    forall i :: 0 <= i < |pairs| ==> holds(pairs[i].0) && holds(pairs[i].1)
  }

  lemma {:induction false} BodiesAll(p: Plan, n: nat, holds: Body -> bool)
    requires AllPairs(p.approvals, holds) && AllPairs(p.calls, holds)
    ensures All(Bodies(p, n), holds)
  {
    if n > 0 {
      BodiesAll(p, n - 1, holds);
      assert All(PairAt(p.approvals, n - 1), holds) && All(PairAt(p.calls, n - 1), holds);
    }
  }

  lemma LogAll(p: Plan, holds: Body -> bool)
    requires AllPairs(p.approvals, holds) && AllPairs(p.calls, holds) && holds(p.first) && holds(p.last)
    ensures All(LogBodies(p), holds)
  {
    BodiesAll(p, StepCount(p), holds);
  }

  lemma PairsContract(t: Trajectory)
    ensures AllPairs(PlanOf(t).approvals, MeetsContract) && AllPairs(PlanOf(t).calls, MeetsContract)
  {
    var p := PlanOf(t);
    forall i | 0 <= i < |p.approvals| ensures MeetsContract(p.approvals[i].0) && MeetsContract(p.approvals[i].1) {
      ApprovalContract(t, i);
    }
    forall i | 0 <= i < |p.calls| ensures MeetsContract(p.calls[i].0) && MeetsContract(p.calls[i].1) {
      CallContract(t, i);
    }
  }

  lemma LogContract(t: Trajectory)
    ensures All(LogBodies(PlanOf(t)), MeetsContract)
  {
    PairsContract(t);
    RoutingContract(t);
    TerminalContract(t);
    LogAll(PlanOf(t), MeetsContract);
  }

  lemma EventContract(run: string, turn: string, b: Body, seqNo: nat)
    requires !IsBlank(run) && !IsBlank(turn) && seqNo > 0 && MeetsContract(b)
    ensures DurableContract(Event(run, turn, b, seqNo))
  {
  }

  /** Every event of a mock log could be stored: it meets the durable contract of its kind. */
  lemma LogMeetsDurableContract(t: Trajectory, i: nat)
    requires i < |MockLog(t)|
    ensures DurableContract(MockLog(t)[i])
  {
    LogContract(t);
    IdentifierVisible("mock-run", t.id);
    IdentifierVisible("mock-turn", t.id);
    EventContract(Identifier("mock-run", t.id), Identifier("mock-turn", t.id), LogBodies(PlanOf(t))[i], i + 1);
  }

  // ---- Reading the tool sequence back ---------------------------------------------------------------------

  /** The tool names of the completed calls in a log. */
  function ToolsIn(log: seq<RunEvent>, name: Json -> Option<string>): seq<string> {
    if log == [] then [] else
    var e := log[|log| - 1];
    ToolsIn(log[..|log| - 1], name)
    + (if e.kind == ToolCompleted && name(e.payload).Some? then [name(e.payload).value] else [])
  }

  function ToolsInLog(log: seq<RunEvent>): seq<string> { ToolsIn(log, ToolName) }

  /** The names among recorded calls. */
  function NamedIn(calls: seq<Json>, name: Json -> Option<string>): seq<string> {
    if calls == [] then [] else
    var last := name(calls[|calls| - 1]);
    NamedIn(calls[..|calls| - 1], name) + (if last.Some? then [last.value] else [])
  }

  function NamedCalls(calls: seq<Json>): seq<string> { NamedIn(calls, ToolName) }

  /** The tool sequence of a trajectory: from its calls, or from its log when no call is named. */
  function ToolCallSequence(calls: seq<Json>, log: seq<RunEvent>): seq<string> {
    if NamedCalls(calls) != [] then NamedCalls(calls) else ToolsInLog(log)
  }

  function NameOf(e: RunEvent, name: Json -> Option<string>): seq<string> {
    if e.kind == ToolCompleted && name(e.payload).Some? then [name(e.payload).value] else []
  }

  lemma ToolsLast(log: seq<RunEvent>, e: RunEvent, name: Json -> Option<string>)
    ensures ToolsIn(log + [e], name) == ToolsIn(log, name) + NameOf(e, name)
  {
    assert (log + [e])[..|log|] == log;
  }

  function CallNames(t: Trajectory, n: nat): seq<string>
    requires n <= |t.toolCalls|
  {
    seq(n, i requires 0 <= i < n => CallName(t, i))
  }

  lemma CallNameVisible(t: Trajectory, i: nat)
    requires i < |t.toolCalls|
    ensures !IsBlank(CallName(t, i))
  {
    if ToolName(t.toolCalls[i]).None? { VisibleStart("mock_tool_" + Decimal(i + 1)); }
  }

  /** The name written into a completed run is the name read from it. */
  lemma RunPayloadName(callId: string, toolName: string, status: string)
    requires !IsBlank(toolName)
    ensures ToolName(RunPayload(callId, toolName, status)) == Some(toolName)
  {
    var j := RunPayload(callId, toolName, status);
    assert Field(j, "toolName") == None && Field(j, "name") == None;
    assert StrAt(j, ["toolName"]) == None && StrAt(j, ["name"]) == None;
    AtTwo(j, "run", "toolName");
    assert StrAt(j, ["run", "toolName"]) == Some(toolName);
    var paths := TOOL_NAME_PATHS;
    assert paths[1..][0] == ["name"] && paths[2..][0] == ["run", "toolName"];
    assert paths[1..][1..] == paths[2..];
    assert FirstStr(j, paths[2..]) == Some(toolName);
    assert FirstStr(j, paths[1..]) == Some(toolName);
  }

  lemma NumberedLast(run: string, turn: string, bs: seq<Body>, b: Body)
    ensures Numbered(run, turn, bs + [b]) == Numbered(run, turn, bs) + [Event(run, turn, b, |bs| + 1)]
  {
  }

  /** The names a log of these bodies gives. */
  function ToolsOf(run: string, turn: string, bs: seq<Body>, name: Json -> Option<string>): seq<string> {
    ToolsIn(Numbered(run, turn, bs), name)
  }

  lemma BodyAdds(run: string, turn: string, bs: seq<Body>, b: Body, name: Json -> Option<string>)
    ensures ToolsOf(run, turn, bs + [b], name)
         == ToolsOf(run, turn, bs, name) + (if b.kind == ToolCompleted && name(b.payload).Some? then [name(b.payload).value] else [])
  {
    NumberedLast(run, turn, bs, b);
    ToolsLast(Numbered(run, turn, bs), Event(run, turn, b, |bs| + 1), name);
  }

  /** Adding a pair to a log adds the name its second event completes. */
  lemma PairAdds(run: string, turn: string, bs: seq<Body>, pairs: seq<(Body, Body)>, i: nat,
                 name: Json -> Option<string>, added: seq<string>)
    requires i < |pairs| ==> pairs[i].0.kind != ToolCompleted
    requires i < |pairs| && pairs[i].1.kind == ToolCompleted ==> name(pairs[i].1.payload).Some? && added == [name(pairs[i].1.payload).value]
    requires i >= |pairs| || pairs[i].1.kind != ToolCompleted ==> added == []
    ensures ToolsOf(run, turn, bs + PairAt(pairs, i), name) == ToolsOf(run, turn, bs, name) + added
  {
    if i < |pairs| {
      var a, b := pairs[i].0, pairs[i].1;
      BodyAdds(run, turn, bs, a, name);
      BodyAdds(run, turn, bs + [a], b, name);
      assert bs + PairAt(pairs, i) == bs + [a] + [b];
    } else {
      assert bs + PairAt(pairs, i) == bs;
    }
  }

  /** What the read-back needs to know of a plan: which names its calls complete. */
  ghost predicate Completes(p: Plan, names: seq<string>, name: Json -> Option<string>) {
    && |names| == |p.calls| && p.first.kind != ToolCompleted && p.last.kind != ToolCompleted
    && (forall i :: 0 <= i < |p.approvals| ==>
          p.approvals[i].0.kind != ToolCompleted && p.approvals[i].1.kind != ToolCompleted)
    && (forall i :: 0 <= i < |p.calls| ==>
          && p.calls[i].0.kind != ToolCompleted && p.calls[i].1.kind == ToolCompleted
          && name(p.calls[i].1.payload) == Some(names[i]))
  }

  lemma StepReadsBack(run: string, turn: string, p: Plan, names: seq<string>, name: Json -> Option<string>, bs: seq<Body>, i: nat)
    requires Completes(p, names, name)
    ensures ToolsOf(run, turn, bs + PairAt(p.approvals, i) + PairAt(p.calls, i), name)
         == ToolsOf(run, turn, bs, name) + (if i < |names| then [names[i]] else [])
  {
    PairAdds(run, turn, bs, p.approvals, i, name, []);
    PairAdds(run, turn, bs + PairAt(p.approvals, i), p.calls, i, name, if i < |names| then [names[i]] else []);
  }

  lemma PrefixStep(names: seq<string>, n: nat)
    requires n > 0
    ensures names[..Min(n, |names|)]
         == names[..Min(n - 1, |names|)] + (if n - 1 < |names| then [names[n - 1]] else [])
  {
  }

  lemma StartReadsBack(run: string, turn: string, first: Body, name: Json -> Option<string>, none: seq<Body>)
    requires none == [] && first.kind != ToolCompleted
    ensures ToolsOf(run, turn, [first], name) == []
  {
    BodyAdds(run, turn, none, first, name);
    assert none + [first] == [first];
    assert Numbered(run, turn, none) == [];
  }

  lemma {:induction false} StepsReadBack(run: string, turn: string, p: Plan, names: seq<string>, name: Json -> Option<string>, n: nat)
    requires Completes(p, names, name)
    ensures ToolsOf(run, turn, [p.first] + Bodies(p, n), name) == names[..Min(n, |names|)]
  {
    if n == 0 {
      StartReadsBack(run, turn, p.first, name, []);
      assert [p.first] + Bodies(p, 0) == [p.first];
    } else {
      StepsReadBack(run, turn, p, names, name, n - 1);
      NextStepReadsBack(run, turn, p, names, name, n, [p.first] + Bodies(p, n - 1));
    }
  }

  lemma NextStepReadsBack(run: string, turn: string, p: Plan, names: seq<string>, name: Json -> Option<string>, n: nat,
                          front: seq<Body>)
    requires Completes(p, names, name) && n > 0 && front == [p.first] + Bodies(p, n - 1)
    requires ToolsOf(run, turn, front, name) == names[..Min(n - 1, |names|)]
    ensures ToolsOf(run, turn, [p.first] + Bodies(p, n), name) == names[..Min(n, |names|)]
  {
    StepReadsBack(run, turn, p, names, name, front, n - 1);
    BodiesStep(p, n - 1);
    PrefixStep(names, n);
  }

  lemma LogReadBack(run: string, turn: string, p: Plan, names: seq<string>, name: Json -> Option<string>)
    requires Completes(p, names, name)
    ensures ToolsOf(run, turn, LogBodies(p), name) == names
  {
    var n := StepCount(p);
    StepsReadBack(run, turn, p, names, name, n);
    BodyAdds(run, turn, [p.first] + Bodies(p, n), p.last, name);
    assert names[..|names|] == names;
  }

  lemma PlanCompletes(t: Trajectory)
    ensures Completes(PlanOf(t), CallNames(t, |t.toolCalls|), ToolName)
  {
    var p, names := PlanOf(t), CallNames(t, |t.toolCalls|);
    forall i | 0 <= i < |p.calls|
      ensures p.calls[i].0.kind != ToolCompleted && p.calls[i].1.kind == ToolCompleted
              && ToolName(p.calls[i].1.payload) == Some(names[i])
    {
      CallNameVisible(t, i);
      RunPayloadName(CallId(t, i), CallName(t, i), Completed(t, i).status);
    }
  }

  /** The log names every call: by its own name, or by its position when it has none. */
  lemma ToolsReadBack(t: Trajectory)
    ensures ToolsInLog(MockLog(t)) == CallNames(t, |t.toolCalls|)
  {
    PlanCompletes(t);
    LogReadBack(Identifier("mock-run", t.id), Identifier("mock-turn", t.id), PlanOf(t), CallNames(t, |t.toolCalls|),
                ToolName);
  }

  lemma {:induction false} NamedCount(calls: seq<Json>, names: seq<string>, name: Json -> Option<string>)
    requires |names| == |calls|
    requires forall i :: 0 <= i < |calls| && name(calls[i]).Some? ==> names[i] == name(calls[i]).value
    ensures |NamedIn(calls, name)| <= |calls|
    ensures |NamedIn(calls, name)| == |calls| <==> forall i :: 0 <= i < |calls| ==> name(calls[i]).Some?
    ensures |NamedIn(calls, name)| == |calls| ==> NamedIn(calls, name) == names
  {
    if calls != [] {
      var n := |calls| - 1;
      NamedCount(calls[..n], names[..n], name);
      assert names == names[..n] + [names[n]];
      assert forall i :: 0 <= i < n ==> calls[..n][i] == calls[i];
    }
  }

  /** The sequence read back equals the recorded names exactly when every recorded call is named. */
  lemma ReplayKeepsToolSequence(t: Trajectory)
    ensures ToolsInLog(MockLog(t)) == NamedCalls(t.toolCalls)
       <==> forall i :: 0 <= i < |t.toolCalls| ==> ToolName(t.toolCalls[i]).Some?
    ensures (forall i :: 0 <= i < |t.toolCalls| ==> ToolName(t.toolCalls[i]).Some?) && t.toolCalls != [] ==>
      forall log :: ToolCallSequence(t.toolCalls, log) == ToolCallSequence([], MockLog(t))
  {
    ToolsReadBack(t);
    NamedCount(t.toolCalls, CallNames(t, |t.toolCalls|), ToolName);
  }
}
