/**
 The whole of an agent run written down from the backend's answers alone (agent/loop.py:219-346): what every request shows,
 what every call is told, what is counted, and every event. No state of the loop is mentioned.
 */
module AgentTranscript {
  import opened Prelude
  import opened AgentLoop

  // ---- what one call is told ----

  function ValidCount(w: World, calls: seq<Call>): (n: nat)
    ensures n <= |calls|
  {
    if calls == [] then 0
    else ValidCount(w, calls[..|calls| - 1]) + if w.wellFormed(calls[|calls| - 1]) then 1 else 0
  }

  function InvalidCount(w: World, calls: seq<Call>): nat {
    |calls| - ValidCount(w, calls)
  }

  /**
   The answer to a call, given all calls of the run before it: the n-th valid call gets the n-th tool output, the first two
   invalid ones a numbered repair prompt, and every further invalid one is abandoned.
   */
  function Told(w: World, before: seq<Call>, call: Call): ToolText {
    if w.wellFormed(call) then Output(w.tools(ValidCount(w, before)).content)
    else if InvalidCount(w, before) < 2 then Rejected(InvalidCount(w, before) + 1)
    else Abandoned
  }

  function AnswerTo(w: World, before: seq<Call>, at: nat, call: Call): Message {
    Tool(if call.id != "" then call.id else "call_" + Decimal(at), call.name, Told(w, before, call))
  }

  /** The answers to a list of calls, the first of which is the at-th message. */
  function Answers(w: World, before: seq<Call>, at: nat, calls: seq<Call>): seq<Message> {
    if calls == [] then []
    else
      var k := |calls| - 1;
      Answers(w, before, at, calls[..k]) + [AnswerTo(w, before + calls[..k], at + k, calls[k])]
  }

  // ---- what is counted ----

  /** The last thing the model was told about this tool name. */
  function LastTold(w: World, calls: seq<Call>, name: string): Option<ToolText> {
    if calls == [] then None
    else
      var k := |calls| - 1;
      if calls[k].name == name then Some(Told(w, calls[..k], calls[k])) else LastTold(w, calls[..k], name)
  }

  /** A repair prompt for this tool name has not been followed by another call of it. */
  predicate Outstanding(w: World, calls: seq<Call>, name: string) {
    var last := LastTold(w, calls, name);
    last.Some? && last.value.Rejected?
  }

  /** The tool names with an outstanding repair prompt. */
  function ToRepair(w: World, calls: seq<Call>): set<string> {
    if calls == [] then {}
    else
      var k := |calls| - 1;
      if Told(w, calls[..k], calls[k]).Rejected? then ToRepair(w, calls[..k]) + {calls[k].name}
      else ToRepair(w, calls[..k]) - {calls[k].name}
  }

  lemma {:induction false} ToRepairIs(w: World, calls: seq<Call>, name: string)
    ensures name in ToRepair(w, calls) <==> Outstanding(w, calls, name)
    decreases |calls|
  {
    if calls != [] {
      ToRepairIs(w, calls[..|calls| - 1], name);
    }
  }

  /** The valid calls that follow a repair prompt for their tool. */
  function RepairedCount(w: World, calls: seq<Call>): nat {
    if calls == [] then 0
    else
      var k := |calls| - 1;
      RepairedCount(w, calls[..k])
      + if w.wellFormed(calls[k]) && Outstanding(w, calls[..k], calls[k].name) then 1 else 0
  }

  function StatsOf(w: World, calls: seq<Call>): Stats {
    var bad := InvalidCount(w, calls);
    Stats(|calls|, bad, RepairedCount(w, calls), if bad > 2 then bad - 2 else 0)
  }

  // ---- the events of one call ----

  function CallEvents(w: World, before: seq<Call>, at: nat, call: Call): seq<Event> {
    var id := AnswerTo(w, before, at, call).id;
    if w.wellFormed(call) then
      var status := w.tools(ValidCount(w, before)).status;
      [ToolCall(id, call.name)] + (if call.name == "plan" && status.Ok? then [PlanSteps] else [])
      + [ToolResult(id, call.name, status)]
    else [ToolCall(id, call.name), ToolResult(id, call.name, Error)]
  }

  function CallsEvents(w: World, before: seq<Call>, at: nat, calls: seq<Call>): seq<Event> {
    if calls == [] then []
    else
      var k := |calls| - 1;
      CallsEvents(w, before, at, calls[..k]) + CallEvents(w, before + calls[..k], at + k, calls[k])
  }

  // ---- the turns of a run ----

  predicate AsksForTools(c: Completion) {
    c.Reply? && c.calls != []
  }

  function CallsIn(c: Completion): seq<Call> {
    if c.Reply? then c.calls else []
  }

  function Spent(sum: Usage, c: Completion): Usage {
    if c.BackendError? then sum
    else Usage(sum.prompt + c.usage.prompt, sum.completion + c.usage.completion, sum.thinking + c.usage.thinking)
  }

  /** A run so far: the conversation, the tool messages and all calls in it, the events, what was spent, and the requests. */
  datatype Script = Script(
    messages: seq<Message>, toolMessages: seq<Message>, calls: seq<Call>, events: seq<Event>, usage: Usage,
    requests: seq<Payload>)

  function Spoken(text: string): seq<Event> {
    if text != "" then [Delta(text)] else []
  }

  /** A completion as a reader of the events sees it. */
  function Shown(s: Script, c: Completion): seq<Event> {
    (if !c.BackendError? && c.usage.thinking > 0 then [Thinking(Spent(s.usage, c).thinking)] else []) + Spoken(TextOf(c))
  }

  /** One more turn: the request shows the conversation so far; then come the reply and the answers to its calls. */
  function WithTurn(w: World, s: Script, c: Completion): Script {
    var at := |s.messages| + 1;
    var answers := Answers(w, s.calls, at, CallsIn(c));
    Script(s.messages + [Assistant(TextOf(c), CallsIn(c))] + answers, s.toolMessages + answers, s.calls + CallsIn(c),
           s.events + Shown(s, c) + CallsEvents(w, s.calls, at, CallsIn(c)), Spent(s.usage, c),
           s.requests + [Payload(s.messages, true)])
  }

  /** The turn that follows takes the backend's next completion. */
  function Turn(w: World): Script -> Script {
    (s: Script) => WithTurn(w, s, w.backend(|s.requests|))
  }

  predicate Asks(w: World, s: Script) {
    AsksForTools(w.backend(|s.requests|))
  }

  function Opening(given: seq<Message>): Script {
    Script(given, [], [], [], Usage(0, 0, 0), [])
  }

  /** The first n turns of a run. */
  function ScriptOf(w: World, given: seq<Message>, n: nat): Script {
    Iterated(Turn(w), Opening(given), n)
  }

  /** The events after the turns, when one more completion ends the run, at the ceiling or before it. */
  function Ending(w: World, s: Script, c: Completion, ceiling: bool): seq<Event> {
    var report := UsageReport(Spent(s.usage, c), StatsOf(w, s.calls));
    if ceiling then
      [Notice] + if c.BackendError? then [Failure, Done("error")] else Spoken(TextOf(c)) + [report, Done("length")]
    else
      Shown(s, c) + if c.Reply? then [report, Done(if c.finish != "" then c.finish else "stop")] else [Failure, Done("error")]
  }

  /** How the run ends with this completion. */
  predicate EndsWith(w: World, s: Script, c: Completion, ceiling: bool, end: State) {
    && end.messages == (if ceiling then s.messages + [WrapUp] else s.messages)
    && end.payloads == s.requests + [Payload(end.messages, !ceiling)]
    && end.toolMessages == s.toolMessages && end.trace == s.events + Ending(w, s, c, ceiling)
    && end.usage == Spent(s.usage, c) && end.stats == StatsOf(w, s.calls)
    && end.ended && (end.failed <==> if ceiling then c.BackendError? else !c.Reply?)
    && end.finalText == (if end.failed then "" else TextOf(c))
    && end.finish == if end.failed then "error" else if ceiling then "length"
                     else if c.Reply? && c.finish != "" then c.finish else "stop"
  }

  // ---- the loop does exactly this ----

  lemma ValidSnoc(w: World, calls: seq<Call>, call: Call)
    ensures ValidCount(w, calls + [call]) == ValidCount(w, calls) + if w.wellFormed(call) then 1 else 0
    ensures InvalidCount(w, calls + [call]) == InvalidCount(w, calls) + if w.wellFormed(call) then 0 else 1
    ensures RepairedCount(w, calls + [call])
         == RepairedCount(w, calls) + if w.wellFormed(call) && Outstanding(w, calls, call.name) then 1 else 0
    ensures ToRepair(w, calls + [call])
         == if Told(w, calls, call).Rejected? then ToRepair(w, calls) + {call.name} else ToRepair(w, calls) - {call.name}
  {
    assert (calls + [call])[..|calls|] == calls;
  }

  /** The loop's bookkeeping after these calls. */
  predicate Kept(w: World, calls: seq<Call>, st: State) {
    && |st.executed| == ValidCount(w, calls)
    && st.budget == (if InvalidCount(w, calls) < 2 then 2 - InvalidCount(w, calls) else 0)
    && st.stats == StatsOf(w, calls)
    && st.pending == ToRepair(w, calls)
  }

  /** What handling calls does not touch. */
  predicate SameRun(a: State, b: State) {
    && a.payloads == b.payloads && a.usage == b.usage && a.finalText == b.finalText && a.finish == b.finish
    && a.failed == b.failed && a.ended == b.ended
  }

  lemma MalformedKept(w: World, st: State, before: seq<Call>, call: Call)
    requires Kept(w, before, st) && !w.wellFormed(call)
    ensures Kept(w, before + [call], HandleCall(w, st, call))
  {
    ValidSnoc(w, before, call);
  }

  lemma ExecutedKept(w: World, st: State, before: seq<Call>, call: Call)
    requires Kept(w, before, st) && w.wellFormed(call)
    ensures Kept(w, before + [call], HandleCall(w, st, call))
  {
    ValidSnoc(w, before, call);
    ToRepairIs(w, before, call.name);
  }

  lemma CallTold(w: World, st: State, before: seq<Call>, call: Call)
    requires Kept(w, before, st)
    ensures var after, answer := HandleCall(w, st, call), AnswerTo(w, before, |st.messages|, call);
            && after.messages == st.messages + [answer] && after.toolMessages == st.toolMessages + [answer]
            && SameRun(after, st)
  {
  }

  lemma CallSeen(w: World, st: State, before: seq<Call>, call: Call)
    requires Kept(w, before, st)
    ensures HandleCall(w, st, call).trace == st.trace + CallEvents(w, before, |st.messages|, call)
  {
  }

  lemma CallKept(w: World, st: State, before: seq<Call>, call: Call)
    requires Kept(w, before, st)
    ensures Kept(w, before + [call], HandleCall(w, st, call))
  {
    if w.wellFormed(call) {
      ExecutedKept(w, st, before, call);
    } else {
      MalformedKept(w, st, before, call);
    }
  }

  /** What handling these calls, after those before them, makes of a state. */
  predicate Handled(w: World, st: State, before: seq<Call>, calls: seq<Call>, after: State) {
    var answers := Answers(w, before, |st.messages|, calls);
    && after.messages == st.messages + answers && after.toolMessages == st.toolMessages + answers
    && |answers| == |calls|
    && after.trace == st.trace + CallsEvents(w, before, |st.messages|, calls)
    && SameRun(after, st) && Kept(w, before + calls, after)
  }

  lemma HandledNone(w: World, st: State, before: seq<Call>)
    requires Kept(w, before, st)
    ensures Handled(w, st, before, [], st)
  {
    assert before + [] == before;
  }

  /** What handling one call adds. */
  predicate HandledOne(w: World, before: seq<Call>, call: Call, mid: State, after: State) {
    var answer := AnswerTo(w, before, |mid.messages|, call);
    && after.messages == mid.messages + [answer] && after.toolMessages == mid.toolMessages + [answer]
    && after.trace == mid.trace + CallEvents(w, before, |mid.messages|, call)
    && SameRun(after, mid) && Kept(w, before + [call], after)
  }

  lemma CallHandled(w: World, before: seq<Call>, call: Call, mid: State)
    requires Kept(w, before, mid)
    ensures HandledOne(w, before, call, mid, HandleCall(w, mid, call))
  {
    CallTold(w, mid, before, call);
    CallSeen(w, mid, before, call);
    CallKept(w, mid, before, call);
  }

  lemma HandledOneMore(w: World, st: State, before: seq<Call>, calls: seq<Call>, mid: State, after: State)
    requires calls != []
    requires var k := |calls| - 1;
             Handled(w, st, before, calls[..k], mid) && HandledOne(w, before + calls[..k], calls[k], mid, after)
    ensures Handled(w, st, before, calls, after)
  {
    var k, at := |calls| - 1, |st.messages|;
    var answer := AnswerTo(w, before + calls[..k], at + k, calls[k]);
    Assoc(st.messages, Answers(w, before, at, calls[..k]), [answer]);
    Assoc(st.toolMessages, Answers(w, before, at, calls[..k]), [answer]);
    Assoc(st.trace, CallsEvents(w, before, at, calls[..k]), CallEvents(w, before + calls[..k], at + k, calls[k]));
    assert before + calls[..k] + [calls[k]] == before + calls;
  }

  lemma {:induction false} CallsHandled(w: World, st: State, before: seq<Call>, calls: seq<Call>)
    requires Kept(w, before, st)
    ensures Handled(w, st, before, calls, HandleCalls(w, st, calls))
    decreases |calls|
  {
    if calls == [] {
      HandledNone(w, st, before);
    } else {
      var k := |calls| - 1;
      var mid := HandleCalls(w, st, calls[..k]);
      CallsHandled(w, st, before, calls[..k]);
      CallHandled(w, before + calls[..k], calls[k], mid);
      HandledOneMore(w, st, before, calls, mid, HandleCall(w, mid, calls[k]));
    }
  }

  /** The loop between two turns. */
  predicate After(w: World, s: Script, st: State) {
    && st.messages == s.messages && st.toolMessages == s.toolMessages && st.trace == s.events && st.usage == s.usage
    && st.payloads == s.requests && Kept(w, s.calls, st)
    && !st.ended && !st.failed && st.finish == "stop" && st.finalText == ""
  }

  lemma AskedAndHeard(w: World, s: Script, st: State, c: Completion)
    requires After(w, s, st) && c.Reply?
    ensures var called := Called(Heard(st, c.usage, c.content), c.content, c.calls);
            && called.messages == s.messages + [Assistant(c.content, c.calls)]
            && called.toolMessages == s.toolMessages && called.trace == s.events + Shown(s, c)
            && called.usage == Spent(s.usage, c) && called.payloads == s.requests + [Payload(s.messages, true)]
            && Kept(w, s.calls, called)
            && !called.ended && !called.failed && called.finish == "stop" && called.finalText == ""
  {
  }

  lemma TurnTaken(w: World, s: Script, st: State)
    requires After(w, s, st) && AsksForTools(w.backend(|s.requests|))
    ensures After(w, WithTurn(w, s, w.backend(|s.requests|)), Iterate(w, st))
  {
    var c := w.backend(|s.requests|);
    var called := Called(Heard(st, c.usage, c.content), c.content, c.calls);
    AskedAndHeard(w, s, st, c);
    assert Iterate(w, st) == HandleCalls(w, called, c.calls);
    CallsHandled(w, called, s.calls, c.calls);
  }

  lemma LastTurn(w: World, s: Script, st: State)
    requires After(w, s, st) && !AsksForTools(w.backend(|s.requests|))
    ensures EndsWith(w, s, w.backend(|s.requests|), false, Iterate(w, st))
  {
    var c := w.backend(|s.requests|);
    if c.Reply? {
      AskedAndHeard(w, s, st, c);
    }
  }

  lemma AtTheCeiling(w: World, s: Script, st: State)
    requires After(w, s, st)
    ensures EndsWith(w, s, w.backend(|s.requests|), true, Ceiling(w, st))
  {
  }

  /** The run goes from this state, with at most `left` turns, to this end. */
  predicate Yields(w: World, st: State, left: nat, end: State) {
    end == RunFrom(w, st, left)
  }

  lemma YieldsNow(w: World, st: State, left: nat, end: State)
    requires Yields(w, st, left, end) && !st.ended && (left > 0 ==> Iterate(w, st).ended)
    ensures end == if left > 0 then Iterate(w, st) else Ceiling(w, st)
  {
    if left > 0 {
      RunUnfolds(w, st, left);
    }
  }

  lemma YieldsNext(w: World, st: State, left: nat, end: State)
    requires Yields(w, st, left, end) && !st.ended && left > 0
    ensures Yields(w, Iterate(w, st), left - 1, end)
  {
    RunUnfolds(w, st, left);
  }

  lemma RunStops(w: World, s: Script, st: State, left: nat, end: State)
    requires After(w, s, st) && (left > 0 ==> !AsksForTools(w.backend(|s.requests|))) && Yields(w, st, left, end)
    ensures EndsWith(w, s, w.backend(|s.requests|), left == 0, end)
  {
    if left > 0 {
      LastTurn(w, s, st);
    } else {
      AtTheCeiling(w, s, st);
    }
    YieldsNow(w, st, left, end);
  }

  /** Some state of the run, with `left` turns still allowed, is where this script leads. */
  ghost predicate Reaches(w: World, s: Script, left: nat, end: State) {
    exists st :: After(w, s, st) && Yields(w, st, left, end)
  }

  lemma ReachesNext(w: World, s: Script, left: nat, end: State)
    requires Reaches(w, s, left, end) && left > 0 && Asks(w, s)
    ensures Reaches(w, Turn(w)(s), left - 1, end)
  {
    var st :| After(w, s, st) && Yields(w, st, left, end);
    TurnTaken(w, s, st);
    YieldsNext(w, st, left, end);
  }

  lemma ReachesEnd(w: World, s: Script, left: nat, end: State)
    requires Reaches(w, s, left, end) && (left > 0 ==> !Asks(w, s))
    ensures EndsWith(w, s, w.backend(|s.requests|), left == 0, end)
  {
    var st :| After(w, s, st) && Yields(w, st, left, end);
    RunStops(w, s, st, left, end);
  }

  lemma Begun(w: World, given: seq<Message>, max: nat)
    ensures Reaches(w, Opening(given), max, Run(w, given, max))
  {
    assert After(w, Opening(given), Start(given));
    assert Yields(w, Start(given), max, Run(w, given, max));
  }

  /** One more turn. */
  lemma NextScript(w: World, given: seq<Message>, k: nat)
    ensures ScriptOf(w, given, k + 1).requests
         == ScriptOf(w, given, k).requests + [Payload(ScriptOf(w, given, k).messages, true)]
  {
    IteratedSnoc(Turn(w), Opening(given), k);
    var s := ScriptOf(w, given, k);
    TurnIs(w, s);
    assert ScriptOf(w, given, k + 1) == Turn(w)(s);
  }

  lemma TurnIs(w: World, s: Script)
    ensures Turn(w)(s) == WithTurn(w, s, w.backend(|s.requests|))
  {
  }

  lemma {:induction false} RequestsOf(w: World, given: seq<Message>, k: nat)
    ensures |ScriptOf(w, given, k).requests| == k
    decreases k
  {
    if k > 0 {
      RequestsOf(w, given, k - 1);
      NextScript(w, given, k - 1);
    }
  }

  /** The i-th request of a run shows the conversation after i turns. */
  lemma {:induction false} RequestsAt(w: World, given: seq<Message>, k: nat, i: nat)
    requires i < k
    ensures |ScriptOf(w, given, k).requests| == k
    ensures ScriptOf(w, given, k).requests[i] == Payload(ScriptOf(w, given, i).messages, true)
    decreases k
  {
    RequestsOf(w, given, k);
    RequestsOf(w, given, k - 1);
    NextScript(w, given, k - 1);
    if i < k - 1 {
      RequestsAt(w, given, k - 1, i);
    }
  }

  /** The turns a run takes. */
  lemma TurnsTaken(w: World, given: seq<Message>, max: nat, end: State) returns (n: nat)
    requires Reaches(w, Opening(given), max, end)
    ensures n <= max && Reaches(w, ScriptOf(w, given, n), max - n, end)
    ensures (forall k: nat | k < n :: Asks(w, ScriptOf(w, given, k))) && (n < max ==> !Asks(w, ScriptOf(w, given, n)))
  {
    forall s: Script, k: nat | k > 0 && Asks(w, s) && Reaches(w, s, k, end) ensures Reaches(w, Turn(w)(s), k - 1, end) {
      ReachesNext(w, s, k, end);
    }
    n := IteratedKeeps(Turn(w), (s: Script) => Asks(w, s), (s: Script, k: nat) => Reaches(w, s, k, end), Opening(given), max);
  }

  /**
   A run is exactly this: the turns that ask for tools, each answered in full and shown to the next request, and one last
   completion, which offers tools unless the ceiling is reached. The counters, the usage and every event follow from the
   backend's answers, the tools' outputs and which calls validate.
   */
  lemma RunIs(w: World, given: seq<Message>, max: nat) returns (n: nat)
    ensures n <= max && (forall k: nat | k < n :: AsksForTools(w.backend(k))) && (n < max ==> !AsksForTools(w.backend(n)))
    ensures EndsWith(w, ScriptOf(w, given, n), w.backend(n), n == max, Run(w, given, max))
  {
    Begun(w, given, max);
    n := TurnsTaken(w, given, max, Run(w, given, max));
    forall k: nat | k <= n ensures |ScriptOf(w, given, k).requests| == k {
      RequestsOf(w, given, k);
    }
    forall k: nat | k < n ensures AsksForTools(w.backend(k)) {
      assert Asks(w, ScriptOf(w, given, k));
    }
    ReachesEnd(w, ScriptOf(w, given, n), max - n, Run(w, given, max));
  }

  lemma {:induction false} AsManyAnswers(w: World, before: seq<Call>, at: nat, calls: seq<Call>)
    ensures |Answers(w, before, at, calls)| == |calls|
    decreases |calls|
  {
    if calls != [] {
      AsManyAnswers(w, before, at, calls[..|calls| - 1]);
    }
  }

  /** The j-th of several answers. */
  lemma {:induction false} AnswersAt(w: World, before: seq<Call>, at: nat, calls: seq<Call>, j: nat)
    requires j < |calls|
    ensures |Answers(w, before, at, calls)| == |calls|
    ensures Answers(w, before, at, calls)[j] == AnswerTo(w, before + calls[..j], at + j, calls[j])
    decreases |calls|
  {
    var k := |calls| - 1;
    AsManyAnswers(w, before, at, calls);
    AsManyAnswers(w, before, at, calls[..k]);
    if j < k {
      AnswersAt(w, before, at, calls[..k], j);
      assert calls[..k][..j] == calls[..j];
    }
  }

  // ---- made-up call ids ----

  function Digits(s: string): int {
    if s == "" then 0 else 10 * Digits(s[..|s| - 1]) + (s[|s| - 1] as int - '0' as int)
  }

  lemma DigitAt(n: nat)
    requires n < 10
    ensures "0123456789"[n] as int - '0' as int == n
  {
  }

  /** Ids made up at different places of the conversation differ. */
  lemma {:induction false} DecimalReadsBack(n: nat)
    ensures Digits(Decimal(n)) == n
  {
    var d := Decimal(n);
    DigitAt(n % 10);
    if n < 10 {
      assert d[..0] == "";
    } else {
      DecimalReadsBack(n / 10);
      assert d[..|d| - 1] == Decimal(n / 10);
    }
  }
}
