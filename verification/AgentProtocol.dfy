/** The conversation protocol and the counters of an agent run (agent/loop.py). */
module AgentProtocol {
  import opened Prelude
  import opened AgentLoop

  // ---- every tool call is answered once, in order, before the next completion ----

  /** The calls still to be answered at the end of `ms` (None when the protocol was broken); the first n messages are given. */
  function Owed(n: nat, ms: seq<Message>): Option<seq<Call>>
    decreases |ms|
  {
    if |ms| <= n then Some([])
    else
      var at := |ms| - 1;
      var before := Owed(n, ms[..at]);
      if before.None? then None
      else
        match ms[at]
        case Other(_) => None
        case Assistant(_, calls) => if before.value == [] && calls != [] then Some(calls) else None
        case Tool(id, name, _) =>
          if before.value != [] && id == CallId(before.value[0], at) && name == before.value[0].name
          then Some(before.value[1..]) else None
        case WrapUp => if before.value == [] then Some([]) else None
  }

  predicate Settled(n: nat, ms: seq<Message>) {
    n <= |ms| && Owed(n, ms) == Some([])
  }

  lemma AnswerPays(n: nat, st: State, call: Call, rest: seq<Call>, text: ToolText)
    requires n <= |st.messages| && Owed(n, st.messages) == Some([call] + rest)
    ensures Owed(n, Answer(st, CallId(call, |st.messages|), call.name, text).messages) == Some(rest)
  {
    var after := Answer(st, CallId(call, |st.messages|), call.name, text).messages;
    assert after[..|after| - 1] == st.messages;
    assert ([call] + rest)[1..] == rest;
  }

  lemma CallPays(n: nat, w: World, st: State, call: Call, rest: seq<Call>)
    requires n <= |st.messages| && Owed(n, st.messages) == Some([call] + rest)
    ensures Owed(n, HandleCall(w, st, call).messages) == Some(rest)
    ensures n <= |HandleCall(w, st, call).messages|
  {
    var text := CallAnswered(w, st, call);
    AnswerPays(n, st, call, rest, text);
  }

  /** Whatever becomes of a call, it gets exactly one tool message, under its own id and name. */
  lemma CallAnswered(w: World, st: State, call: Call) returns (text: ToolText)
    ensures HandleCall(w, st, call).messages == Answer(st, CallId(call, |st.messages|), call.name, text).messages
  {
    text := if w.wellFormed(call) then Output(w.tools(|st.executed|).content)
            else if st.budget > 0 then Rejected(MAX_REPAIR_ATTEMPTS + 1 - st.budget)
            else Abandoned;
  }

  lemma {:induction false} CallsPay(n: nat, w: World, st: State, calls: seq<Call>, rest: seq<Call>)
    requires n <= |st.messages| && Owed(n, st.messages) == Some(calls + rest)
    ensures Owed(n, HandleCalls(w, st, calls).messages) == Some(rest)
    ensures n <= |HandleCalls(w, st, calls).messages|
    decreases |calls|
  {
    if calls == [] {
      assert calls + rest == rest;
    } else {
      var k := |calls| - 1;
      assert calls + rest == calls[..k] + ([calls[k]] + rest);
      CallsPay(n, w, st, calls[..k], [calls[k]] + rest);
      CallPays(n, w, HandleCalls(w, st, calls[..k]), calls[k], rest);
    }
  }

  /** A recorded request shows the given messages first and owes no answer. */
  predicate Proper(given: seq<Message>, p: Payload) {
    given <= p.messages && Settled(|given|, p.messages)
  }

  predicate ProtocolInv(given: seq<Message>, st: State) {
    && given <= st.messages && (!st.ended ==> Settled(|given|, st.messages))
    && (forall i | 0 <= i < |st.payloads| :: Proper(given, st.payloads[i]))
  }

  lemma {:induction false} CallsOnlyAppend(w: World, st: State, calls: seq<Call>)
    ensures st.messages <= HandleCalls(w, st, calls).messages
    ensures HandleCalls(w, st, calls).payloads == st.payloads && HandleCalls(w, st, calls).ended == st.ended
    decreases |calls|
  {
    if calls != [] {
      CallsOnlyAppend(w, st, calls[..|calls| - 1]);
    }
  }

  /** A step records one request and, until its calls are handled, leaves the conversation alone. */
  lemma HeardFacts(st: State, usage: Usage, content: string)
    ensures var h := Heard(st, usage, content);
            && h.messages == st.messages && h.payloads == st.payloads + [Payload(st.messages, true)]
            && h.usage == AddUsage(st.usage, usage) && h.ended == st.ended && h.failed == st.failed
  {
  }

  lemma IterateAsks(w: World, st: State)
    ensures Iterate(w, st).payloads == st.payloads + [Payload(st.messages, true)]
  {
    var c := w.backend(|st.payloads|);
    if c.Reply? {
      HeardFacts(st, c.usage, c.content);
      CallsAskNothing(w, Called(Heard(st, c.usage, c.content), c.content, c.calls), c.calls);
    }
  }

  lemma {:induction false} CallsAskNothing(w: World, st: State, calls: seq<Call>)
    ensures var after := HandleCalls(w, st, calls);
            && after.payloads == st.payloads && after.usage == st.usage && after.ended == st.ended
            && after.failed == st.failed
    decreases |calls|
  {
    if calls != [] {
      CallsAskNothing(w, st, calls[..|calls| - 1]);
    }
  }

  lemma CallsSettle(given: seq<Message>, w: World, st: State, content: string, calls: seq<Call>)
    requires given <= st.messages && Settled(|given|, st.messages) && calls != []
    ensures var after := HandleCalls(w, Called(st, content, calls), calls);
            given <= after.messages && Settled(|given|, after.messages)
  {
    var asked := Called(st, content, calls);
    assert asked.messages[..|st.messages|] == st.messages;
    assert calls + [] == calls;
    CallsPay(|given|, w, asked, calls, []);
    CallsOnlyAppend(w, asked, calls);
  }

  lemma IterateSettles(given: seq<Message>, w: World, st: State)
    requires given <= st.messages && Settled(|given|, st.messages)
    ensures given <= Iterate(w, st).messages && Settled(|given|, Iterate(w, st).messages)
  {
    var c := w.backend(|st.payloads|);
    if c.Reply? {
      HeardFacts(st, c.usage, c.content);
      if c.calls != [] {
        CallsSettle(given, w, Heard(st, c.usage, c.content), c.content, c.calls);
      }
    }
  }

  lemma IterateKeepsProtocol(given: seq<Message>, w: World, st: State)
    requires ProtocolInv(given, st) && !st.ended
    ensures ProtocolInv(given, Iterate(w, st))
  {
    IterateAsks(w, st);
    IterateSettles(given, w, st);
  }

  lemma CeilingKeepsProtocol(given: seq<Message>, w: World, st: State)
    requires ProtocolInv(given, st) && !st.ended
    ensures ProtocolInv(given, Ceiling(w, st))
  {
    assert (st.messages + [WrapUp])[..|st.messages|] == st.messages;
  }

  lemma {:induction false} RunKeepsProtocol(given: seq<Message>, w: World, st: State, left: nat)
    requires ProtocolInv(given, st)
    ensures ProtocolInv(given, RunFrom(w, st, left))
    decreases left
  {
    if !st.ended {
      if left == 0 {
        CeilingKeepsProtocol(given, w, st);
      } else {
        IterateKeepsProtocol(given, w, st);
        RunKeepsProtocol(given, w, Iterate(w, st), left - 1);
      }
    }
  }

  /** Every request of every run has each earlier tool call answered by exactly one tool message, in order. */
  lemma EveryCallAnswered(w: World, given: seq<Message>, maxIterations: nat, i: nat)
    requires i < |Run(w, given, maxIterations).payloads|
    ensures Proper(given, Run(w, given, maxIterations).payloads[i])
  {
    RunKeepsProtocol(given, w, Start(given), maxIterations);
  }

  // ---- completions and usage ----

  function UsageOf(c: Completion): Usage {
    if c.BackendError? then Usage(0, 0, 0) else c.usage
  }

  /** What the first n answers of the backend cost together. */
  function UsageSum(w: World, n: nat): Usage {
    if n == 0 then Usage(0, 0, 0) else AddUsage(UsageSum(w, n - 1), UsageOf(w.backend(n - 1)))
  }

  predicate MeterInv(w: World, st: State) {
    st.usage == UsageSum(w, |st.payloads|)
  }

  lemma IterateMeters(w: World, st: State)
    requires MeterInv(w, st)
    ensures MeterInv(w, Iterate(w, st))
  {
    IterateAsks(w, st);
    var c := w.backend(|st.payloads|);
    if c.Reply? {
      HeardFacts(st, c.usage, c.content);
      CallsAskNothing(w, Called(Heard(st, c.usage, c.content), c.content, c.calls), c.calls);
    }
  }

  lemma IterateEnds(w: World, st: State)
    requires !st.ended && !st.failed
    ensures var after, c := Iterate(w, st), w.backend(|st.payloads|);
            && (after.ended <==> !(c.Reply? && c.calls != []))
            && (after.failed <==> !c.Reply?)
            && (after.failed ==> after.finish == "error")
            && (after.ended && !after.failed ==> after.finalText == c.content)
  {
    var c := w.backend(|st.payloads|);
    if c.Reply? {
      HeardFacts(st, c.usage, c.content);
      CallsAskNothing(w, Called(Heard(st, c.usage, c.content), c.content, c.calls), c.calls);
    }
  }

  /** How a run that has not ended yet will end: at most `left` more requests with tools, and one without. */
  predicate EndsMetered(w: World, asked: nat, left: nat, end: State) {
    var n := |end.payloads|;
    && MeterInv(w, end) && asked < n <= asked + left + 1
    && (forall i | 0 <= i < n :: end.payloads[i].tools <==> i < asked + left)
    && (if end.failed then end.finish == "error" else end.finalText == TextOf(w.backend(n - 1)))
  }

  lemma CeilingMeters(w: World, st: State)
    requires MeterInv(w, st) && !st.ended && !st.failed && (forall i | 0 <= i < |st.payloads| :: st.payloads[i].tools)
    ensures EndsMetered(w, |st.payloads|, 0, Ceiling(w, st))
  {
    assert Ceiling(w, st).payloads == st.payloads + [Payload(st.messages + [WrapUp], false)];
  }

  lemma {:induction false} RunMeters(w: World, st: State, left: nat)
    requires MeterInv(w, st) && !st.ended && !st.failed && (forall i | 0 <= i < |st.payloads| :: st.payloads[i].tools)
    ensures EndsMetered(w, |st.payloads|, left, RunFrom(w, st, left))
    decreases left
  {
    if left == 0 {
      CeilingMeters(w, st);
    } else {
      IterateMeters(w, st);
      IterateAsks(w, st);
      IterateEnds(w, st);
      var next := Iterate(w, st);
      if !next.ended {
        RunMeters(w, next, left - 1);
      }
    }
  }

  /**
   A run asks for at most maxIterations completions with tools and one without; its usage is what all of
   them cost, and its final text is the last one's.
   */
  lemma CompletionsBounded(w: World, given: seq<Message>, maxIterations: nat)
    ensures var end, n := Run(w, given, maxIterations), |Run(w, given, maxIterations).payloads|;
            && 1 <= n <= maxIterations + 1 && end.usage == UsageSum(w, n)
            && (forall i | 0 <= i < n :: end.payloads[i].tools <==> i < maxIterations)
            && (if end.failed then end.finish == "error" else end.finalText == TextOf(w.backend(n - 1)))
  {
    RunMeters(w, Start(given), maxIterations);
  }
}
