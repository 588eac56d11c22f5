/** The repair budget and the call counters of an agent run (agent/loop.py:10-18,262-328). */
module AgentCounters {
  import opened AgentLoop

  datatype Kind = AsRejected | AsAbandoned | AsOutput

  predicate Is(m: Message, kind: Kind) {
    m.Tool? && (match kind case AsRejected => m.text.Rejected? case AsAbandoned => m.text.Abandoned? case AsOutput => m.text.Output?)
  }

  function Count(ms: seq<Message>, kind: Kind): nat
    decreases |ms|
  {
    if ms == [] then 0 else Count(ms[..|ms| - 1], kind) + if Is(ms[|ms| - 1], kind) then 1 else 0
  }

  lemma CountAppend(ms: seq<Message>, m: Message, kind: Kind)
    ensures Count(ms + [m], kind) == Count(ms, kind) + if Is(m, kind) then 1 else 0
  {
    assert (ms + [m])[..|ms|] == ms;
  }

  /** The calls of a list that validate. */
  function Valid(w: World, calls: seq<Call>): seq<Call>
    decreases |calls|
  {
    if calls == [] then []
    else
      var k := |calls| - 1;
      Valid(w, calls[..k]) + if w.wellFormed(calls[k]) then [calls[k]] else []
  }

  /** Every call the model asked for after the first n messages, in order. */
  function Asked(n: nat, ms: seq<Message>): seq<Call>
    decreases |ms|
  {
    if |ms| <= n then []
    else
      var k := |ms| - 1;
      Asked(n, ms[..k]) + if ms[k].Assistant? then ms[k].calls else []
  }

  /** Repair prompts sent so far. */
  function Prompts(st: State): nat {
    MAX_REPAIR_ATTEMPTS - st.budget
  }

  predicate StatsInv(st: State) {
    && st.stats.malformed == Prompts(st) + st.stats.abandoned
    && st.stats.repaired + |st.pending| <= Prompts(st)
    && st.stats.calls == |st.executed| + st.stats.malformed
    && (st.stats.abandoned > 0 ==> st.budget == 0)
  }

  predicate ToldInv(st: State) {
    && Count(st.toolMessages, AsRejected) == Prompts(st)
    && Count(st.toolMessages, AsAbandoned) == st.stats.abandoned
    && Count(st.toolMessages, AsOutput) == |st.executed|
    && |st.toolMessages| == st.stats.calls
  }

  lemma MalformedKeepsStats(st: State, id: string, name: string)
    requires StatsInv(st)
    ensures StatsInv(Malformed(st, id, name))
  {
    assert name in st.pending ==> st.pending + {name} == st.pending;
    assert name in st.pending ==> |st.pending - {name}| == |st.pending| - 1;
    assert name !in st.pending ==> st.pending - {name} == st.pending;
  }

  lemma ExecutedKeepsStats(st: State, call: Call, id: string, result: ToolRun)
    requires StatsInv(st)
    ensures StatsInv(Executed(st, call, id, result))
  {
    assert call.name in st.pending ==> |st.pending - {call.name}| == |st.pending| - 1;
    assert call.name !in st.pending ==> st.pending - {call.name} == st.pending;
  }

  lemma AnswerCounts(st: State, id: string, name: string, text: ToolText, kind: Kind)
    ensures Count(Answer(st, id, name, text).toolMessages, kind)
         == Count(st.toolMessages, kind) + if Is(Tool(id, name, text), kind) then 1 else 0
  {
    CountAppend(st.toolMessages, Tool(id, name, text), kind);
  }

  lemma MalformedKeepsTold(st: State, id: string, name: string)
    requires ToldInv(st)
    ensures ToldInv(Malformed(st, id, name))
  {
    var text := if st.budget > 0 then Rejected(MAX_REPAIR_ATTEMPTS + 1 - st.budget) else Abandoned;
    AnswerCounts(st, id, name, text, AsRejected);
    AnswerCounts(st, id, name, text, AsAbandoned);
    AnswerCounts(st, id, name, text, AsOutput);
  }

  lemma ExecutedKeepsTold(st: State, call: Call, id: string, result: ToolRun)
    requires ToldInv(st)
    ensures ToldInv(Executed(st, call, id, result))
  {
    AnswerCounts(st, id, call.name, Output(result.content), AsRejected);
    AnswerCounts(st, id, call.name, Output(result.content), AsAbandoned);
    AnswerCounts(st, id, call.name, Output(result.content), AsOutput);
  }

  lemma CallKeepsCounters(w: World, st: State, call: Call)
    requires StatsInv(st) && ToldInv(st)
    ensures StatsInv(HandleCall(w, st, call)) && ToldInv(HandleCall(w, st, call))
  {
    var id := CallId(call, |st.messages|);
    if w.wellFormed(call) {
      ExecutedKeepsStats(st, call, id, w.tools(|st.executed|));
      ExecutedKeepsTold(st, call, id, w.tools(|st.executed|));
    } else {
      MalformedKeepsStats(st, id, call.name);
      MalformedKeepsTold(st, id, call.name);
    }
  }

  lemma {:induction false} CallsKeepCounters(w: World, st: State, calls: seq<Call>)
    requires StatsInv(st) && ToldInv(st)
    ensures StatsInv(HandleCalls(w, st, calls)) && ToldInv(HandleCalls(w, st, calls))
    decreases |calls|
  {
    if calls != [] {
      var before := HandleCalls(w, st, calls[..|calls| - 1]);
      CallsKeepCounters(w, st, calls[..|calls| - 1]);
      CallKeepsCounters(w, before, calls[|calls| - 1]);
    }
  }

  lemma HeardKeepsCounters(st: State, usage: Usage, content: string, calls: seq<Call>)
    requires StatsInv(st) && ToldInv(st)
    ensures var called := Called(Heard(st, usage, content), content, calls);
            StatsInv(called) && ToldInv(called) && called.executed == st.executed
  {
  }

  lemma IterateKeepsCounters(w: World, st: State)
    requires StatsInv(st) && ToldInv(st)
    ensures StatsInv(Iterate(w, st)) && ToldInv(Iterate(w, st))
  {
    var c := w.backend(|st.payloads|);
    if c.Reply? && c.calls != [] {
      HeardKeepsCounters(st, c.usage, c.content, c.calls);
      CallsKeepCounters(w, Called(Heard(st, c.usage, c.content), c.content, c.calls), c.calls);
    } else {
      QuietStepCounts(w, st);
    }
  }

  /** A step without calls leaves every counter alone. */
  lemma QuietStepCounts(w: World, st: State)
    requires var c := w.backend(|st.payloads|); !c.Reply? || c.calls == []
    ensures var after := Iterate(w, st);
            && after.stats == st.stats && after.budget == st.budget && after.pending == st.pending
            && after.executed == st.executed && after.toolMessages == st.toolMessages
            && after.messages == st.messages
  {
  }

  lemma CeilingCounts(w: World, st: State)
    ensures var after := Ceiling(w, st);
            && after.stats == st.stats && after.budget == st.budget && after.pending == st.pending
            && after.executed == st.executed && after.toolMessages == st.toolMessages
            && after.messages == st.messages + [WrapUp]
  {
  }

  lemma {:induction false} RunKeepsCounters(w: World, st: State, left: nat)
    requires StatsInv(st) && ToldInv(st)
    ensures StatsInv(RunFrom(w, st, left)) && ToldInv(RunFrom(w, st, left))
    decreases left
  {
    if !st.ended {
      if left == 0 {
        CeilingCounts(w, st);
      } else {
        IterateKeepsCounters(w, st);
        RunKeepsCounters(w, Iterate(w, st), left - 1);
      }
    }
  }

  /**
   In every run, however malformed and valid calls alternate: at most MAX_REPAIR_ATTEMPTS repair prompts;
   every malformed call was either prompted for repair or abandoned, and abandoning starts only when the
   budget is spent; no more repairs are counted or outstanding than were prompted; the rest was executed.
   */
  lemma RepairBudget(w: World, given: seq<Message>, maxIterations: nat)
    ensures var end := Run(w, given, maxIterations);
            var prompts := Count(end.toolMessages, AsRejected);
            && prompts <= MAX_REPAIR_ATTEMPTS
            && end.stats.malformed == prompts + Count(end.toolMessages, AsAbandoned)
            && end.stats.abandoned == Count(end.toolMessages, AsAbandoned)
            && (end.stats.abandoned > 0 ==> prompts == MAX_REPAIR_ATTEMPTS)
            && end.stats.repaired + |end.pending| <= prompts
            && end.stats.calls == |end.toolMessages|
            && |end.executed| == Count(end.toolMessages, AsOutput) == end.stats.calls - end.stats.malformed
  {
    RunKeepsCounters(w, Start(given), maxIterations);
  }

  // ---- what is executed ----

  lemma AskedAppend(n: nat, ms: seq<Message>, m: Message)
    requires n <= |ms|
    ensures Asked(n, ms + [m]) == Asked(n, ms) + if m.Assistant? then m.calls else []
  {
    assert (ms + [m])[..|ms|] == ms;
  }

  lemma {:induction false} ValidAppend(w: World, a: seq<Call>, b: seq<Call>)
    ensures Valid(w, a + b) == Valid(w, a) + Valid(w, b)
    decreases |b|
  {
    if b == [] {
      assert a + b == a;
    } else {
      var k := |b| - 1;
      assert (a + b)[..|a| + k] == a + b[..k];
      ValidAppend(w, a, b[..k]);
    }
  }

  lemma CallExecutes(n: nat, w: World, st: State, call: Call)
    requires n <= |st.messages|
    ensures var after := HandleCall(w, st, call);
            && after.executed == st.executed + (if w.wellFormed(call) then [call] else [])
            && n <= |after.messages| && Asked(n, after.messages) == Asked(n, st.messages)
  {
    var after := HandleCall(w, st, call);
    var m := after.messages[|st.messages|];
    assert after.messages == st.messages + [m];
    AskedAppend(n, st.messages, m);
  }

  lemma {:induction false} CallsExecute(n: nat, w: World, st: State, calls: seq<Call>)
    requires n <= |st.messages|
    ensures var after := HandleCalls(w, st, calls);
            && after.executed == st.executed + Valid(w, calls)
            && n <= |after.messages| && Asked(n, after.messages) == Asked(n, st.messages)
    decreases |calls|
  {
    if calls != [] {
      CallsExecute(n, w, st, calls[..|calls| - 1]);
      CallExecutes(n, w, HandleCalls(w, st, calls[..|calls| - 1]), calls[|calls| - 1]);
    }
  }

  predicate ExecInv(n: nat, w: World, st: State) {
    n <= |st.messages| && st.executed == Valid(w, Asked(n, st.messages))
  }

  lemma HeardAsks(n: nat, st: State, usage: Usage, content: string, calls: seq<Call>)
    requires n <= |st.messages|
    ensures var called := Called(Heard(st, usage, content), content, calls);
            && n <= |called.messages| && Asked(n, called.messages) == Asked(n, st.messages) + calls
            && called.executed == st.executed
  {
    AskedAppend(n, st.messages, Assistant(content, calls));
  }

  lemma IterateExecutes(n: nat, w: World, st: State)
    requires ExecInv(n, w, st)
    ensures ExecInv(n, w, Iterate(w, st))
  {
    var c := w.backend(|st.payloads|);
    if c.Reply? && c.calls != [] {
      HeardAsks(n, st, c.usage, c.content, c.calls);
      CallsExecute(n, w, Called(Heard(st, c.usage, c.content), c.content, c.calls), c.calls);
      ValidAppend(w, Asked(n, st.messages), c.calls);
    } else {
      QuietStepCounts(w, st);
    }
  }

  lemma {:induction false} RunExecutes(n: nat, w: World, st: State, left: nat)
    requires ExecInv(n, w, st)
    ensures ExecInv(n, w, RunFrom(w, st, left))
    decreases left
  {
    if !st.ended {
      if left == 0 {
        CeilingCounts(w, st);
        AskedAppend(n, st.messages, WrapUp);
        assert Asked(n, st.messages) + [] == Asked(n, st.messages);
      } else {
        IterateExecutes(n, w, st);
        RunExecutes(n, w, Iterate(w, st), left - 1);
      }
    }
  }

  /** Exactly the calls that validate are executed, each once, in the order the model asked for them. */
  lemma ExecutesTheValidCalls(w: World, given: seq<Message>, maxIterations: nat)
    ensures var end := Run(w, given, maxIterations);
            end.executed == Valid(w, Asked(|given|, end.messages))
  {
    RunExecutes(|given|, w, Start(given), maxIterations);
  }

  // ---- what the answers say ----

  /** The tool messages after the first n messages. */
  function Tools(n: nat, ms: seq<Message>): seq<Message>
    decreases |ms|
  {
    if |ms| <= n then []
    else
      var k := |ms| - 1;
      Tools(n, ms[..k]) + if ms[k].Tool? then [ms[k]] else []
  }

  lemma ToolsAppend(n: nat, ms: seq<Message>, m: Message)
    requires n <= |ms|
    ensures Tools(n, ms + [m]) == Tools(n, ms) + if m.Tool? then [m] else []
  {
    assert (ms + [m])[..|ms|] == ms;
  }

  /** An output is that of the tool run with its number, under the id and name of the call; repair prompts are numbered. */
  predicate Says(w: World, executed: seq<Call>, before: seq<Message>, m: Message) {
    m.Tool? &&
    match m.text
    case Output(content) =>
      var k := Count(before, AsOutput);
      && k < |executed| && content == w.tools(k).content && m.name == executed[k].name
      && (executed[k].id != "" ==> m.id == executed[k].id)
    case Rejected(attempt) => attempt == Count(before, AsRejected) + 1
    case Abandoned => Count(before, AsRejected) == 2
  }

  predicate AllSay(w: World, executed: seq<Call>, ms: seq<Message>) {
    forall i | 0 <= i < |ms| :: Says(w, executed, ms[..i], ms[i])
  }

  lemma SaysOneMore(w: World, executed: seq<Call>, more: seq<Call>, ms: seq<Message>, m: Message)
    requires AllSay(w, executed, ms) && Says(w, executed + more, ms, m)
    ensures AllSay(w, executed + more, ms + [m])
  {
    var all := ms + [m];
    forall i | 0 <= i < |all| ensures Says(w, executed + more, all[..i], all[i]) {
      assert all[..i] == ms[..i];
      if i < |ms| {
        assert Says(w, executed, ms[..i], ms[i]);
      }
    }
  }

  predicate AnswersInv(n: nat, w: World, st: State) {
    && ToldInv(st) && n <= |st.messages| && st.toolMessages == Tools(n, st.messages)
    && AllSay(w, st.executed, st.toolMessages)
  }

  lemma AnswerSays(n: nat, w: World, st: State, after: State, m: Message, more: seq<Call>)
    requires AnswersInv(n, w, st) && ToldInv(after) && Says(w, st.executed + more, st.toolMessages, m)
    requires after.messages == st.messages + [m] && after.toolMessages == st.toolMessages + [m]
    requires after.executed == st.executed + more
    ensures AnswersInv(n, w, after)
  {
    ToolsAppend(n, st.messages, m);
    SaysOneMore(w, st.executed, more, st.toolMessages, m);
  }

  lemma ExecutedSays(n: nat, w: World, st: State, call: Call)
    requires AnswersInv(n, w, st) && w.wellFormed(call)
    ensures AnswersInv(n, w, HandleCall(w, st, call))
  {
    var id, k := CallId(call, |st.messages|), |st.executed|;
    ExecutedKeepsTold(st, call, id, w.tools(k));
    AnswerSays(n, w, st, HandleCall(w, st, call), Tool(id, call.name, Output(w.tools(k).content)), [call]);
  }

  /** The answer to a call that does not validate. */
  function Refusal(st: State, id: string, name: string): Message {
    Tool(id, name, if st.budget > 0 then Rejected(MAX_REPAIR_ATTEMPTS + 1 - st.budget) else Abandoned)
  }

  lemma MalformedAnswers(st: State, id: string, name: string)
    ensures var after := Malformed(st, id, name);
            && after.messages == st.messages + [Refusal(st, id, name)]
            && after.toolMessages == st.toolMessages + [Refusal(st, id, name)]
            && after.executed == st.executed + []
  {
    assert st.executed + [] == st.executed;
  }

  lemma RefusalSays(w: World, st: State, id: string, name: string)
    requires ToldInv(st)
    ensures Says(w, st.executed + [], st.toolMessages, Refusal(st, id, name))
  {
  }

  lemma MalformedSays(n: nat, w: World, st: State, call: Call)
    requires AnswersInv(n, w, st) && !w.wellFormed(call)
    ensures AnswersInv(n, w, HandleCall(w, st, call))
  {
    var id := CallId(call, |st.messages|);
    MalformedKeepsTold(st, id, call.name);
    MalformedAnswers(st, id, call.name);
    RefusalSays(w, st, id, call.name);
    AnswerSays(n, w, st, Malformed(st, id, call.name), Refusal(st, id, call.name), []);
  }

  lemma {:induction false} CallsSay(n: nat, w: World, st: State, calls: seq<Call>)
    requires AnswersInv(n, w, st)
    ensures AnswersInv(n, w, HandleCalls(w, st, calls))
    decreases |calls|
  {
    if calls != [] {
      var k := |calls| - 1;
      var mid := HandleCalls(w, st, calls[..k]);
      CallsSay(n, w, st, calls[..k]);
      if w.wellFormed(calls[k]) {
        ExecutedSays(n, w, mid, calls[k]);
      } else {
        MalformedSays(n, w, mid, calls[k]);
      }
    }
  }

  lemma HeardSays(n: nat, w: World, st: State, usage: Usage, content: string, calls: seq<Call>)
    requires AnswersInv(n, w, st)
    ensures AnswersInv(n, w, Called(Heard(st, usage, content), content, calls))
  {
    ToolsAppend(n, st.messages, Assistant(content, calls));
    assert Tools(n, st.messages) + [] == Tools(n, st.messages);
  }

  lemma IterateSays(n: nat, w: World, st: State)
    requires AnswersInv(n, w, st)
    ensures AnswersInv(n, w, Iterate(w, st))
  {
    var c := w.backend(|st.payloads|);
    if c.Reply? && c.calls != [] {
      HeardSays(n, w, st, c.usage, c.content, c.calls);
      CallsSay(n, w, Called(Heard(st, c.usage, c.content), c.content, c.calls), c.calls);
    } else {
      QuietStepCounts(w, st);
    }
  }

  lemma CeilingSays(n: nat, w: World, st: State)
    requires AnswersInv(n, w, st)
    ensures AnswersInv(n, w, Ceiling(w, st))
  {
    CeilingCounts(w, st);
    ToolsAppend(n, st.messages, WrapUp);
    assert Tools(n, st.messages) + [] == Tools(n, st.messages);
  }

  /**
   In every run the k-th tool output shown to the model is what the k-th executed call returned, under its name and id; the
   k-th repair prompt says that it is the k-th; and a call is abandoned only after both.
   */
  lemma OutputsReachTheModel(w: World, given: seq<Message>, maxIterations: nat, i: nat)
    requires i < |Run(w, given, maxIterations).toolMessages|
    ensures var end := Run(w, given, maxIterations);
            && end.toolMessages == Tools(|given|, end.messages)
            && Says(w, end.executed, end.toolMessages[..i], end.toolMessages[i])
  {
    var keeps := (st: State) => AnswersInv(|given|, w, st);
    forall st | keeps(st) && !st.ended ensures keeps(Iterate(w, st)) && keeps(Ceiling(w, st)) {
      IterateSays(|given|, w, st);
      CeilingSays(|given|, w, st);
    }
    RunKeeps(w, keeps, Start(given), maxIterations);
  }
}
