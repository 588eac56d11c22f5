/** What every agent run promises, whatever the backend and the tools do (agent/loop.py:1-20,219-389). */
module AgentRuns {
  import opened AgentLoop

  // ---- the event grammar ----

  datatype Reading =
    | Between                        // start of a step, or after an answered call
    | Thought
    | Said
    | Calling(id: string, name: string, planned: bool)
    | Capped | CappedSaid            // after the iteration-ceiling notice
    | Reported | Failing
    | Over(reason: string)
    | Bad

  function Read(r: Reading, e: Event): Reading {
    match e
    case Thinking(_) => if r.Between? then Thought else Bad
    case Delta(_) => if r.Between? || r.Thought? then Said else if r.Capped? then CappedSaid else Bad
    case ToolCall(id, name) => if r.Between? || r.Thought? || r.Said? then Calling(id, name, false) else Bad
    case PlanSteps => if r.Calling? && !r.planned && r.name == PLAN_TOOL_NAME then r.(planned := true) else Bad
    case ToolResult(id, name, _) => if r.Calling? && r.id == id && r.name == name then Between else Bad
    case Notice => if r.Between? then Capped else Bad
    case UsageReport(_, _) => if r.Between? || r.Thought? || r.Said? || r.Capped? || r.CappedSaid? then Reported else Bad
    case Failure => if r.Between? || r.Thought? || r.Capped? then Failing else Bad
    case Done(reason) => if r.Reported? || (r.Failing? && reason == "error") then Over(reason) else Bad
  }

  /** Where a reader of the events stands; nothing may follow `Done`. */
  function ReadAll(r: Reading, trace: seq<Event>): Reading
    decreases |trace|
  {
    if trace == [] then r else ReadAll(Read(r, trace[0]), trace[1..])
  }

  lemma {:induction false} ReadAppend(r: Reading, a: seq<Event>, b: seq<Event>)
    ensures ReadAll(r, a + b) == ReadAll(ReadAll(r, a), b)
    decreases |a|
  {
    if a == [] {
      assert a + b == b;
    } else {
      assert (a + b)[0] == a[0] && (a + b)[1..] == a[1..] + b;
      ReadAppend(Read(r, a[0]), a[1..], b);
    }
  }

  function Reached(st: State): Reading {
    ReadAll(Between, st.trace)
  }

  lemma ReadOne(r: Reading, e: Event)
    ensures ReadAll(r, [e]) == Read(r, e)
  {
  }

  lemma ReadTwo(r: Reading, a: Event, b: Event)
    ensures ReadAll(r, [a, b]) == Read(Read(r, a), b)
  {
    assert [a, b][1..] == [b];
    ReadOne(Read(r, a), b);
  }

  lemma EmitReads(st: State, events: seq<Event>)
    ensures Reached(Emit(st, events)) == ReadAll(Reached(st), events)
  {
    ReadAppend(Between, st.trace, events);
  }

  lemma ExecutedReads(st: State, call: Call, id: string, result: ToolRun)
    requires Reached(st).Between? || Reached(st).Thought? || Reached(st).Said?
    ensures Reached(Executed(st, call, id, result)).Between?
  {
    var plan := if call.name == PLAN_TOOL_NAME && result.status.Ok? then [PlanSteps] else [];
    var st1 := Emit(st, [ToolCall(id, call.name)]);
    var st2 := Emit(st1, plan);
    EmitReads(st, [ToolCall(id, call.name)]);
    ReadOne(Reached(st), ToolCall(id, call.name));
    EmitReads(st1, plan);
    ReadOne(Reached(st1), PlanSteps);
    assert Reached(st2).Calling? && Reached(st2).id == id && Reached(st2).name == call.name;
    EmitReads(st2, [ToolResult(id, call.name, result.status)]);
    ReadOne(Reached(st2), ToolResult(id, call.name, result.status));
    assert Executed(st, call, id, result).trace == Emit(st2, [ToolResult(id, call.name, result.status)]).trace;
  }

  lemma MalformedReads(st: State, id: string, name: string)
    requires Reached(st).Between? || Reached(st).Thought? || Reached(st).Said?
    ensures Reached(Malformed(st, id, name)).Between?
  {
    EmitReads(st, [ToolCall(id, name), ToolResult(id, name, Error)]);
    ReadTwo(Reached(st), ToolCall(id, name), ToolResult(id, name, Error));
  }

  lemma CallReads(w: World, st: State, call: Call)
    requires Reached(st).Between? || Reached(st).Thought? || Reached(st).Said?
    ensures Reached(HandleCall(w, st, call)).Between?
  {
    var id := CallId(call, |st.messages|);
    ExecutedReads(st, call, id, w.tools(|st.executed|));
    MalformedReads(st, id, call.name);
  }

  lemma {:induction false} CallsRead(w: World, st: State, calls: seq<Call>)
    requires Reached(st).Between? || Reached(st).Thought? || Reached(st).Said?
    ensures calls != [] ==> Reached(HandleCalls(w, st, calls)).Between?
    ensures calls == [] ==> HandleCalls(w, st, calls) == st
    decreases |calls|
  {
    if calls != [] {
      CallsRead(w, st, calls[..|calls| - 1]);
      CallReads(w, HandleCalls(w, st, calls[..|calls| - 1]), calls[|calls| - 1]);
    }
  }

  lemma FinishReads(st: State, text: string, reason: string)
    requires var r := Reached(st); r.Between? || r.Thought? || r.Said? || r.Capped? || r.CappedSaid?
    ensures Reached(Finished(st, text, reason)) == Over(reason)
  {
    EmitReads(st, [UsageReport(st.usage, st.stats), Done(reason)]);
    ReadTwo(Reached(st), UsageReport(st.usage, st.stats), Done(reason));
  }

  lemma AbortReads(st: State)
    requires var r := Reached(st); r.Between? || r.Thought? || r.Capped?
    ensures Reached(Aborted(st)) == Over("error")
  {
    EmitReads(st, [Failure, Done("error")]);
    ReadTwo(Reached(st), Failure, Done("error"));
  }

  lemma SaidReads(st: State, text: string)
    requires Reached(st).Between? || Reached(st).Thought?
    ensures var r := Reached(SaidIfAny(st, text)); r.Between? || r.Thought? || r.Said?
  {
    EmitReads(st, if text != "" then [Delta(text)] else []);
    ReadOne(Reached(st), Delta(text));
  }

  lemma MeteredReads(st: State, usage: Usage)
    requires Reached(st).Between?
    ensures Reached(Metered(st, usage)).Between? || Reached(Metered(st, usage)).Thought?
  {
    var events := if usage.thinking > 0 then [Thinking(AddUsage(st.usage, usage).thinking)] else [];
    EmitReads(st.(usage := AddUsage(st.usage, usage)), events);
    ReadOne(Reached(st), Thinking(AddUsage(st.usage, usage).thinking));
  }

  /** Reading the events so far tells exactly whether the run has ended, and with which reason. */
  predicate GrammarInv(st: State) {
    Reached(st) == if st.ended then Over(st.finish) else Between
  }

  lemma IterateReads(w: World, st: State)
    requires GrammarInv(st) && !st.ended
    ensures GrammarInv(Iterate(w, st))
  {
    var asked := Ask(st, true);
    match w.backend(|st.payloads|) {
      case BackendError => AbortReads(asked);
      case NoMessage(usage) =>
        MeteredReads(asked, usage);
        AbortReads(Metered(asked, usage));
      case Reply(usage, content, calls, finish) =>
        MeteredReads(asked, usage);
        SaidReads(Metered(asked, usage), content);
        var said := Heard(st, usage, content);
        if calls == [] {
          FinishReads(said, content, OrStop(finish));
        } else {
          CallsRead(w, Called(said, content, calls), calls);
          CallsKeepOpen(w, Called(said, content, calls), calls);
        }
    }
  }

  lemma {:induction false} CallsKeepOpen(w: World, st: State, calls: seq<Call>)
    ensures var after := HandleCalls(w, st, calls);
            after.ended == st.ended && after.payloads == st.payloads && after.usage == st.usage
    decreases |calls|
  {
    if calls != [] {
      CallsKeepOpen(w, st, calls[..|calls| - 1]);
    }
  }

  lemma CeilingReads(w: World, st: State)
    requires GrammarInv(st) && !st.ended
    ensures GrammarInv(Ceiling(w, st)) && Ceiling(w, st).ended
  {
    var asked := Ask(Emit(st, [Notice]).(messages := st.messages + [WrapUp]), false);
    EmitReads(st, [Notice]);
    ReadOne(Reached(st), Notice);
    match w.backend(|st.payloads|) {
      case BackendError => AbortReads(asked);
      case c =>
        var metered := asked.(usage := AddUsage(st.usage, c.usage));
        EmitReads(metered, if TextOf(c) != "" then [Delta(TextOf(c))] else []);
        ReadOne(Reached(metered), Delta(TextOf(c)));
        FinishReads(SaidIfAny(metered, TextOf(c)), TextOf(c), "length");
    }
  }

  lemma {:induction false} RunReads(w: World, st: State, left: nat)
    requires GrammarInv(st)
    ensures GrammarInv(RunFrom(w, st, left)) && RunFrom(w, st, left).ended
    decreases left
  {
    if !st.ended {
      if left == 0 {
        CeilingReads(w, st);
      } else {
        IterateReads(w, st);
        RunReads(w, Iterate(w, st), left - 1);
      }
    }
  }

  lemma {:induction false} BadStaysBad(trace: seq<Event>)
    ensures ReadAll(Bad, trace) == Bad
    decreases |trace|
  {
    if trace != [] {
      BadStaysBad(trace[1..]);
    }
  }

  /** Every run emits a trace of the grammar that ends in exactly one `done`, which carries the finish reason. */
  lemma TraceIsWellFormed(w: World, messages: seq<Message>, maxIterations: nat)
    ensures var trace := Run(w, messages, maxIterations).trace;
            && ReadAll(Between, trace) == Over(Run(w, messages, maxIterations).finish)
            && trace != [] && trace[|trace| - 1] == Done(Run(w, messages, maxIterations).finish)
            && (forall i | 0 <= i < |trace| - 1 :: !trace[i].Done?)
  {
    var end := Run(w, messages, maxIterations);
    RunReads(w, Start(messages), maxIterations);
    DoneIsLast(Between, end.trace, end.finish);
  }

  lemma {:induction false} DoneIsLast(r: Reading, trace: seq<Event>, reason: string)
    requires ReadAll(r, trace) == Over(reason) && !r.Over?
    ensures trace != [] && trace[|trace| - 1] == Done(reason)
    ensures forall i | 0 <= i < |trace| - 1 :: !trace[i].Done?
    decreases |trace|
  {
    var next, rest := Read(r, trace[0]), trace[1..];
    if next.Over? {
      if rest != [] {
        BadStaysBad(rest[1..]);
      }
    } else {
      DoneIsLast(next, rest, reason);
      assert forall i | 1 <= i < |trace| :: trace[i] == rest[i - 1];
      assert trace[0].Done? ==> next.Bad?;
      BadStaysBad(rest);
    }
  }
}
