/** The ReAct loop of agent/loop.py: one run, its conversation, its counters and the events it emits. */
module AgentLoop {

  const MAX_REPAIR_ATTEMPTS := 2
  const PLAN_TOOL_NAME := "plan"

  /** Repair prompts a run has left. */
  type Budget = n: nat | n <= MAX_REPAIR_ATTEMPTS

  /** A tool call as the model wrote it; `id` is empty when the backend gave none. */
  datatype Call = Call(id: string, name: string, arguments: string)

  datatype ToolText = Rejected(attempt: nat) | Abandoned | Output(content: string)

  datatype Message =
    | Other(content: string)
    | Assistant(content: string, calls: seq<Call>)
    | Tool(id: string, name: string, text: ToolText)
    | WrapUp

  datatype Usage = Usage(prompt: int, completion: int, thinking: int)

  /** What one request comes back with: an error, a body without a message, or a message. */
  datatype Completion =
    | BackendError
    | NoMessage(usage: Usage)
    | Reply(usage: Usage, content: string, calls: seq<Call>, finish: string)

  datatype Status = Ok | Error | Denied

  datatype ToolRun = ToolRun(status: Status, content: string)

  datatype Event =
    | Thinking(tokens: int)
    | Delta(text: string)
    | ToolCall(id: string, name: string)
    | PlanSteps
    | ToolResult(id: string, name: string, status: Status)
    | Notice
    | UsageReport(usage: Usage, stats: Stats)
    | Failure
    | Done(reason: string)

  datatype Stats = Stats(calls: nat, malformed: nat, repaired: nat, abandoned: nat)

  datatype Payload = Payload(messages: seq<Message>, tools: bool)

  /** What the run cannot choose: the backend's n-th answer, the n-th tool run, and which calls validate. */
  datatype World = World(backend: nat -> Completion, tools: nat -> ToolRun, wellFormed: Call -> bool)

  datatype State = State(
    messages: seq<Message>, toolMessages: seq<Message>,
    stats: Stats, budget: Budget, pending: set<string>, usage: Usage,
    finalText: string, finish: string, failed: bool, ended: bool,
    payloads: seq<Payload>, executed: seq<Call>, trace: seq<Event>)

  function Start(messages: seq<Message>): State {
    State(messages, [], Stats(0, 0, 0, 0), MAX_REPAIR_ATTEMPTS, {}, Usage(0, 0, 0), "", "stop", false, false, [], [], [])
  }

  function Decimal(n: nat): string {
    var digit := "0123456789"[n % 10];
    if n < 10 then [digit] else Decimal(n / 10) + [digit]
  }

  /** The id a call is answered under when `at` messages precede its answer. */
  function CallId(c: Call, at: nat): string {
    if c.id != "" then c.id else "call_" + Decimal(at)
  }

  function Emit(st: State, events: seq<Event>): State {
    st.(trace := st.trace + events)
  }

  function Answer(st: State, id: string, name: string, text: ToolText): State {
    var m := Tool(id, name, text);
    st.(messages := st.messages + [m], toolMessages := st.toolMessages + [m])
  }

  /** A call that does not validate: a repair prompt while the run's budget lasts, abandoned after that. */
  function Malformed(st: State, id: string, name: string): State {
    var stats := st.stats.(calls := st.stats.calls + 1, malformed := st.stats.malformed + 1);
    var told := Emit(st, [ToolCall(id, name), ToolResult(id, name, Error)]);
    if st.budget > 0 then
      Answer(told.(stats := stats, budget := st.budget - 1, pending := st.pending + {name}),
             id, name, Rejected(MAX_REPAIR_ATTEMPTS + 1 - st.budget))
    else
      Answer(told.(stats := stats.(abandoned := stats.abandoned + 1), pending := st.pending - {name}), id, name, Abandoned)
  }

  function Executed(st: State, call: Call, id: string, result: ToolRun): State {
    var repaired := if call.name in st.pending then 1 else 0;
    var stats := st.stats.(calls := st.stats.calls + 1, repaired := st.stats.repaired + repaired);
    var plan := if call.name == PLAN_TOOL_NAME && result.status.Ok? then [PlanSteps] else [];
    var told := Emit(Emit(Emit(st, [ToolCall(id, call.name)]), plan), [ToolResult(id, call.name, result.status)]);
    Answer(told.(stats := stats, pending := st.pending - {call.name}, executed := st.executed + [call]),
           id, call.name, Output(result.content))
  }

  function HandleCall(w: World, st: State, call: Call): State {
    var id := CallId(call, |st.messages|);
    if w.wellFormed(call) then Executed(st, call, id, w.tools(|st.executed|)) else Malformed(st, id, call.name)
  }

  function HandleCalls(w: World, st: State, calls: seq<Call>): State
    decreases |calls|
  {
    if calls == [] then st else HandleCall(w, HandleCalls(w, st, calls[..|calls| - 1]), calls[|calls| - 1])
  }

  function Aborted(st: State): State {
    Emit(st.(failed := true, finish := "error", ended := true), [Failure, Done("error")])
  }

  function Finished(st: State, text: string, reason: string): State {
    Emit(st.(finalText := text, finish := reason, ended := true), [UsageReport(st.usage, st.stats), Done(reason)])
  }

  function AddUsage(a: Usage, b: Usage): Usage {
    Usage(a.prompt + b.prompt, a.completion + b.completion, a.thinking + b.thinking)
  }

  function Ask(st: State, tools: bool): State {
    st.(payloads := st.payloads + [Payload(st.messages, tools)])
  }

  function Metered(st: State, usage: Usage): State {
    var total := AddUsage(st.usage, usage);
    Emit(st.(usage := total), if usage.thinking > 0 then [Thinking(total.thinking)] else [])
  }

  function SaidIfAny(st: State, text: string): State {
    Emit(st, if text != "" then [Delta(text)] else [])
  }

  function OrStop(finish: string): string {
    if finish != "" then finish else "stop"
  }

  /** The state once a step's message has been metered and shown. */
  function Heard(st: State, usage: Usage, content: string): State {
    SaidIfAny(Metered(Ask(st, true), usage), content)
  }

  function Called(st: State, content: string, calls: seq<Call>): State {
    st.(messages := st.messages + [Assistant(content, calls)])
  }

  /** One iteration: a completion, and either the final answer or every tool call it asks for. */
  function Iterate(w: World, st: State): State {
    var asked := Ask(st, true);
    match w.backend(|st.payloads|)
    case BackendError => Aborted(asked)
    case NoMessage(usage) => Aborted(Metered(asked, usage))
    case Reply(usage, content, calls, finish) =>
      var said := Heard(st, usage, content);
      if calls == [] then Finished(said, content, OrStop(finish)) else HandleCalls(w, Called(said, content, calls), calls)
  }

  function TextOf(c: Completion): string {
    if c.Reply? then c.content else ""
  }

  /** The iteration ceiling: one last completion without tools. */
  function Ceiling(w: World, st: State): State {
    var asked := Ask(Emit(st, [Notice]).(messages := st.messages + [WrapUp]), false);
    match w.backend(|st.payloads|)
    case BackendError => Aborted(asked)
    case c => Finished(SaidIfAny(asked.(usage := AddUsage(st.usage, c.usage)), TextOf(c)), TextOf(c), "length")
  }

  function RunFrom(w: World, st: State, left: nat): State
    decreases left
  {
    if st.ended then st else if left == 0 then Ceiling(w, st) else RunFrom(w, Iterate(w, st), left - 1)
  }

  lemma RunUnfolds(w: World, st: State, left: nat)
    requires !st.ended && left > 0
    ensures RunFrom(w, st, left) == RunFrom(w, Iterate(w, st), left - 1)
  {
  }

  /** What every iteration and the ceiling keep, a run keeps. */
  lemma {:induction false} RunKeeps(w: World, keeps: State -> bool, st: State, left: nat)
    requires keeps(st)
    requires forall s | keeps(s) && !s.ended :: keeps(Iterate(w, s)) && keeps(Ceiling(w, s))
    ensures keeps(RunFrom(w, st, left))
    decreases left
  {
    if !st.ended && left > 0 {
      RunKeeps(w, keeps, Iterate(w, st), left - 1);
    }
  }

  function Run(w: World, messages: seq<Message>, maxIterations: nat): State {
    RunFrom(w, Start(messages), maxIterations)
  }

  // ---- the object ----

  class Agent {
    const world: World
    const maxIterations: nat
    var messages: seq<Message>
    var toolMessages: seq<Message>
    var stats: Stats
    var budget: Budget
    var pending: set<string>
    var usage: Usage
    var finalText: string
    var finish: string
    var failed: bool
    var ended: bool
    var payloads: seq<Payload>
    var executed: seq<Call>
    var trace: seq<Event>

    constructor (world: World, messages: seq<Message>, maxIterations: nat)
      ensures View() == Start(messages) && this.world == world && this.maxIterations == maxIterations
    {
      this.world, this.maxIterations, this.messages := world, maxIterations, messages;
      toolMessages, stats, budget, pending := [], Stats(0, 0, 0, 0), MAX_REPAIR_ATTEMPTS, {};
      usage, finalText, finish, failed, ended := Usage(0, 0, 0), "", "stop", false, false;
      payloads, executed, trace := [], [], [];
    }

    function View(): State
      reads this
    {
      State(messages, toolMessages, stats, budget, pending, usage, finalText, finish, failed, ended, payloads, executed, trace)
    }

    method AppendToolMessage(id: string, name: string, text: ToolText)
      modifies this
      ensures View() == Answer(old(View()), id, name, text)
    {
      var m := Tool(id, name, text);
      messages := messages + [m];
      toolMessages := toolMessages + [m];
    }

    method AccumulateUsage(u: Usage)
      modifies this
      ensures View() == old(View()).(usage := AddUsage(old(usage), u))
    {
      usage := Usage(usage.prompt + u.prompt, usage.completion + u.completion, usage.thinking + u.thinking);
    }

    method AbortRun()
      modifies this
      ensures View() == Aborted(old(View()))
    {
      failed, finish, ended := true, "error", true;
      trace := trace + [Failure, Done("error")];
    }

    method FinishRun(text: string, reason: string)
      modifies this
      ensures View() == Finished(old(View()), text, reason)
    {
      finalText, finish, ended := text, reason, true;
      trace := trace + [UsageReport(usage, stats), Done(reason)];
    }

    method Meter(u: Usage)
      modifies this
      ensures View() == Metered(old(View()), u)
    {
      AccumulateUsage(u);
      trace := trace + if u.thinking > 0 then [Thinking(usage.thinking)] else [];
    }

    method Say(text: string)
      modifies this
      ensures View() == SaidIfAny(old(View()), text)
    {
      trace := trace + if text != "" then [Delta(text)] else [];
    }

    /** A valid call settles the repair asked for under its name. */
    method CountValid(name: string)
      modifies this
      ensures View() == old(View()).(stats := stats, pending := old(pending) - {name})
      ensures stats == old(stats).(calls := old(stats).calls + 1,
                                   repaired := old(stats).repaired + if name in old(pending) then 1 else 0)
    {
      stats := stats.(calls := stats.calls + 1);
      if name in pending {
        pending := pending - {name};
        stats := stats.(repaired := stats.repaired + 1);
      }
      assert pending == old(pending) - {name};
    }

    method RejectCall(id: string, name: string)
      modifies this
      ensures View() == Malformed(old(View()), id, name)
      ensures messages == old(messages) + [Tool(id, name, if old(budget) > 0 then Rejected(3 - old(budget)) else Abandoned)]
    {
      stats := stats.(calls := stats.calls + 1, malformed := stats.malformed + 1);
      trace := trace + [ToolCall(id, name), ToolResult(id, name, Error)];
      if budget > 0 {
        budget := budget - 1;
        pending := pending + {name};
        AppendToolMessage(id, name, Rejected(MAX_REPAIR_ATTEMPTS - budget));
      } else {
        stats := stats.(abandoned := stats.abandoned + 1);
        pending := pending - {name};
        AppendToolMessage(id, name, Abandoned);
      }
    }

    method ExecuteCall(call: Call, id: string)
      modifies this
      ensures View() == Executed(old(View()), call, id, world.tools(|old(executed)|))
      ensures messages == old(messages) + [Tool(id, call.name, Output(world.tools(|old(executed)|).content))]
    {
      CountValid(call.name);
      trace := trace + [ToolCall(id, call.name)];
      var result := world.tools(|executed|);
      executed := executed + [call];
      trace := trace + if call.name == PLAN_TOOL_NAME && result.status.Ok? then [PlanSteps] else [];
      trace := trace + [ToolResult(id, call.name, result.status)];
      AppendToolMessage(id, call.name, Output(result.content));
    }

    method AnswerCall(call: Call)
      modifies this
      ensures View() == HandleCall(world, old(View()), call)
    {
      var id := CallId(call, |messages|);
      if world.wellFormed(call) {
        ExecuteCall(call, id);
      } else {
        RejectCall(id, call.name);
      }
    }

    method AnswerCalls(calls: seq<Call>)
      modifies this
      ensures View() == HandleCalls(world, old(View()), calls)
    {
      var i := 0;
      while i < |calls|
        invariant 0 <= i <= |calls|
        invariant View() == HandleCalls(world, old(View()), calls[..i])
      {
        AnswerCall(calls[i]);
        assert calls[..i + 1][..i] == calls[..i];
        i := i + 1;
      }
      assert calls[..i] == calls;
    }

    method RunIteration()
      modifies this
      ensures View() == Iterate(world, old(View()))
    {
      var response := world.backend(|payloads|);
      payloads := payloads + [Payload(messages, true)];
      if response.BackendError? {
        AbortRun();
        return;
      }
      Meter(response.usage);
      if response.NoMessage? {
        AbortRun();
        return;
      }
      Say(response.content);
      if response.calls == [] {
        FinishRun(response.content, OrStop(response.finish));
        return;
      }
      messages := messages + [Assistant(response.content, response.calls)];
      AnswerCalls(response.calls);
    }

    method RunCeiling()
      modifies this
      ensures View() == Ceiling(world, old(View()))
    {
      trace := trace + [Notice];
      messages := messages + [WrapUp];
      var response := world.backend(|payloads|);
      payloads := payloads + [Payload(messages, false)];
      if response.BackendError? {
        AbortRun();
        return;
      }
      AccumulateUsage(response.usage);
      var text := TextOf(response);
      Say(text);
      FinishRun(text, "length");
    }

    method RunAll()
      requires View() == Start(messages)
      modifies this
      ensures View() == Run(world, old(messages), maxIterations)
    {
      var i := 0;
      ghost var goal := RunFrom(world, View(), maxIterations);
      assert goal == Run(world, old(messages), maxIterations);
      while i < maxIterations && !ended
        invariant 0 <= i <= maxIterations
        invariant RunFrom(world, View(), maxIterations - i) == goal
      {
        RunStep(maxIterations - i);
        i := i + 1;
      }
      RunEnd(maxIterations - i);
    }

    method RunStep(ghost left: nat)
      requires !ended && left > 0
      modifies this
      ensures RunFrom(world, View(), left - 1) == RunFrom(world, old(View()), left)
    {
      ghost var st := View();
      RunIteration();
      RunUnfolds(world, st, left);
    }

    method RunEnd(ghost left: nat)
      requires ended || left == 0
      modifies this
      ensures View() == RunFrom(world, old(View()), left)
    {
      if !ended {
        RunCeiling();
      }
    }
  }
}
