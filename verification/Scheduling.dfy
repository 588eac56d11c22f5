/** The scheduler (schedules/runner.py) over the schedules table, one step per await-free stretch. */
module Scheduling {
  import opened Prelude
  import opened Schedules

  type ScheduleId = nat
  type TaskId = nat

  datatype Row = Row(cadence: Cadence, enabled: bool, nextRun: Option<int>, lastRun: Option<int>)

  /** A run's task: still executing, or done with its done-callback not yet delivered. */
  datatype Task = Task(schedule: ScheduleId, done: bool)

  datatype State = State(rows: map<ScheduleId, Row>, running: map<ScheduleId, TaskId>,
                         tasks: map<TaskId, Task>, nextTask: TaskId)

  const INITIAL := State(map[], map[], map[], 0)

  predicate Due(row: Row, now: int) {
    row.enabled && row.nextRun.Some? && row.nextRun.value <= now
  }

  /** _launch */
  function Launch(s: State, id: ScheduleId): State {
    State(s.rows, s.running[id := s.nextTask], s.tasks[s.nextTask := Task(id, false)], s.nextTask + 1)
  }

  /** What a tick fires. */
  function DueIds(s: State, now: int): set<ScheduleId> {
    set id | id in s.rows && id !in s.running && Due(s.rows[id], now)
  }

  /** The row a finished run records: the cadence read back now, not the one at launch. */
  function Recorded(row: Row, finished: int): Row {
    row.(lastRun := Some(Stored(finished)), nextRun := Some(Stored(ComputeNextRun(row.cadence, finished))))
  }

  function Finish(s: State, task: TaskId, finished: int): State
    requires task in s.tasks
  {
    var id := s.tasks[task].schedule;
    s.(tasks := s.tasks[task := Task(id, true)],
       rows := if id in s.rows then s.rows[id := Recorded(s.rows[id], finished)] else s.rows)
  }

  /** A cancelled run, or one whose schedule was deleted before it started, records nothing. */
  function Abandon(s: State, task: TaskId): State
    requires task in s.tasks
  {
    s.(tasks := s.tasks[task := s.tasks[task].(done := true)])
  }

  /** The done-callback: running.pop(id, None). */
  function Callback(s: State, task: TaskId): State
    requires task in s.tasks
  {
    s.(running := s.running - {s.tasks[task].schedule}, tasks := s.tasks - {task})
  }

  function NewRow(c: Cadence, enabled: bool, now: int): Row {
    Row(c, enabled, Some(Stored(ComputeNextRun(c, now))), None)
  }

  /** PATCH: a new cadence, or a re-enable, recomputes the next run from now. */
  function Patched(row: Row, cadence: Option<Cadence>, enabled: Option<bool>, now: int): Row {
    var c := if cadence.Some? then cadence.value else row.cadence;
    Row(c, if enabled.Some? then enabled.value else row.enabled,
        if cadence.Some? || enabled == Some(true) then Some(Stored(ComputeNextRun(c, now))) else row.nextRun,
        row.lastRun)
  }

  datatype Action =
    | Tick(now: int)
    | RunNow(id: ScheduleId)
    | FinishRun(task: TaskId, finished: int)
    | AbandonRun(task: TaskId)
    | DoneCallback(task: TaskId)
    | Create(id: ScheduleId, cadence: Cadence, enabled: bool, now: int)
    | Patch(id: ScheduleId, newCadence: Option<Cadence>, newEnabled: Option<bool>, now: int)
    | Delete(id: ScheduleId)

  /** One tick launches the due schedules in some order (the order of the table). */
  function LaunchAll(s: State, ids: seq<ScheduleId>): State
    decreases |ids|
  {
    if ids == [] then s else LaunchAll(Launch(s, ids[0]), ids[1..])
  }

  predicate Distinct(ids: seq<ScheduleId>) {
    forall i, j | 0 <= i < j < |ids| :: ids[i] != ids[j]
  }

  ghost predicate Fires(s: State, now: int, ids: seq<ScheduleId>) {
    Distinct(ids) && forall id :: id in ids <==> id in DueIds(s, now)
  }

  predicate Live(s: State, task: TaskId) {
    task in s.tasks && !s.tasks[task].done
  }

  ghost predicate Next(s: State, a: Action, s': State) {
    match a
    case Tick(now) => exists ids :: Fires(s, now, ids) && s' == LaunchAll(s, ids)
    case RunNow(id) => s' == if id in s.rows && id !in s.running then Launch(s, id) else s
    case FinishRun(task, finished) => Live(s, task) && s' == Finish(s, task, finished)
    case AbandonRun(task) => Live(s, task) && s' == Abandon(s, task)
    case DoneCallback(task) => task in s.tasks && s.tasks[task].done && s' == Callback(s, task)
    case Create(id, c, enabled, now) =>
      id !in s.rows && ValidCadence(c) && s' == s.(rows := s.rows[id := NewRow(c, enabled, now)])
    case Patch(id, c, enabled, now) =>
      && (c.Some? ==> ValidCadence(c.value))
      && s' == if id in s.rows then s.(rows := s.rows[id := Patched(s.rows[id], c, enabled, now)]) else s
    case Delete(id) => s' == s.(rows := s.rows - {id})
  }

  ghost predicate Behaviour(states: seq<State>, actions: seq<Action>) {
    && |states| == |actions| + 1
    && forall i | 0 <= i < |actions| :: Next(states[i], actions[i], states[i + 1])
  }

  /** Every task still around is the one its schedule's running entry names. */
  predicate Inv(s: State) {
    && (forall t | t in s.tasks :: t < s.nextTask)
    && (forall t | t in s.tasks :: s.tasks[t].schedule in s.running && s.running[s.tasks[t].schedule] == t)
    && (forall id | id in s.running :: s.running[id] in s.tasks && s.tasks[s.running[id]].schedule == id)
    && (forall id | id in s.rows :: ValidCadence(s.rows[id].cadence))
  }

  lemma {:induction false} LaunchAllKeeps(s: State, ids: seq<ScheduleId>)
    requires Inv(s) && Distinct(ids) && forall id | id in ids :: id !in s.running
    ensures var s' := LaunchAll(s, ids);
            Inv(s') && s'.rows == s.rows && forall id :: id in s'.running <==> id in s.running || id in ids
    decreases |ids|
  {
    if ids != [] {
      var s1 := Launch(s, ids[0]);
      var rest := ids[1..];
      forall id | id in rest ensures id !in s1.running {
        var j :| 0 <= j < |rest| && rest[j] == id;
        assert ids[j + 1] == id != ids[0];
        assert id in ids;
      }
      assert Distinct(rest) by {
        forall i, j | 0 <= i < j < |rest| ensures rest[i] != rest[j] { assert ids[i + 1] != ids[j + 1]; }
      }
      LaunchAllKeeps(s1, rest);
    }
  }

  lemma StepKeeps(s: State, a: Action, s': State)
    requires Inv(s) && Next(s, a, s')
    ensures Inv(s')
  {
    if a.Tick? {
      var ids :| Fires(s, a.now, ids) && s' == LaunchAll(s, ids);
      LaunchAllKeeps(s, ids);
    }
  }

  lemma {:induction false} RunsKeep(states: seq<State>, actions: seq<Action>, i: nat)
    requires Behaviour(states, actions) && Inv(states[0]) && i < |states|
    ensures Inv(states[i])
  {
    if i > 0 {
      RunsKeep(states, actions, i - 1);
      StepKeeps(states[i - 1], actions[i - 1], states[i]);
    }
  }

  /**
   In every run of the scheduler, from the start or after a restart with stored schedules, no two runs of one schedule are
   ever in flight together.
   */
  lemma NoOverlap(states: seq<State>, actions: seq<Action>, i: nat, t1: TaskId, t2: TaskId)
    requires Behaviour(states, actions) && Inv(states[0]) && i < |states|
    requires t1 in states[i].tasks && t2 in states[i].tasks
    requires states[i].tasks[t1].schedule == states[i].tasks[t2].schedule
    ensures t1 == t2
  {
    RunsKeep(states, actions, i);
  }

  /** Whether the step may rewrite the schedule's row. */
  predicate Writes(s: State, a: Action, id: ScheduleId) {
    match a
    case FinishRun(task, _) => task in s.tasks && s.tasks[task].schedule == id
    case Create(other, _, _, _) => other == id
    case Patch(other, _, _, _) => other == id
    case Delete(other) => other == id
    case _ => false
  }

  lemma {:induction false} RowUntouched(states: seq<State>, actions: seq<Action>, i: nat, j: nat, id: ScheduleId)
    requires Behaviour(states, actions) && Inv(states[0]) && i <= j < |states|
    requires forall k | i <= k < j :: !Writes(states[k], actions[k], id)
    ensures id in states[j].rows <==> id in states[i].rows
    ensures id in states[i].rows ==> states[j].rows[id] == states[i].rows[id]
    decreases j
  {
    if i < j {
      RowUntouched(states, actions, i, j - 1, id);
      RunsKeep(states, actions, j - 1);
      var s, a := states[j - 1], actions[j - 1];
      assert Next(s, a, states[j]);
      if a.Tick? {
        var ids :| Fires(s, a.now, ids) && states[j] == LaunchAll(s, ids);
        LaunchAllKeeps(s, ids);
      }
    }
  }

  /** A tick starts exactly the enabled schedules that are due and have no run in flight. */
  lemma TickFires(states: seq<State>, actions: seq<Action>, i: nat, id: ScheduleId)
    requires Behaviour(states, actions) && Inv(states[0]) && i < |actions| && actions[i].Tick?
    ensures var s := states[i];
            id in states[i + 1].running && id !in s.running
            <==> && id in s.rows && id !in s.running && s.rows[id].enabled
                 && s.rows[id].nextRun.Some? && s.rows[id].nextRun.value <= actions[i].now
  {
    RunsKeep(states, actions, i);
    assert Next(states[i], actions[i], states[i + 1]);
    var ids :| Fires(states[i], actions[i].now, ids) && states[i + 1] == LaunchAll(states[i], ids);
    LaunchAllKeeps(states[i], ids);
  }

  // ---- what a step does to the runs in flight ----

  /** From s to s' exactly these schedules started: each has a task of its own that was not there before. */
  ghost predicate Started(s: State, s': State, ids: iset<ScheduleId>) {
    && (forall id :: id in s'.running <==> id in s.running || id in ids)
    && (forall id | id in s.running && id !in ids :: s'.running[id] == s.running[id])
    && (forall id | id in ids :: s'.running[id] in s'.tasks && s'.running[id] !in s.tasks
                                 && s'.tasks[s'.running[id]] == Task(id, false))
    && (forall t | t in s.tasks :: t in s'.tasks && s'.tasks[t] == s.tasks[t])
    && (forall t | t in s'.tasks && t !in s.tasks :: s'.tasks[t].schedule in ids && s'.running[s'.tasks[t].schedule] == t)
  }

  lemma StartOne(s: State, id: ScheduleId)
    requires Inv(s) && id !in s.running
    ensures Inv(Launch(s, id)) && Started(s, Launch(s, id), iset{id})
  {
  }

  lemma StartedBoth(s: State, mid: State, s': State, id: ScheduleId, others: iset<ScheduleId>)
    requires Inv(s) && Inv(mid) && Inv(s') && id !in others
    requires Started(s, mid, iset{id}) && Started(mid, s', others)
    ensures Started(s, s', iset{id} + others)
  {
    var ids := iset{id} + others;
    forall t | t in s'.tasks && t !in s.tasks
      ensures s'.tasks[t].schedule in ids && s'.running[s'.tasks[t].schedule] == t
    {
      if t in mid.tasks {
        assert s'.tasks[t] == mid.tasks[t];
      }
    }
  }

  ghost function Members(ids: seq<ScheduleId>): iset<ScheduleId> {
    iset id | id in ids
  }

  lemma FirstApart(ids: seq<ScheduleId>)
    requires ids != [] && Distinct(ids)
    ensures Distinct(ids[1..]) && ids[0] !in ids[1..] && Members(ids) == iset{ids[0]} + Members(ids[1..])
  {
    var rest := ids[1..];
    forall i, j | 0 <= i < j < |rest| ensures rest[i] != rest[j] {
      assert ids[i + 1] != ids[j + 1];
    }
    forall j | 0 <= j < |rest| ensures rest[j] != ids[0] {
      assert ids[j + 1] != ids[0];
    }
    assert ids == [ids[0]] + rest;
  }

  lemma {:induction false} LaunchAllStarts(s: State, ids: seq<ScheduleId>)
    requires Inv(s) && Distinct(ids) && forall id | id in ids :: id !in s.running
    ensures Inv(LaunchAll(s, ids)) && Started(s, LaunchAll(s, ids), Members(ids))
    decreases |ids|
  {
    LaunchAllKeeps(s, ids);
    if ids != [] {
      FirstApart(ids);
      StartOne(s, ids[0]);
      assert forall id | id in ids[1..] :: id in Members(ids);
      LaunchAllStarts(Launch(s, ids[0]), ids[1..]);
      StartedBoth(s, Launch(s, ids[0]), LaunchAll(s, ids), ids[0], Members(ids[1..]));
    }
  }

  /** The schedules a step starts. */
  ghost function StartedBy(s: State, a: Action): iset<ScheduleId> {
    match a
    case Tick(now) =>
      iset id | id in s.rows && id !in s.running && s.rows[id].enabled
                && s.rows[id].nextRun.Some? && s.rows[id].nextRun.value <= now
    case RunNow(other) => iset id | id == other && id in s.rows && id !in s.running
    case _ => iset{}
  }

  /** Every step's effect on the tasks and on the table of runs in flight. */
  ghost predicate TasksAfter(s: State, a: Action, s': State) {
    match a
    case FinishRun(task, _) =>
      && task in s.tasks && !s.tasks[task].done
      && s'.tasks == s.tasks[task := Task(s.tasks[task].schedule, true)] && s'.running == s.running
    case AbandonRun(task) =>
      && task in s.tasks && !s.tasks[task].done
      && s'.tasks == s.tasks[task := Task(s.tasks[task].schedule, true)] && s'.running == s.running
    case DoneCallback(task) =>
      && task in s.tasks && s.tasks[task].done && s'.tasks == s.tasks - {task}
      && forall id :: (id in s'.running <==> id in s.running && s.running[id] != task)
                      && (id in s'.running ==> s'.running[id] == s.running[id])
    case _ => Started(s, s', StartedBy(s, a))
  }

  /**
   Over whole runs: a tick gives each due schedule, and a run-now its schedule, one new task; a task ends once;
   its callback clears the entry of that task and of no other.
   */
  lemma RunsAre(states: seq<State>, actions: seq<Action>, i: nat)
    requires Behaviour(states, actions) && Inv(states[0]) && i < |actions|
    ensures TasksAfter(states[i], actions[i], states[i + 1])
  {
    RunsKeep(states, actions, i);
    var s, a := states[i], actions[i];
    assert Next(s, a, states[i + 1]);
    match a {
      case Tick(now) =>
        var ids :| Fires(s, now, ids) && states[i + 1] == LaunchAll(s, ids);
        LaunchAllStarts(s, ids);
        assert Members(ids) == StartedBy(s, a);
      case RunNow(id) =>
        if id in s.rows && id !in s.running {
          StartOne(s, id);
          assert iset{id} == StartedBy(s, a);
        }
      case _ =>
    }
  }

  // ---- what the rows tell ----

  /** Whether the step computes the schedule's next run anew. */
  predicate Recomputes(s: State, a: Action, id: ScheduleId) {
    match a
    case FinishRun(task, _) => task in s.tasks && s.tasks[task].schedule == id
    case Create(other, _, _, _) => other == id
    case Patch(other, c, enabled, _) => other == id && (c.Some? || enabled == Some(true))
    case _ => false
  }

  function MomentOf(a: Action): int {
    match a
    case Tick(now) => now
    case FinishRun(_, finished) => finished
    case Create(_, _, _, now) => now
    case Patch(_, _, _, now) => now
    case _ => 0
  }

  /** The moment from which the schedule's next run was last computed in the first n steps. */
  function LastComputed(states: seq<State>, actions: seq<Action>, id: ScheduleId, n: nat): int
    requires |states| == |actions| + 1 && n <= |actions|
  {
    if n == 0 then 0
    else if Recomputes(states[n - 1], actions[n - 1], id) then MomentOf(actions[n - 1])
    else LastComputed(states, actions, id, n - 1)
  }

  /** When the schedule's last recorded run since its creation finished. */
  function LastFinish(states: seq<State>, actions: seq<Action>, id: ScheduleId, n: nat): Option<int>
    requires |states| == |actions| + 1 && n <= |actions|
  {
    if n == 0 then None
    else
      var s, before := states[n - 1], LastFinish(states, actions, id, n - 1);
      match actions[n - 1]
      case Create(other, _, _, _) => if other == id then None else before
      case FinishRun(task, finished) =>
        if task in s.tasks && s.tasks[task].schedule == id then Some(finished) else before
      case _ => before
  }

  /** The cadence and the switch that the schedule was last given. */
  function LastGiven(actions: seq<Action>, id: ScheduleId, n: nat): Option<(Cadence, bool)>
    requires n <= |actions|
  {
    if n == 0 then None
    else
      var before := LastGiven(actions, id, n - 1);
      match actions[n - 1]
      case Create(other, c, enabled, _) => if other == id then Some((c, enabled)) else before
      case Patch(other, c, enabled, _) =>
        if other == id && before.Some? then
          Some((if c.Some? then c.value else before.value.0, if enabled.Some? then enabled.value else before.value.1))
        else before
      case Delete(other) => if other == id then None else before
      case _ => before
  }

  /** What a row holds, given what it was told last and when. */
  ghost predicate RowTells(row: Row, given: (Cadence, bool), computed: int, finish: Option<int>) {
    && row.cadence == given.0 && row.enabled == given.1
    && row.nextRun.Some? && IsNextRun(row.cadence, computed, row.nextRun.value)
    && (row.lastRun.Some? <==> finish.Some?)
    && (row.lastRun.Some? ==> InSecond(row.lastRun.value, finish.value))
  }

  lemma RowStep(s: State, a: Action, s': State, id: ScheduleId, given: (Cadence, bool), computed: int, finish: Option<int>)
    requires Inv(s) && Next(s, a, s') && id in s.rows && id in s'.rows
    requires RowTells(s.rows[id], given, computed, finish)
    ensures RowTells(s'.rows[id],
                     match a case Patch(other, c, enabled, _) => if other != id then given else
                       (if c.Some? then c.value else given.0, if enabled.Some? then enabled.value else given.1)
                     case _ => given,
                     if Recomputes(s, a, id) then MomentOf(a) else computed,
                     match a case FinishRun(task, finished) => if s.tasks[task].schedule == id then Some(finished) else finish
                     case _ => finish)
  {
    match a {
      case Tick(now) =>
        var ids :| Fires(s, now, ids) && s' == LaunchAll(s, ids);
        LaunchAllKeeps(s, ids);
      case FinishRun(_, finished) =>
        StoredNextRun(s.rows[id].cadence, finished);
        StoredInSecond(finished);
      case Patch(_, c, _, now) => StoredNextRun(if c.Some? then c.value else s.rows[id].cadence, now);
      case _ =>
    }
  }

  lemma RowAppears(s: State, a: Action, s': State, id: ScheduleId)
    requires Inv(s) && Next(s, a, s') && id !in s.rows && id in s'.rows
    ensures a.Create? && a.id == id && RowTells(s'.rows[id], (a.cadence, a.enabled), a.now, None)
  {
    if a.Tick? {
      var ids :| Fires(s, a.now, ids) && s' == LaunchAll(s, ids);
      LaunchAllKeeps(s, ids);
    } else {
      StoredNextRun(a.cadence, a.now);
    }
  }

  /**
   In every reachable state a schedule's row shows the cadence and the switch it was last given, when its last
   recorded run finished, and the next run of that cadence after the moment at which it was last created,
   given a cadence, switched on or run, whatever happened in between.
   */
  lemma {:induction false} RowsTell(states: seq<State>, actions: seq<Action>, n: nat, id: ScheduleId)
    requires Behaviour(states, actions) && states[0] == INITIAL && n < |states|
    ensures id in states[n].rows <==> LastGiven(actions, id, n).Some?
    ensures id in states[n].rows ==>
              RowTells(states[n].rows[id], LastGiven(actions, id, n).value,
                       LastComputed(states, actions, id, n), LastFinish(states, actions, id, n))
    decreases n
  {
    if n > 0 {
      RowsTell(states, actions, n - 1, id);
      RunsKeep(states, actions, n - 1);
      var s, a, s' := states[n - 1], actions[n - 1], states[n];
      assert Next(s, a, s');
      if a.Tick? {
        var ids :| Fires(s, a.now, ids) && s' == LaunchAll(s, ids);
        LaunchAllKeeps(s, ids);
      }
      if id in s.rows && id in s'.rows {
        RowStep(s, a, s', id, LastGiven(actions, id, n - 1).value,
                LastComputed(states, actions, id, n - 1), LastFinish(states, actions, id, n - 1));
      } else if id in s'.rows {
        RowAppears(s, a, s', id);
      }
    }
  }

  /**
   After a run records itself at step i (and nothing rewrites the row since), no tick fires the
   schedule before the recomputed time, which is itself strictly after the finish.
   */
  lemma NotRefiredEarly(states: seq<State>, actions: seq<Action>, i: nat, j: nat, id: ScheduleId)
    requires Behaviour(states, actions) && Inv(states[0]) && i < j < |actions|
    requires actions[i].FinishRun? && Writes(states[i], actions[i], id) && id in states[i].rows
    requires forall k | i < k < j :: !Writes(states[k], actions[k], id)
    requires actions[j].Tick? && id in states[j + 1].running && id !in states[j].running
    ensures var next := Stored(ComputeNextRun(states[i].rows[id].cadence, actions[i].finished));
            actions[j].now >= next > actions[i].finished
  {
    RunsKeep(states, actions, i);
    assert Next(states[i], actions[i], states[i + 1]);
    RowUntouched(states, actions, i + 1, j, id);
    TickFires(states, actions, j, id);
    StoredNextIsLater(states[i].rows[id].cadence, actions[i].finished);
  }

  // ---- the mutable scheduler ----

  class Scheduler {
    var rows: map<ScheduleId, Row>
    var running: map<ScheduleId, TaskId>
    var tasks: map<TaskId, Task>
    var nextTask: TaskId

    constructor ()
      ensures View() == INITIAL
    {
      rows, running, tasks, nextTask := map[], map[], map[], 0;
    }

    function View(): State
      reads this
    {
      State(rows, running, tasks, nextTask)
    }

    method LaunchRun(id: ScheduleId)
      modifies this
      ensures View() == Launch(old(View()), id)
    {
      var task := nextTask;
      nextTask := nextTask + 1;
      tasks := tasks[task := Task(id, false)];
      running := running[id := task];
    }

    /** tick: walks the table and fires every due schedule that has nothing in flight. */
    method TickAt(now: int) returns (launched: seq<ScheduleId>)
      requires Inv(View())
      modifies this
      ensures Inv(View())
      ensures Fires(old(View()), now, launched) && View() == LaunchAll(old(View()), launched)
    {
      launched := [];
      var todo := rows.Keys;
      ghost var before := View();
      while todo != {}
        invariant todo <= rows.Keys && rows == before.rows
        invariant Distinct(launched)
        invariant forall id :: id in launched <==> id in DueIds(before, now) && id !in todo
        invariant View() == LaunchAll(before, launched)
        invariant Inv(View()) && forall id :: id in running <==> id in before.running || id in launched
        decreases todo
      {
        var id :| id in todo;
        var row := rows[id];
        todo := todo - {id};
        if row.enabled && row.nextRun.Some? && id !in running && !(row.nextRun.value > now) {
          LaunchSnoc(before, launched, id);
          LaunchRun(id);
          launched := launched + [id];
          LaunchAllKeeps(before, launched);
        }
      }
    }

    method RunImmediately(id: ScheduleId) returns (ok: bool)
      modifies this
      ensures ok <==> id in old(rows) && id !in old(running)
      ensures View() == if ok then Launch(old(View()), id) else old(View())
    {
      ok := id in rows && id !in running;
      if ok {
        LaunchRun(id);
      }
    }

    method RecordFinished(task: TaskId, finished: int)
      requires Live(View(), task)
      modifies this
      ensures View() == Finish(old(View()), task, finished)
    {
      var id := tasks[task].schedule;
      if id in rows {
        var current := rows[id];
        var next := ComputeNextRun(current.cadence, finished);
        rows := rows[id := Row(current.cadence, current.enabled, Some(Stored(next)), Some(Stored(finished)))];
      }
      tasks := tasks[task := Task(id, true)];
    }

    method OnDone(task: TaskId)
      requires task in tasks && tasks[task].done
      modifies this
      ensures View() == Callback(old(View()), task)
    {
      running := running - {tasks[task].schedule};
      tasks := tasks - {task};
    }
  }

  lemma {:induction false} LaunchSnoc(s: State, ids: seq<ScheduleId>, id: ScheduleId)
    ensures LaunchAll(s, ids + [id]) == Launch(LaunchAll(s, ids), id)
    decreases |ids|
  {
    if ids == [] {
      assert ids + [id] == [id];
    } else {
      LaunchSnoc(Launch(s, ids[0]), ids[1..], id);
      assert (ids + [id])[1..] == ids[1..] + [id];
    }
  }
}
