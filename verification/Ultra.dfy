/** Ultra's dispatch of sub-tasks (modes/ultra.py:564-643): worker pool, event queue and done markers. */
module Ultra {
  import opened Prelude

  type Worker = nat

  datatype Event =
    | AssignNotice(sub: nat)
    | Spawn(sub: nat, worker: Worker)
    | TimeoutNotice(sub: nat)
    | ResultNotice(sub: nat)
    | Result(sub: nat, ok: bool)

  /** Queue entries: an event, or the marker that one sub-task has finished. */
  datatype Item = Ev(event: Event) | Marker

  datatype Sub = NotStarted | Waiting | Running(worker: Worker) | Finished

  /** `log` is what the drain loop has yielded, `finished` how many markers it has seen. */
  datatype State = State(pool: seq<Worker>, subs: seq<Sub>, queue: seq<Item>, log: seq<Event>, finished: nat)

  /** What a sub-task's run comes to: a result, and notices that a timeout or an unrecordable message adds. */
  datatype Outcome = Outcome(ok: bool, timedOut: bool, degraded: bool)

  /** Between two awaits a sub-task's coroutine runs without interruption: each step is one such segment. */
  datatype Step = Start(sub: nat, degraded: bool) | Take(sub: nat) | Finish(sub: nat, outcome: Outcome) | Drain

  function Boot(workers: nat, subs: nat): State {
    State(seq(workers, w => w), seq(subs, i => NotStarted), [], [], 0)
  }

  predicate Enabled(s: State, st: Step) {
    match st
    case Start(i, _) => i < |s.subs| && s.subs[i].NotStarted?
    case Take(i) => i < |s.subs| && s.subs[i].Waiting? && s.pool != []
    case Finish(i, _) => i < |s.subs| && s.subs[i].Running?
    case Drain => s.finished < |s.subs| && s.queue != []
  }

  function AssignItems(i: nat, degraded: bool): seq<Item> {
    if degraded then [Ev(AssignNotice(i))] else []
  }

  function ResultEvents(i: nat, o: Outcome): seq<Event> {
    (if o.timedOut then [TimeoutNotice(i)] else []) + (if o.degraded then [ResultNotice(i)] else []) + [Result(i, o.ok)]
  }

  function Items(events: seq<Event>): (items: seq<Item>)
    ensures |items| == |events| && forall k | 0 <= k < |items| :: items[k] == Ev(events[k])
  {
    seq(|events|, k requires 0 <= k < |events| => Ev(events[k]))
  }

  function Next(s: State, st: Step): State
    requires Enabled(s, st)
  {
    match st
    case Start(i, degraded) => s.(subs := s.subs[i := Waiting], queue := s.queue + AssignItems(i, degraded))
    case Take(i) =>
      s.(pool := s.pool[1..], subs := s.subs[i := Running(s.pool[0])], queue := s.queue + [Ev(Spawn(i, s.pool[0]))])
    case Finish(i, o) =>
      s.(pool := s.pool + [s.subs[i].worker], subs := s.subs[i := Finished],
         queue := s.queue + Items(ResultEvents(i, o)) + [Marker])
    case Drain =>
      match s.queue[0]
      case Marker => s.(queue := s.queue[1..], finished := s.finished + 1)
      case Ev(e) => s.(queue := s.queue[1..], log := s.log + [e])
  }

  // ---- workers are conserved ----

  function Busy(subs: seq<Sub>): nat {
    if subs == [] then 0 else Busy(subs[1..]) + if subs[0].Running? then 1 else 0
  }

  function Ended(subs: seq<Sub>): nat {
    if subs == [] then 0 else Ended(subs[1..]) + if subs[0].Finished? then 1 else 0
  }

  lemma {:induction false} CountsAfter(subs: seq<Sub>, i: nat, x: Sub)
    requires i < |subs|
    ensures Busy(subs[i := x]) == Busy(subs) + (if x.Running? then 1 else 0) - (if subs[i].Running? then 1 else 0)
    ensures Ended(subs[i := x]) == Ended(subs) + (if x.Finished? then 1 else 0) - (if subs[i].Finished? then 1 else 0)
  {
    if i == 0 {
      assert subs[0 := x][1..] == subs[1..];
    } else {
      assert subs[i := x][1..] == subs[1..][i - 1 := x];
      CountsAfter(subs[1..], i - 1, x);
    }
  }

  lemma {:induction false} CountsBounded(subs: seq<Sub>)
    ensures Ended(subs) <= |subs|
    ensures Ended(subs) == |subs| <==> forall i | 0 <= i < |subs| :: subs[i].Finished?
    ensures Busy(subs) == 0 <==> forall i | 0 <= i < |subs| :: !subs[i].Running?
  {
    if subs != [] {
      CountsBounded(subs[1..]);
      assert forall i | 1 <= i < |subs| :: subs[i] == subs[1..][i - 1];
    }
  }

  /** No worker is in two places: idle twice, busy twice, or both. */
  predicate Exclusive(s: State) {
    && (forall a, b | 0 <= a < b < |s.pool| :: s.pool[a] != s.pool[b])
    && (forall i, a | 0 <= i < |s.subs| && s.subs[i].Running? && 0 <= a < |s.pool| :: s.subs[i].worker != s.pool[a])
    && (forall i, j | 0 <= i < j < |s.subs| && s.subs[i].Running? && s.subs[j].Running? ::
          s.subs[i].worker != s.subs[j].worker)
  }

  predicate WorkerInv(workers: nat, s: State) {
    Exclusive(s) && |s.pool| + Busy(s.subs) == workers
  }

  lemma WorkersKept(workers: nat, s: State, st: Step)
    requires WorkerInv(workers, s) && Enabled(s, st)
    ensures WorkerInv(workers, Next(s, st))
  {
    if !st.Drain? {
      CountsAfter(s.subs, st.sub, Next(s, st).subs[st.sub]);
    }
  }

  // ---- what each sub-task emits ----

  datatype Reading = Silent | Assigned | Spawned | TimedOut | Noted | Reported | Broken

  /** One spawn, then one result; the optional notices in between, each at most once. */
  function Read(r: Reading, e: Event): Reading {
    match e
    case AssignNotice(_) => if r.Silent? then Assigned else Broken
    case Spawn(_, _) => if r.Silent? || r.Assigned? then Spawned else Broken
    case TimeoutNotice(_) => if r.Spawned? then TimedOut else Broken
    case ResultNotice(_) => if r.Spawned? || r.TimedOut? then Noted else Broken
    case Result(_, _) => if r.Spawned? || r.TimedOut? || r.Noted? then Reported else Broken
  }

  /** Where sub-task i stands after these events; those of others do not matter. */
  function Track(i: nat, events: seq<Event>): Reading {
    if events == [] then Silent
    else
      var k := |events| - 1;
      var before := Track(i, events[..k]);
      if events[k].sub == i then Read(before, events[k]) else before
  }

  function Events(items: seq<Item>): seq<Event> {
    if items == [] then []
    else
      var k := |items| - 1;
      Events(items[..k]) + match items[k] case Ev(e) => [e] case Marker => []
  }

  /** Everything emitted so far, in order: yielded already or still in the queue. */
  function Emitted(s: State): seq<Event> {
    s.log + Events(s.queue)
  }

  lemma TrackOne(i: nat, events: seq<Event>, e: Event)
    ensures Track(i, events + [e]) == if e.sub == i then Read(Track(i, events), e) else Track(i, events)
  {
    assert (events + [e])[..|events|] == events;
  }

  lemma {:induction false} EventsAppend(a: seq<Item>, b: seq<Item>)
    ensures Events(a + b) == Events(a) + Events(b)
    decreases |b|
  {
    if b == [] {
      assert a + b == a;
    } else {
      var k := |b| - 1;
      assert (a + b)[..|a| + k] == a + b[..k];
      EventsAppend(a, b[..k]);
    }
  }

  lemma EventsOne(item: Item)
    ensures Events([item]) == match item case Ev(e) => [e] case Marker => []
  {
    assert [item][..0] == [];
    assert Events([]) == [];
  }

  lemma {:induction false} EventsOfItems(events: seq<Event>)
    ensures Events(Items(events)) == events
    decreases |events|
  {
    if events != [] {
      var k := |events| - 1;
      assert Items(events)[..k] == Items(events[..k]);
      EventsOfItems(events[..k]);
      assert events == events[..k] + [events[k]];
    }
  }

  /** Draining moves the oldest event to the log and loses none. */
  lemma DrainLosesNothing(s: State)
    requires Enabled(s, Drain)
    ensures Emitted(Next(s, Drain)) == Emitted(s)
  {
    assert s.queue == [s.queue[0]] + s.queue[1..];
    EventsAppend([s.queue[0]], s.queue[1..]);
    EventsOne(s.queue[0]);
  }

  predicate Stands(sub: Sub, r: Reading) {
    match sub
    case NotStarted => r.Silent?
    case Waiting => r.Silent? || r.Assigned?
    case Running(_) => r.Spawned?
    case Finished => r.Reported?
  }

  predicate ShapeInv(s: State) {
    forall i | 0 <= i < |s.subs| :: Stands(s.subs[i], Track(i, Emitted(s)))
  }

  lemma EmitsOne(s: State, e: Event)
    ensures Events(s.queue + [Ev(e)]) == Events(s.queue) + [e]
    ensures s.log + (Events(s.queue) + [e]) == Emitted(s) + [e]
  {
    EventsAppend(s.queue, [Ev(e)]);
    EventsOne(Ev(e));
  }

  lemma ResultReads(i: nat, j: nat, events: seq<Event>, o: Outcome)
    ensures j != i ==> Track(j, events + ResultEvents(i, o)) == Track(j, events)
    ensures j == i && Track(i, events).Spawned? ==> Track(i, events + ResultEvents(i, o)).Reported?
  {
    var e1 := events + if o.timedOut then [TimeoutNotice(i)] else [];
    var e2 := e1 + if o.degraded then [ResultNotice(i)] else [];
    TrackOne(j, events, TimeoutNotice(i));
    assert events + [] == events && e1 + [] == e1;
    TrackOne(j, e1, ResultNotice(i));
    TrackOne(j, e2, Result(i, o.ok));
    assert events + ResultEvents(i, o) == e2 + [Result(i, o.ok)];
  }

  lemma MarkerIsNoEvent(items: seq<Item>)
    ensures Events(items + [Marker]) == Events(items)
  {
    assert (items + [Marker])[..|items|] == items;
    assert Events(items) + [] == Events(items);
  }

  lemma QueuedResults(queue: seq<Item>, events: seq<Event>)
    ensures Events(queue + Items(events) + [Marker]) == Events(queue) + events
  {
    MarkerIsNoEvent(queue + Items(events));
    EventsAppend(queue, Items(events));
    EventsOfItems(events);
  }

  lemma FinishEmits(s: State, i: nat, o: Outcome)
    requires Enabled(s, Finish(i, o))
    ensures Emitted(Next(s, Finish(i, o))) == Emitted(s) + ResultEvents(i, o)
  {
    QueuedResults(s.queue, ResultEvents(i, o));
    Assoc(s.log, Events(s.queue), ResultEvents(i, o));
  }

  lemma ShapeKept(s: State, st: Step)
    requires ShapeInv(s) && Enabled(s, st)
    ensures ShapeInv(Next(s, st))
  {
    var s' := Next(s, st);
    match st {
      case Start(i, degraded) =>
        EmitsOne(s, AssignNotice(i));
        assert s.queue + [] == s.queue;
        forall j | 0 <= j < |s.subs| ensures Stands(s'.subs[j], Track(j, Emitted(s'))) {
          TrackOne(j, Emitted(s), AssignNotice(i));
        }
      case Take(i) =>
        EmitsOne(s, Spawn(i, s.pool[0]));
        forall j | 0 <= j < |s.subs| ensures Stands(s'.subs[j], Track(j, Emitted(s'))) {
          TrackOne(j, Emitted(s), Spawn(i, s.pool[0]));
        }
      case Finish(i, o) =>
        FinishEmits(s, i, o);
        forall j | 0 <= j < |s.subs| ensures Stands(s'.subs[j], Track(j, Emitted(s'))) {
          ResultReads(i, j, Emitted(s), o);
        }
      case Drain => DrainLosesNothing(s);
    }
  }

  /** Only sub-tasks of this dispatch emit anything. */
  predicate KnownInv(s: State) {
    forall k | 0 <= k < |Emitted(s)| :: Emitted(s)[k].sub < |s.subs|
  }

  lemma KnownKept(s: State, st: Step)
    requires KnownInv(s) && Enabled(s, st)
    ensures KnownInv(Next(s, st))
  {
    match st {
      case Start(i, degraded) =>
        EmitsOne(s, AssignNotice(i));
        assert s.queue + [] == s.queue;
      case Take(i) => EmitsOne(s, Spawn(i, s.pool[0]));
      case Finish(i, o) => FinishEmits(s, i, o);
      case Drain => DrainLosesNothing(s);
    }
  }

  // ---- markers ----

  function Markers(items: seq<Item>): nat {
    if items == [] then 0 else Markers(items[..|items| - 1]) + if items[|items| - 1].Marker? then 1 else 0
  }

  lemma {:induction false} MarkersAppend(a: seq<Item>, b: seq<Item>)
    ensures Markers(a + b) == Markers(a) + Markers(b)
    decreases |b|
  {
    if b == [] {
      assert a + b == a;
    } else {
      var k := |b| - 1;
      assert (a + b)[..|a| + k] == a + b[..k];
      MarkersAppend(a, b[..k]);
    }
  }

  lemma {:induction false} NoMarkers(items: seq<Item>)
    requires forall k | 0 <= k < |items| :: items[k].Ev?
    ensures Markers(items) == 0
    decreases |items|
  {
    if items != [] {
      NoMarkers(items[..|items| - 1]);
    }
  }

  lemma MarkerCounts(items: seq<Item>)
    ensures Markers(items + [Marker]) == Markers(items) + 1
  {
    assert (items + [Marker])[..|items|] == items;
  }

  /** The drain loop has seen, or will see, one marker per finished sub-task. */
  predicate MarkerCountInv(s: State) {
    s.finished + Markers(s.queue) == Ended(s.subs)
  }

  /** A queued event of a finished sub-task still has a marker behind it. */
  predicate MarkerOrderInv(s: State) {
    && (forall k | 0 <= k < |s.queue| && s.queue[k].Ev? :: s.queue[k].event.sub < |s.subs|)
    && (forall k | 0 <= k < |s.queue| && s.queue[k].Ev? && s.subs[s.queue[k].event.sub].Finished? ::
          MarkerAfter(s.queue, k))
  }

  predicate MarkerAfter(items: seq<Item>, k: nat) {
    exists m :: k < m < |items| && items[m].Marker?
  }

  lemma MarkerCountKept(s: State, st: Step)
    requires MarkerCountInv(s) && Enabled(s, st)
    ensures MarkerCountInv(Next(s, st))
  {
    match st {
      case Start(i, degraded) =>
        CountsAfter(s.subs, i, Waiting);
        MarkersAppend(s.queue, AssignItems(i, degraded));
        NoMarkers(AssignItems(i, degraded));
      case Take(i) =>
        CountsAfter(s.subs, i, Running(s.pool[0]));
        MarkersAppend(s.queue, [Ev(Spawn(i, s.pool[0]))]);
        NoMarkers([Ev(Spawn(i, s.pool[0]))]);
      case Finish(i, o) =>
        CountsAfter(s.subs, i, Finished);
        MarkersAppend(s.queue, Items(ResultEvents(i, o)));
        NoMarkers(Items(ResultEvents(i, o)));
        MarkerCounts(s.queue + Items(ResultEvents(i, o)));
      case Drain =>
        assert s.queue == [s.queue[0]] + s.queue[1..];
        MarkersAppend([s.queue[0]], s.queue[1..]);
        assert [s.queue[0]][..0] == [];
    }
  }

  lemma MarkerStays(s: State, st: Step, k: nat, k': nat)
    requires Enabled(s, st) && k < |s.queue| && MarkerAfter(s.queue, k)
    requires k == if st.Drain? then k' + 1 else k'
    ensures MarkerAfter(Next(s, st).queue, k')
  {
    var m :| k < m < |s.queue| && s.queue[m].Marker?;
    assert Next(s, st).queue[if st.Drain? then m - 1 else m].Marker?;
  }

  lemma ItemsAfter(s: State, st: Step, k: nat)
    requires Enabled(s, st) && k < |Next(s, st).queue|
    ensures var q, was := Next(s, st).queue, if st.Drain? then k + 1 else k;
            if was < |s.queue| then q[k] == s.queue[was]
            else q[k].Marker? || q[k].event.sub == st.sub
  {
  }

  lemma MarkerOrderKept(s: State, st: Step)
    requires MarkerOrderInv(s) && Enabled(s, st)
    ensures MarkerOrderInv(Next(s, st))
  {
    var s' := Next(s, st);
    forall k | 0 <= k < |s'.queue| && s'.queue[k].Ev?
      ensures s'.queue[k].event.sub < |s'.subs|
      ensures s'.subs[s'.queue[k].event.sub].Finished? ==> MarkerAfter(s'.queue, k)
    {
      ItemsAfter(s, st, k);
      var was := if st.Drain? then k + 1 else k;
      if st.Finish? {
        assert s'.queue[|s'.queue| - 1].Marker?;
      } else if was < |s.queue| && s.subs[s.queue[was].event.sub].Finished? {
        MarkerStays(s, st, was, k);
      }
    }
  }

  // ---- progress ----

  /** An upper bound on the steps left. */
  function Left(subs: seq<Sub>): nat {
    if subs == [] then 0
    else Left(subs[1..]) + match subs[0] case NotStarted => 9 case Waiting => 7 case Running(_) => 5 case Finished => 0
  }

  lemma {:induction false} LeftAfter(subs: seq<Sub>, i: nat, x: Sub)
    requires i < |subs|
    ensures Left(subs[i := x]) == Left(subs) + Left([x]) - Left([subs[i]])
  {
    if i == 0 {
      assert subs[0 := x][1..] == subs[1..];
    } else {
      assert subs[i := x][1..] == subs[1..][i - 1 := x];
      LeftAfter(subs[1..], i - 1, x);
    }
  }

  function Measure(s: State): nat {
    Left(s.subs) + |s.queue|
  }

  lemma StepsRunOut(s: State, st: Step)
    requires Enabled(s, st)
    ensures Measure(Next(s, st)) < Measure(s)
  {
    if !st.Drain? {
      LeftAfter(s.subs, st.sub, Next(s, st).subs[st.sub]);
    }
  }

  // ---- whole runs ----

  predicate Inv(workers: nat, s: State) {
    WorkerInv(workers, s) && ShapeInv(s) && KnownInv(s) && MarkerCountInv(s) && MarkerOrderInv(s)
  }

  predicate Run(workers: nat, subs: nat, states: seq<State>, steps: seq<Step>) {
    && |states| == |steps| + 1
    && states[0] == Boot(workers, subs)
    && (forall i | 0 <= i < |steps| :: Enabled(states[i], steps[i]) && states[i + 1] == Next(states[i], steps[i]))
  }

  lemma {:induction false} BootCounts(n: nat)
    ensures var subs := seq(n, i => NotStarted); Busy(subs) == 0 && Ended(subs) == 0 && Left(subs) == 9 * n
    decreases n
  {
    if n > 0 {
      assert seq(n, i => NotStarted)[1..] == seq(n - 1, i => NotStarted);
      BootCounts(n - 1);
    }
  }

  lemma {:induction false} RunKeepsInv(workers: nat, subs: nat, states: seq<State>, steps: seq<Step>, i: nat)
    requires Run(workers, subs, states, steps) && i < |states|
    ensures Inv(workers, states[i]) && |states[i].subs| == subs
    ensures i + Measure(states[i]) <= 9 * subs
    decreases i
  {
    if i == 0 {
      BootCounts(subs);
    } else {
      RunKeepsInv(workers, subs, states, steps, i - 1);
      var s, st := states[i - 1], steps[i - 1];
      assert Enabled(s, st) && states[i] == Next(s, st);
      WorkersKept(workers, s, st);
      ShapeKept(s, st);
      KnownKept(s, st);
      MarkerCountKept(s, st);
      MarkerOrderKept(s, st);
      StepsRunOut(s, st);
    }
  }

  /** Whatever the schedule: a worker serves one sub-task at a time, and idle and busy workers add up. */
  lemma WorkersConserved(workers: nat, subs: nat, states: seq<State>, steps: seq<Step>, i: nat)
    requires Run(workers, subs, states, steps) && i < |states|
    ensures Exclusive(states[i]) && |states[i].pool| + Busy(states[i].subs) == workers
  {
    RunKeepsInv(workers, subs, states, steps, i);
  }

  /**
   The drain loop leaves exactly when every sub-task is done and its events are drained; then each sub-task
   has had exactly one spawn and after it one result among the yielded events, and there are no events but theirs.
   */
  lemma DrainExitsComplete(workers: nat, subs: nat, states: seq<State>, steps: seq<Step>, i: nat)
    requires Run(workers, subs, states, steps) && i < |states|
    ensures var s := states[i];
            && |s.subs| == subs
            && (s.finished == subs <==> (forall j | 0 <= j < subs :: s.subs[j].Finished?) && s.queue == [])
            && (s.finished == subs ==> s.log == Emitted(s) && forall j | 0 <= j < subs :: Track(j, s.log).Reported?)
            && (forall k | 0 <= k < |s.log| :: s.log[k].sub < subs)
  {
    RunKeepsInv(workers, subs, states, steps, i);
    var s := states[i];
    CountsBounded(s.subs);
    assert forall k | 0 <= k < |s.log| :: s.log[k] == Emitted(s)[k];
    if s.finished == subs {
      NothingQueued(s);
    }
  }

  lemma NothingQueued(s: State)
    requires MarkerOrderInv(s) && Markers(s.queue) == 0
    requires forall j | 0 <= j < |s.subs| :: s.subs[j].Finished?
    ensures s.queue == []
  {
    if s.queue != [] {
      assert s.queue[0].Marker? || MarkerAfter(s.queue, 0);
      var m :| 0 <= m < |s.queue| && s.queue[m].Marker?;
      SomeMarker(s.queue, m);
    }
  }

  lemma {:induction false} SomeMarker(items: seq<Item>, k: nat)
    requires k < |items| && items[k].Marker?
    ensures Markers(items) > 0
    decreases |items|
  {
    if k < |items| - 1 {
      SomeMarker(items[..|items| - 1], k);
    }
  }

  /** With at least one worker no schedule gets stuck before the drain loop is through. */
  lemma NeverStuck(workers: nat, subs: nat, states: seq<State>, steps: seq<Step>, i: nat) returns (st: Step)
    requires Run(workers, subs, states, steps) && i < |states|
    requires workers > 0 && states[i].finished < subs
    ensures Enabled(states[i], st)
  {
    RunKeepsInv(workers, subs, states, steps, i);
    var s := states[i];
    CountsBounded(s.subs);
    if s.queue != [] {
      return Drain;
    }
    assert Ended(s.subs) < |s.subs|;
    if j :| 0 <= j < |s.subs| && s.subs[j].Running? {
      return Finish(j, Outcome(true, false, false));
    }
    var j :| 0 <= j < |s.subs| && !s.subs[j].Finished?;
    st := if s.subs[j].NotStarted? then Start(j, false) else Take(j);
  }

  /** Every schedule has at most nine steps per sub-task. */
  lemma SchedulesEnd(workers: nat, subs: nat, states: seq<State>, steps: seq<Step>)
    requires Run(workers, subs, states, steps)
    ensures |steps| <= 9 * subs
  {
    RunKeepsInv(workers, subs, states, steps, |steps|);
  }

  // ---- what is emitted, and by whom ----

  /** What a sub-task's end puts into the queue: the notices that apply, then how it went. */
  function ResultsOf(i: nat, o: Outcome): seq<Event> {
    if o.timedOut && o.degraded then [TimeoutNotice(i), ResultNotice(i), Result(i, o.ok)]
    else if o.timedOut then [TimeoutNotice(i), Result(i, o.ok)]
    else if o.degraded then [ResultNotice(i), Result(i, o.ok)]
    else [Result(i, o.ok)]
  }

  /** The events of one step from s to s'; a spawn names the worker that the sub-task then has. */
  function EmittedBy(st: Step, s': State): seq<Event> {
    match st
    case Start(i, degraded) => if degraded then [AssignNotice(i)] else []
    case Take(i) => if i < |s'.subs| && s'.subs[i].Running? then [Spawn(i, s'.subs[i].worker)] else []
    case Finish(i, o) => ResultsOf(i, o)
    case Drain => []
  }

  lemma StepEmits(s: State, st: Step)
    requires Enabled(s, st)
    ensures Emitted(Next(s, st)) == Emitted(s) + EmittedBy(st, Next(s, st))
  {
    match st {
      case Start(i, degraded) =>
        EmitsOne(s, AssignNotice(i));
        assert s.queue + [] == s.queue;
      case Take(i) => EmitsOne(s, Spawn(i, s.pool[0]));
      case Finish(i, o) =>
        FinishEmits(s, i, o);
        assert ResultEvents(i, o) == ResultsOf(i, o);
      case Drain => DrainLosesNothing(s);
    }
  }

  /** All events of the first n steps, in the order in which they came about. */
  function EventsOfRun(states: seq<State>, steps: seq<Step>, n: nat): seq<Event>
    requires |states| == |steps| + 1 && n <= |steps|
  {
    if n == 0 then [] else EventsOfRun(states, steps, n - 1) + EmittedBy(steps[n - 1], states[n])
  }

  /** Under every schedule the drain loop yields the events in the order in which they came about, and invents none. */
  lemma {:induction false} YieldsInOrder(workers: nat, subs: nat, states: seq<State>, steps: seq<Step>, n: nat)
    requires Run(workers, subs, states, steps) && n < |states|
    ensures Emitted(states[n]) == EventsOfRun(states, steps, n) && states[n].log <= EventsOfRun(states, steps, n)
    decreases n
  {
    if n > 0 {
      YieldsInOrder(workers, subs, states, steps, n - 1);
      assert Enabled(states[n - 1], steps[n - 1]) && states[n] == Next(states[n - 1], steps[n - 1]);
      StepEmits(states[n - 1], steps[n - 1]);
    }
  }

  /** The workers handed out in the first n steps, in order. */
  function HandedOut(states: seq<State>, steps: seq<Step>, n: nat): seq<Worker>
    requires |states| == |steps| + 1 && n <= |steps|
  {
    if n == 0 then []
    else
      HandedOut(states, steps, n - 1)
      + match steps[n - 1]
        case Take(i) => if i < |states[n].subs| && states[n].subs[i].Running? then [states[n].subs[i].worker] else []
        case _ => []
  }

  /** The workers that came back in the first n steps, in order. */
  function CameBack(states: seq<State>, steps: seq<Step>, n: nat): seq<Worker>
    requires |states| == |steps| + 1 && n <= |steps|
  {
    if n == 0 then []
    else
      CameBack(states, steps, n - 1)
      + match steps[n - 1]
        case Finish(i, _) =>
          if i < |states[n - 1].subs| && states[n - 1].subs[i].Running? then [states[n - 1].subs[i].worker] else []
        case _ => []
  }

  /** Under every schedule the pool is a queue: workers are handed out in the order 0, 1, ... and then as they came back. */
  lemma {:induction false} PoolIsQueue(workers: nat, subs: nat, states: seq<State>, steps: seq<Step>, n: nat)
    requires Run(workers, subs, states, steps) && n < |states|
    ensures HandedOut(states, steps, n) + states[n].pool == seq(workers, w => w) + CameBack(states, steps, n)
    decreases n
  {
    if n > 0 {
      PoolIsQueue(workers, subs, states, steps, n - 1);
      var s := states[n - 1];
      assert Enabled(s, steps[n - 1]) && states[n] == Next(s, steps[n - 1]);
      match steps[n - 1] {
        case Take(i) =>
          var out := HandedOut(states, steps, n - 1);
          assert s.pool == [s.pool[0]] + s.pool[1..];
          Assoc(out, [s.pool[0]], s.pool[1..]);
          assert CameBack(states, steps, n) == CameBack(states, steps, n - 1);
        case Finish(i, _) =>
          var out := HandedOut(states, steps, n - 1);
          assert HandedOut(states, steps, n) == out;
          Assoc(out, s.pool, [s.subs[i].worker]);
          Assoc(seq(workers, w => w), CameBack(states, steps, n - 1), [s.subs[i].worker]);
        case Start(_, _) => PoolAtRest(states, steps, n);
        case Drain => PoolAtRest(states, steps, n);
      }
    }
  }

  lemma PoolAtRest(states: seq<State>, steps: seq<Step>, n: nat)
    requires |states| == |steps| + 1 && 0 < n <= |steps| && (steps[n - 1].Start? || steps[n - 1].Drain?)
    ensures HandedOut(states, steps, n) == HandedOut(states, steps, n - 1)
    ensures CameBack(states, steps, n) == CameBack(states, steps, n - 1)
  {
  }

  // ---- the dispatcher objects ----

  class Dispatch {
    var pool: seq<Worker>
    var subs: seq<Sub>
    var queue: seq<Item>
    var log: seq<Event>
    var finished: nat

    constructor (workers: nat, count: nat)
      ensures View() == Boot(workers, count)
    {
      pool, subs, queue, log, finished := seq(workers, w => w), seq(count, i => NotStarted), [], [], 0;
    }

    function View(): State
      reads this
    {
      State(pool, subs, queue, log, finished)
    }

    method Put(items: seq<Item>)
      modifies this`queue
      ensures queue == old(queue) + items
    {
      queue := queue + items;
    }

    method StartSub(i: nat, degraded: bool)
      requires Enabled(View(), Start(i, degraded))
      modifies this
      ensures View() == Next(old(View()), Start(i, degraded))
    {
      subs := subs[i := Waiting];
      Put(if degraded then [Ev(AssignNotice(i))] else []);
    }

    method TakeWorker(i: nat)
      requires Enabled(View(), Take(i))
      modifies this
      ensures View() == Next(old(View()), Take(i))
    {
      var worker := pool[0];
      pool := pool[1..];
      subs := subs[i := Running(worker)];
      Put([Ev(Spawn(i, worker))]);
    }

    method FinishSub(i: nat, o: Outcome)
      requires Enabled(View(), Finish(i, o))
      modifies this
      ensures View() == Next(old(View()), Finish(i, o))
    {
      pool := pool + [subs[i].worker];
      subs := subs[i := Finished];
      Put(Items(ResultEvents(i, o)));
      Put([Marker]);
    }

    method DrainOne()
      requires Enabled(View(), Drain)
      modifies this
      ensures View() == Next(old(View()), Drain)
    {
      var item := queue[0];
      queue := queue[1..];
      if item.Marker? {
        finished := finished + 1;
      } else {
        log := log + [item.event];
      }
    }
  }

  /** No worker slots: one sub-task after the other on the orchestrator. */
  method DispatchSequential(count: nat, orchestrator: Worker, assignDegraded: nat -> bool, outcome: nat -> Outcome)
    returns (log: seq<Event>)
    ensures Sequential(count, log)
    ensures log == SequentialLog(count, orchestrator, assignDegraded, outcome)
  {
    log := [];
    var n := 0;
    while n < count
      invariant 0 <= n <= count
      invariant log == SequentialLog(n, orchestrator, assignDegraded, outcome)
    {
      log := log + if assignDegraded(n) then [AssignNotice(n)] else [];
      log := log + [Spawn(n, orchestrator)];
      log := log + ResultEvents(n, outcome(n));
      n := n + 1;
    }
    SequentialShape(count, orchestrator, assignDegraded, outcome);
  }

  /** The first n sub-tasks have had a spawn and then a result each; the others nothing. */
  ghost predicate Sequential(n: nat, log: seq<Event>) {
    forall i: nat :: (i < n ==> Track(i, log).Reported?) && (i >= n ==> Track(i, log).Silent?)
  }

  /** What one sub-task run in sequence adds to the events so far. */
  function WithSub(log: seq<Event>, k: nat, orchestrator: Worker, degraded: bool, o: Outcome): seq<Event> {
    log + (if degraded then [AssignNotice(k)] else []) + [Spawn(k, orchestrator)] + ResultEvents(k, o)
  }

  function SequentialLog(n: nat, orchestrator: Worker, assignDegraded: nat -> bool, outcome: nat -> Outcome): seq<Event> {
    if n == 0 then []
    else
      WithSub(SequentialLog(n - 1, orchestrator, assignDegraded, outcome),
              n - 1, orchestrator, assignDegraded(n - 1), outcome(n - 1))
  }

  lemma SubTracks(i: nat, log: seq<Event>, k: nat, orchestrator: Worker, degraded: bool, o: Outcome)
    ensures i != k ==> Track(i, WithSub(log, k, orchestrator, degraded, o)) == Track(i, log)
    ensures i == k && Track(k, log).Silent? ==> Track(k, WithSub(log, k, orchestrator, degraded, o)).Reported?
  {
    var l1 := log + if degraded then [AssignNotice(k)] else [];
    var l2 := l1 + [Spawn(k, orchestrator)];
    assert log + [] == log;
    TrackOne(i, log, AssignNotice(k));
    TrackOne(i, l1, Spawn(k, orchestrator));
    ResultReads(k, i, l2, o);
  }

  /** Sequential dispatch gives every sub-task the same shape of events, in sub-task order. */
  lemma {:induction false} SequentialShape(n: nat, orchestrator: Worker, assignDegraded: nat -> bool, outcome: nat -> Outcome)
    ensures Sequential(n, SequentialLog(n, orchestrator, assignDegraded, outcome))
    decreases n
  {
    if n > 0 {
      var k := n - 1;
      SequentialShape(k, orchestrator, assignDegraded, outcome);
      var before := SequentialLog(k, orchestrator, assignDegraded, outcome);
      var log := WithSub(before, k, orchestrator, assignDegraded(k), outcome(k));
      assert log == SequentialLog(n, orchestrator, assignDegraded, outcome);
      forall i: nat ensures (i < n ==> Track(i, log).Reported?) && (i >= n ==> Track(i, log).Silent?) {
        SubTracks(i, before, k, orchestrator, assignDegraded(k), outcome(k));
      }
    }
  }

  /** The events of one sub-task. */
  function Of(i: nat, events: seq<Event>): seq<Event> {
    if events == [] then []
    else
      var k := |events| - 1;
      Of(i, events[..k]) + if events[k].sub == i then [events[k]] else []
  }

  lemma {:induction false} OfAppend(i: nat, a: seq<Event>, b: seq<Event>)
    ensures Of(i, a + b) == Of(i, a) + Of(i, b)
    decreases |b|
  {
    if b == [] {
      assert a + b == a;
    } else {
      var k := |b| - 1;
      assert (a + b)[..|a| + k] == a + b[..k];
      OfAppend(i, a, b[..k]);
    }
  }

  lemma {:induction false} OfAll(i: nat, events: seq<Event>)
    ensures (forall k | 0 <= k < |events| :: events[k].sub == i) ==> Of(i, events) == events
    ensures (forall k | 0 <= k < |events| :: events[k].sub != i) ==> Of(i, events) == []
    decreases |events|
  {
    if events != [] {
      var k := |events| - 1;
      OfAll(i, events[..k]);
      assert events == events[..k] + [events[k]];
    }
  }

  /** What a sub-task that is run in sequence emits. */
  function InSequence(k: nat, orchestrator: Worker, degraded: bool, o: Outcome): seq<Event> {
    (if degraded then [AssignNotice(k), Spawn(k, orchestrator)] else [Spawn(k, orchestrator)]) + ResultsOf(k, o)
  }

  lemma WithSubIs(log: seq<Event>, k: nat, orchestrator: Worker, degraded: bool, o: Outcome)
    ensures WithSub(log, k, orchestrator, degraded, o) == log + InSequence(k, orchestrator, degraded, o)
  {
    assert ResultEvents(k, o) == ResultsOf(k, o);
  }

  lemma OfOneSub(i: nat, k: nat, orchestrator: Worker, degraded: bool, o: Outcome)
    ensures Of(i, InSequence(k, orchestrator, degraded, o)) == if i == k then InSequence(k, orchestrator, degraded, o) else []
  {
    OfAll(i, InSequence(k, orchestrator, degraded, o));
  }

  lemma OfGrows(i: nat, before: seq<Event>, k: nat, orchestrator: Worker, degraded: bool, o: Outcome)
    ensures i != k ==> Of(i, WithSub(before, k, orchestrator, degraded, o)) == Of(i, before)
    ensures i == k && Of(i, before) == [] ==>
              Of(i, WithSub(before, k, orchestrator, degraded, o)) == InSequence(k, orchestrator, degraded, o)
  {
    WithSubIs(before, k, orchestrator, degraded, o);
    OfAppend(i, before, InSequence(k, orchestrator, degraded, o));
    OfOneSub(i, k, orchestrator, degraded, o);
  }

  /** In sequence each sub-task emits exactly this, on the orchestrator. */
  lemma {:induction false} SequentialIs(n: nat, orchestrator: Worker, assignDegraded: nat -> bool, outcome: nat -> Outcome, i: nat)
    ensures Of(i, SequentialLog(n, orchestrator, assignDegraded, outcome))
         == if i < n then InSequence(i, orchestrator, assignDegraded(i), outcome(i)) else []
    decreases n
  {
    if n > 0 {
      var k := n - 1;
      SequentialIs(k, orchestrator, assignDegraded, outcome, i);
      OfGrows(i, SequentialLog(k, orchestrator, assignDegraded, outcome), k, orchestrator, assignDegraded(k), outcome(k));
    }
  }

  /** In sequence a sub-task emits everything it does before the next one starts. */
  ghost predicate InOrder(n: nat, log: seq<Event>) {
    && (forall a, b | 0 <= a < b < |log| :: log[a].sub <= log[b].sub)
    && (forall a | 0 <= a < |log| :: log[a].sub < n)
  }

  lemma OrderGrows(k: nat, before: seq<Event>, mine: seq<Event>)
    requires InOrder(k, before) && forall a | 0 <= a < |mine| :: mine[a].sub == k
    ensures InOrder(k + 1, before + mine)
  {
  }

  lemma {:induction false} SequentialInOrder(n: nat, orchestrator: Worker, assignDegraded: nat -> bool, outcome: nat -> Outcome)
    ensures InOrder(n, SequentialLog(n, orchestrator, assignDegraded, outcome))
    decreases n
  {
    if n > 0 {
      var k := n - 1;
      var before := SequentialLog(k, orchestrator, assignDegraded, outcome);
      SequentialInOrder(k, orchestrator, assignDegraded, outcome);
      WithSubIs(before, k, orchestrator, assignDegraded(k), outcome(k));
      OrderGrows(k, before, InSequence(k, orchestrator, assignDegraded(k), outcome(k)));
    }
  }
}
