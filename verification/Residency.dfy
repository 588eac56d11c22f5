/** The residency protocol: any number of clients, one reaper, one lock (load_controller.py, app.py, manager.py, chat.py). */
module Residency {
  import opened LoadControl
  import opened Gates

  type Id = nat

  /**
   Imports call ensure_loaded without being counted as activity (import_router.py); the background tasks that title a
   session or reflect on it use a slot without either (chat.py).
   */
  datatype Kind = Chat | Job | Import | Background

  datatype Phase =
    | Begun
    | Waiting                            // for the residency lock
    | Warming                            // inside start_all, holding the lock
    | Serving                              // ensure_loaded has returned
    | Routed(slot: SlotId, gate: nat)    // has picked a slot object
    | Queued(slot: SlotId, gate: nat)
    | Holding(slot: SlotId, gate: nat)
    | Leaving                            // the warm-up raised
    | Ended

  /** `active`: between activity begin and end for a chat; a non-terminal row for a job. */
  datatype Client = Client(kind: Kind, active: bool, phase: Phase)

  datatype Lock = Free | OfClient(owner: Id) | OfReaper

  /** Gates have identities: start_all puts a new gate under an old slot name. */
  datatype State = State(
    load: Load, lock: Lock, reaper: seq<Time>,
    clients: map<Id, Client>, count: nat,
    gates: seq<Gate>, slots: map<SlotId, nat>,
    now: Time, warmups: nat, unloads: nat)

  function Boot(now: Time): State {
    State(Load(false, false, false, now), Free, [], map[], 0, [], map[], now, 0, 0)
  }

  /** `reaper` holds the window of a pass that is waiting for the lock. */
  datatype Step =
    | Tick(elapsed: nat)
    | Begin(id: Id, kind: Kind)
    | Arrive(id: Id)
    | TakeLock(id: Id)
    | WarmSlot(id: Id, slot: SlotId)
    | WarmDone(id: Id)
    | WarmFail(id: Id)
    | Route(id: Id, slot: SlotId)
    | JoinQueue(id: Id)
    | GetGate(id: Id)
    | GiveUpQueue(id: Id)
    | DropGate(id: Id)
    | End(id: Id)
    | Abandon(id: Id)                    // a stream is closed: activity ends, the run behind it not yet
    | CancelJob(id: Id)
    | ReapCheck(window: Time)
    | ReapStart
    | UnloadDone
    | UnloadFail

  function StepClient(st: Step): set<Id> {
    match st
    case Begin(id, _) => {id} case Arrive(id) => {id} case TakeLock(id) => {id} case WarmSlot(id, _) => {id}
    case WarmDone(id) => {id} case WarmFail(id) => {id} case Route(id, _) => {id} case JoinQueue(id) => {id}
    case GetGate(id) => {id} case GiveUpQueue(id) => {id} case DropGate(id) => {id} case End(id) => {id}
    case Abandon(id) => {id} case CancelJob(id) => {id}
    case _ => {}
  }

  predicate OnGate(p: Phase) {
    p.Routed? || p.Queued? || p.Holding?
  }

  /** Between ensure_loaded returning and the end of the run. */
  predicate InUse(p: Phase) {
    p.Serving? || OnGate(p)
  }

  predicate Counted(c: Client) {
    c.active && (c.kind.Chat? || c.kind.Job?)
  }

  predicate ActiveJob(s: State) {
    exists id | id in s.clients :: s.clients[id].kind.Job? && s.clients[id].active
  }

  /** is_busy: chats by the counter, jobs by their rows. */
  predicate Busy(s: State) {
    s.count > 0 || ActiveJob(s)
  }

  predicate In(s: State, id: Id, p: Phase) {
    id in s.clients && s.clients[id].phase == p
  }

  predicate Enabled(s: State, st: Step) {
    match st
    case Tick(_) => true
    case Begin(id, _) => id !in s.clients
    case Arrive(id) => In(s, id, Begun)
    case TakeLock(id) => In(s, id, Waiting) && s.lock.Free?
    case WarmSlot(id, _) => In(s, id, Warming)
    case WarmDone(id) => In(s, id, Warming)
    case WarmFail(id) => In(s, id, Warming)
    case Route(id, slot) => In(s, id, Serving) && slot in s.slots
    case JoinQueue(id) => id in s.clients && s.clients[id].phase.Routed? && s.clients[id].phase.gate < |s.gates|
    case GetGate(id) =>
      && id in s.clients && s.clients[id].phase.Queued? && s.clients[id].phase.gate < |s.gates|
      && !s.gates[s.clients[id].phase.gate].locked && s.gates[s.clients[id].phase.gate].waiting > 0
    case GiveUpQueue(id) =>
      && id in s.clients && s.clients[id].phase.Queued? && s.clients[id].phase.gate < |s.gates|
      && s.gates[s.clients[id].phase.gate].waiting > 0
    case DropGate(id) => id in s.clients && s.clients[id].phase.Holding? && s.clients[id].phase.gate < |s.gates|
    case End(id) =>
      id in s.clients && var p := s.clients[id].phase;
        p.Begun? || p.Waiting? || p.Serving? || p.Routed? || p.Leaving?
    case Abandon(id) =>
      id in s.clients && s.clients[id].kind.Chat? && s.clients[id].active && InUse(s.clients[id].phase)
    case CancelJob(id) => id in s.clients && s.clients[id].kind.Job? && s.clients[id].active
    case ReapCheck(window) => s.reaper == [] && !s.load.unloading && MayReap(s.load, Busy(s), window, s.now)
    case ReapStart => |s.reaper| == 1 && s.lock.Free?
    case UnloadDone => s.lock.OfReaper?
    case UnloadFail => s.lock.OfReaper?
  }

  function Move(s: State, id: Id, p: Phase): State
    requires id in s.clients
  {
    s.(clients := s.clients[id := s.clients[id].(phase := p)])
  }

  function OnGateStep(s: State, id: Id, p: Phase, g: Gate): State
    requires id in s.clients && OnGate(s.clients[id].phase) && s.clients[id].phase.gate < |s.gates|
  {
    Move(s, id, p).(gates := s.gates[s.clients[id].phase.gate := g])
  }

  /** The run of a client stops being counted, in this phase: the last chat to do so touches the timer. */
  function StopCounting(s: State, id: Id, p: Phase): State
    requires id in s.clients
  {
    var c := s.clients[id];
    var s1 := s.(clients := s.clients[id := c.(active := false, phase := p)]);
    if !(c.kind.Chat? && c.active) then s1
    else
      var n := Lowered(s.count);
      if n == 0 then s1.(count := n, load := Touched(s.load, s.now)) else s1.(count := n)
  }

  function Apply(s: State, st: Step): State
    requires Enabled(s, st)
  {
    match st
    case Tick(elapsed) => s.(now := s.now + elapsed)
    case Begin(id, kind) =>
      s.(clients := s.clients[id := Client(kind, true, if kind.Background? then Serving else Begun)],
         count := if kind.Chat? then s.count + 1 else s.count)
    case Arrive(id) =>
      if Resident(s.load) then Move(s, id, Serving).(load := Touched(s.load, s.now)) else Move(s, id, Waiting)
    case TakeLock(id) =>
      var s1 := Move(s, id, if Resident(s.load) then Serving else Warming);
      s1.(load := EnsureUnderLock(s.load, s.now), lock := if Resident(s.load) then Free else OfClient(id))
    case WarmSlot(id, slot) => s.(gates := s.gates + [NEW_GATE], slots := s.slots[slot := |s.gates|])
    case WarmDone(id) => Move(s, id, Serving).(load := Warmed(s.load, true, s.now), lock := Free, warmups := s.warmups + 1)
    case WarmFail(id) => Move(s, id, Leaving).(load := Warmed(s.load, false, s.now), lock := Free)
    case Route(id, slot) => Move(s, id, Routed(slot, s.slots[slot]))
    case JoinQueue(id) =>
      var p := s.clients[id].phase;
      OnGateStep(s, id, Queued(p.slot, p.gate), Joined(s.gates[p.gate]))
    case GetGate(id) =>
      var p := s.clients[id].phase;
      OnGateStep(s, id, Holding(p.slot, p.gate), Granted(s.gates[p.gate]))
    case GiveUpQueue(id) =>
      var p := s.clients[id].phase;
      OnGateStep(s, id, Routed(p.slot, p.gate), Left(s.gates[p.gate]))
    case DropGate(id) =>
      var p := s.clients[id].phase;
      OnGateStep(s, id, Routed(p.slot, p.gate), Released(s.gates[p.gate]))
    case End(id) => StopCounting(s, id, Ended)
    case Abandon(id) => StopCounting(s, id, s.clients[id].phase)
    case CancelJob(id) => s.(clients := s.clients[id := s.clients[id].(active := false)])
    case ReapCheck(window) => s.(reaper := [window])
    case ReapStart =>
      var spare := MustSpare(s.load, Busy(s), s.reaper[0], s.now);
      s.(load := ReapUnderLock(s.load, Busy(s), s.reaper[0], s.now),
         lock := if spare then Free else OfReaper,
         reaper := [])
    case UnloadDone => s.(load := Unloaded(s.load, true), lock := Free, unloads := s.unloads + 1)
    case UnloadFail => s.(load := Unloaded(s.load, false), lock := Free)
  }

  // ---- invariants ----

  /** A warm-up holds the lock and starts from nothing resident; an unload holds it and starts from a resident loadout. */
  predicate LockInv(s: State) {
    && (s.load.loading <==> s.lock.OfClient?)
    && (s.load.unloading <==> s.lock.OfReaper?)
    && (s.load.loading ==> !s.load.loaded)
    && (s.load.unloading ==> s.load.loaded)
    && |s.reaper| <= 1
    && OwnerInv(s)
  }

  /** The lock's owner among the clients is the one that is warming. */
  predicate OwnerInv(s: State) {
    && (forall id | id in s.clients :: s.clients[id].phase.Warming? <==> s.lock == OfClient(id))
    && (s.lock.OfClient? ==> s.lock.owner in s.clients)
  }

  /** Counted clients past ensure_loaded have a resident loadout that nobody is unloading. */
  predicate UseInv(s: State) {
    forall id | id in s.clients && Counted(s.clients[id]) && InUse(s.clients[id].phase) :: Resident(s.load)
  }

  datatype Part = CountedChat | Waiter(gate: nat) | Holder(gate: nat)

  predicate Plays(c: Client, part: Part) {
    match part
    case CountedChat => c.kind.Chat? && c.active
    case Waiter(g) => c.phase.Queued? && c.phase.gate == g
    case Holder(g) => c.phase.Holding? && c.phase.gate == g
  }

  function Players(clients: map<Id, Client>, part: Part): set<Id> {
    set id | id in clients && Plays(clients[id], part)
  }

  predicate CountInv(s: State) {
    s.count == |Players(s.clients, CountedChat)|
  }

  /** A gate counts exactly its holder and its waiters. */
  predicate GateCounts(s: State, g: nat)
    requires g < |s.gates|
  {
    && s.gates[g].waiting == |Players(s.clients, Waiter(g))|
    && (if s.gates[g].locked then 1 else 0) == |Players(s.clients, Holder(g))|
  }

  predicate GateInv(s: State) {
    && (forall g: nat | g < |s.gates| :: GateCounts(s, g))
    && (forall id | id in s.clients && OnGate(s.clients[id].phase) :: s.clients[id].phase.gate < |s.gates|)
    && (forall slot | slot in s.slots :: s.slots[slot] < |s.gates|)
  }

  /** A counted client is on the gate its slot has now. */
  predicate CurrentInv(s: State) {
    forall id | id in s.clients && Counted(s.clients[id]) && OnGate(s.clients[id].phase) ::
      var p := s.clients[id].phase; p.slot in s.slots && s.slots[p.slot] == p.gate
  }

  predicate TimeInv(s: State) {
    s.load.lastActivity <= s.now
  }

  predicate WarmInv(s: State) {
    s.warmups == s.unloads + if s.load.loaded then 1 else 0
  }

  predicate Inv(s: State) {
    LockInv(s) && UseInv(s) && CountInv(s) && GateInv(s) && CurrentInv(s) && TimeInv(s) && WarmInv(s)
  }

  // ---- counting players ----

  lemma PlayersAfter(clients: map<Id, Client>, id: Id, c: Client, part: Part)
    ensures |Players(clients[id := c], part)|
         == |Players(clients, part)| - (if id in clients && Plays(clients[id], part) then 1 else 0)
                                     + (if Plays(c, part) then 1 else 0)
  {
    var before, after := Players(clients, part), Players(clients[id := c], part);
    assert after == if Plays(c, part) then before + {id} else before - {id};
  }

  lemma LonePlayer(clients: map<Id, Client>, part: Part, a: Id, b: Id)
    requires |Players(clients, part)| <= 1 && a in Players(clients, part) && b in Players(clients, part)
    ensures a == b
  {
    if a != b {
      assert {a, b} <= Players(clients, part);
      SubsetSize({a, b}, Players(clients, part));
    }
  }

  lemma SubsetSize(a: set<Id>, b: set<Id>)
    requires a <= b
    ensures |a| <= |b|
  {
    assert b == a + (b - a);
  }

  /** The counter says busy whenever a counted client exists. */
  lemma CountedMakesBusy(s: State, id: Id)
    requires CountInv(s) && id in s.clients && Counted(s.clients[id])
    ensures Busy(s)
  {
    if s.clients[id].kind.Chat? {
      SubsetSize({id}, Players(s.clients, CountedChat));
    }
  }

  lemma IdleHasNoCounted(s: State)
    requires CountInv(s) && !Busy(s)
    ensures forall id | id in s.clients :: !Counted(s.clients[id])
  {
    forall id | id in s.clients ensures !Counted(s.clients[id]) {
      if Counted(s.clients[id]) {
        CountedMakesBusy(s, id);
      }
    }
  }

  // ---- every step keeps every part of the invariant ----

  lemma OwnerAtKept(s: State, st: Step, id: Id)
    requires OwnerInv(s) && Enabled(s, st)
    ensures var s' := Apply(s, st);
            && (id in s'.clients ==> (s'.clients[id].phase.Warming? <==> s'.lock == OfClient(id)))
            && (s'.lock == OfClient(id) ==> id in s'.clients)
  {
  }

  lemma OwnerKept(s: State, st: Step)
    requires OwnerInv(s) && Enabled(s, st)
    ensures OwnerInv(Apply(s, st))
  {
    forall id: Id ensures var s' := Apply(s, st);
                          && (id in s'.clients ==> (s'.clients[id].phase.Warming? <==> s'.lock == OfClient(id)))
                          && (s'.lock == OfClient(id) ==> id in s'.clients)
    {
      OwnerAtKept(s, st, id);
    }
  }

  lemma LockKept(s: State, st: Step)
    requires LockInv(s) && Enabled(s, st)
    ensures LockInv(Apply(s, st))
  {
    OwnerKept(s, st);
  }

  lemma WarmKept(s: State, st: Step)
    requires LockInv(s) && WarmInv(s) && Enabled(s, st)
    ensures WarmInv(Apply(s, st))
  {
  }

  lemma TimeKept(s: State, st: Step)
    requires TimeInv(s) && Enabled(s, st)
    ensures TimeInv(Apply(s, st))
  {
  }

  lemma UseKept(s: State, st: Step)
    requires LockInv(s) && UseInv(s) && CountInv(s) && Enabled(s, st)
    ensures UseInv(Apply(s, st))
  {
    forall id | id in s.clients && Counted(s.clients[id]) ensures Busy(s) {
      CountedMakesBusy(s, id);
    }
  }

  /** A step changes at most the one client it names. */
  lemma OneClientMoves(s: State, st: Step, id: Id)
    requires Enabled(s, st) && StepClient(st) == {id}
    ensures id in Apply(s, st).clients
    ensures Apply(s, st).clients == s.clients[id := Apply(s, st).clients[id]]
  {
  }

  lemma CountKept(s: State, st: Step)
    requires CountInv(s) && Enabled(s, st)
    ensures CountInv(Apply(s, st))
  {
    if StepClient(st) != {} {
      var id :| id in StepClient(st);
      OneClientMoves(s, st, id);
      PlayersAfter(s.clients, id, Apply(s, st).clients[id], CountedChat);
    }
  }

  lemma CurrentKept(s: State, st: Step)
    requires LockInv(s) && UseInv(s) && GateInv(s) && CurrentInv(s) && Enabled(s, st)
    ensures CurrentInv(Apply(s, st))
  {
  }

  lemma GateCountsKept(s: State, st: Step, id: Id, g: nat)
    requires GateInv(s) && Enabled(s, st) && StepClient(st) == {id} && g < |s.gates|
    ensures g < |Apply(s, st).gates| && GateCounts(Apply(s, st), g)
  {
    var s' := Apply(s, st);
    assert GateCounts(s, g);
    OneClientMoves(s, st, id);
    PlayersAfter(s.clients, id, s'.clients[id], Waiter(g));
    PlayersAfter(s.clients, id, s'.clients[id], Holder(g));
  }

  /** A gate start_all has just made is unused. */
  lemma NewGateUnused(s: State, id: Id, slot: SlotId)
    requires GateInv(s) && Enabled(s, WarmSlot(id, slot))
    ensures GateCounts(Apply(s, WarmSlot(id, slot)), |s.gates|)
  {
    assert Players(s.clients, Waiter(|s.gates|)) == {};
    assert Players(s.clients, Holder(|s.gates|)) == {};
  }

  lemma GatesKnown(s: State, st: Step)
    requires GateInv(s) && Enabled(s, st)
    ensures var s' := Apply(s, st);
            && (forall id | id in s'.clients && OnGate(s'.clients[id].phase) :: s'.clients[id].phase.gate < |s'.gates|)
            && (forall slot | slot in s'.slots :: s'.slots[slot] < |s'.gates|)
            && |s'.gates| == |s.gates| + if st.WarmSlot? then 1 else 0
  {
  }

  lemma GateKept(s: State, st: Step)
    requires GateInv(s) && Enabled(s, st)
    ensures GateInv(Apply(s, st))
  {
    var s' := Apply(s, st);
    GatesKnown(s, st);
    forall g: nat | g < |s'.gates| ensures GateCounts(s', g) {
      if st.WarmSlot? && g == |s.gates| {
        NewGateUnused(s, st.id, st.slot);
      } else if StepClient(st) != {} {
        var id :| id in StepClient(st);
        GateCountsKept(s, st, id, g);
      } else {
        assert GateCounts(s, g);
      }
    }
  }

  lemma StepKeepsInv(s: State, st: Step)
    requires Inv(s) && Enabled(s, st)
    ensures Inv(Apply(s, st))
  {
    LockKept(s, st);
    UseKept(s, st);
    CountKept(s, st);
    GateKept(s, st);
    CurrentKept(s, st);
    TimeKept(s, st);
    WarmKept(s, st);
  }

  // ---- whole runs ----

  /** A run from boot: an interleaving of any number of clients and the reaper. */
  predicate Run(now: Time, states: seq<State>, steps: seq<Step>) {
    && |states| == |steps| + 1
    && states[0] == Boot(now)
    && (forall i | 0 <= i < |steps| :: Enabled(states[i], steps[i]) && states[i + 1] == Apply(states[i], steps[i]))
  }

  lemma {:induction false} RunKeepsInv(now: Time, states: seq<State>, steps: seq<Step>, i: nat)
    requires Run(now, states, steps) && i < |states|
    ensures Inv(states[i])
    decreases i
  {
    if i == 0 {
      assert Players(states[0].clients, CountedChat) == {};
    } else {
      RunKeepsInv(now, states, steps, i - 1);
      assert states[i] == Apply(states[i - 1], steps[i - 1]);
      StepKeepsInv(states[i - 1], steps[i - 1]);
    }
  }

  /**
   In every run: while the loadout is being loaded or unloaded, or is not resident, no counted client is past
   ensure_loaded; loading and unloading exclude each other; warm-ups and completed unloads alternate.
   */
  lemma NoUnloadUnderUse(now: Time, states: seq<State>, steps: seq<Step>, i: nat)
    requires Run(now, states, steps) && i < |states|
    ensures var s := states[i];
            && !(s.load.loading && s.load.unloading)
            && (s.load.loading || s.load.unloading || !s.load.loaded ==>
                  forall id | id in s.clients && Counted(s.clients[id]) :: !InUse(s.clients[id].phase))
            && s.warmups == s.unloads + if s.load.loaded then 1 else 0
  {
    RunKeepsInv(now, states, steps, i);
  }

  predicate OpenChat(s: State, id: Id) {
    id in s.clients && s.clients[id].kind.Chat? && s.clients[id].active
  }

  /** The step is a use of the loadout: ensure_loaded returns to somebody, or the last open chat ends or is closed. */
  predicate Uses(s: State, st: Step) {
    match st
    case WarmDone(_) => true
    case Arrive(_) => s.load.loaded && !s.load.unloading
    case TakeLock(_) => s.load.loaded && !s.load.unloading
    case End(id) => OpenChat(s, id) && forall other | other in s.clients && OpenChat(s, other) :: other == id
    case Abandon(id) => OpenChat(s, id) && forall other | other in s.clients && OpenChat(s, other) :: other == id
    case _ => false
  }

  /** When the loadout was last used in a run, or the time of boot. */
  function LastUse(now: Time, states: seq<State>, steps: seq<Step>, i: nat): Time
    requires |states| == |steps| + 1 && i < |states|
  {
    if i == 0 then now
    else if Uses(states[i - 1], steps[i - 1]) then states[i - 1].now
    else LastUse(now, states, steps, i - 1)
  }

  lemma LastChatDrains(s: State, id: Id)
    requires CountInv(s) && OpenChat(s, id)
    ensures Lowered(s.count) == 0 <==> forall other | other in s.clients && OpenChat(s, other) :: other == id
  {
    var chats := Players(s.clients, CountedChat);
    if forall other | other in s.clients && OpenChat(s, other) :: other == id {
      assert chats == {id};
    } else {
      var other :| other in s.clients && OpenChat(s, other) && other != id;
      SubsetSize({id, other}, chats);
    }
  }

  lemma UseTouches(s: State, st: Step)
    requires CountInv(s) && LockInv(s) && Enabled(s, st)
    ensures Apply(s, st).load.lastActivity == if Uses(s, st) then s.now else s.load.lastActivity
  {
    if (st.End? || st.Abandon?) && OpenChat(s, st.id) {
      LastChatDrains(s, st.id);
    }
  }

  /** In every run the idle timer stands exactly at the last use of the loadout. */
  lemma {:induction false} IdleTimerIs(now: Time, states: seq<State>, steps: seq<Step>, i: nat)
    requires Run(now, states, steps) && i < |states|
    ensures states[i].load.lastActivity == LastUse(now, states, steps, i)
    decreases i
  {
    if i > 0 {
      IdleTimerIs(now, states, steps, i - 1);
      RunKeepsInv(now, states, steps, i - 1);
      assert Enabled(states[i - 1], steps[i - 1]) && states[i] == Apply(states[i - 1], steps[i - 1]);
      UseTouches(states[i - 1], steps[i - 1]);
    }
  }

  /** An unload starts only when nothing counted exists and the last use of the loadout is at least the window ago. */
  lemma UnloadStartsIdle(now: Time, states: seq<State>, steps: seq<Step>, i: nat)
    requires Run(now, states, steps) && i < |steps|
    requires !states[i].load.unloading && states[i + 1].load.unloading
    ensures var s := states[i];
            && |s.reaper| == 1 && s.now - LastUse(now, states, steps, i) >= s.reaper[0]
            && (forall id | id in s.clients :: !Counted(s.clients[id]))
  {
    RunKeepsInv(now, states, steps, i);
    var s := states[i];
    assert Enabled(s, steps[i]) && states[i + 1] == Apply(s, steps[i]);
    IdleHasNoCounted(s);
    IdleTimerIs(now, states, steps, i);
  }

  /** Some run holds this gate. */
  predicate Held(s: State, gate: nat) {
    exists id | id in s.clients :: s.clients[id].phase.Holding? && s.clients[id].phase.gate == gate
  }

  lemma HeldIsLocked(s: State, g: nat)
    requires g < |s.gates| && GateCounts(s, g)
    ensures s.gates[g].locked <==> Held(s, g)
  {
    var holders := Players(s.clients, Holder(g));
    if holders != {} {
      var id :| id in holders;
      assert s.clients[id].phase.Holding?;
    }
    if Held(s, g) {
      var id :| id in s.clients && s.clients[id].phase.Holding? && s.clients[id].phase.gate == g;
      assert id in holders;
    }
  }

  lemma WaiterIsCounted(s: State, id: Id, g: nat)
    requires g < |s.gates| && GateCounts(s, g) && id in s.clients && s.clients[id].phase.Queued? && s.clients[id].phase.gate == g
    ensures s.gates[g].waiting > 0
  {
    assert id in Players(s.clients, Waiter(g));
  }

  lemma GateMoves(s: State, id: Id)
    requires GateInv(s) && id in s.clients
    ensures var p := s.clients[id].phase;
            && (Enabled(s, JoinQueue(id)) <==> p.Routed?)
            && (Enabled(s, GetGate(id)) <==> p.Queued? && !Held(s, p.gate)) && (Enabled(s, GiveUpQueue(id)) <==> p.Queued?)
            && (Enabled(s, DropGate(id)) <==> p.Holding?)
  {
    var p := s.clients[id].phase;
    if OnGate(p) {
      HeldIsLocked(s, p.gate);
      if p.Queued? {
        WaiterIsCounted(s, id, p.gate);
      }
    }
  }

  lemma LockMoves(s: State, id: Id, slot: SlotId)
    requires LockInv(s) && id in s.clients
    ensures var p := s.clients[id].phase;
            && (Enabled(s, Arrive(id)) <==> p.Begun?)
            && (Enabled(s, TakeLock(id)) <==> p.Waiting? && s.lock.Free?)
            && (Enabled(s, WarmSlot(id, slot)) <==> p.Warming?) && (Enabled(s, WarmDone(id)) <==> p.Warming?)
            && (Enabled(s, WarmFail(id)) <==> p.Warming?)
            && (Enabled(s, Route(id, slot)) <==> p.Serving? && slot in s.slots)
            && (Enabled(s, End(id)) <==> p.Begun? || p.Waiting? || p.Serving? || p.Routed? || p.Leaving?)
            && (s.lock.OfClient? ==> Enabled(s, WarmDone(s.lock.owner)))
            && (s.lock.OfReaper? ==> Enabled(s, UnloadDone))
  {
  }

  /**
   What a client can do in every reachable state, by where it stands: only the lock and a gate that is held keep it
   waiting, and the holder of the lock can always give it back.
   */
  lemma ClientsMove(now: Time, states: seq<State>, steps: seq<Step>, i: nat, id: Id, slot: SlotId)
    requires Run(now, states, steps) && i < |states| && id in states[i].clients
    ensures var s, p := states[i], states[i].clients[id].phase;
            && (Enabled(s, Arrive(id)) <==> p.Begun?)
            && (Enabled(s, TakeLock(id)) <==> p.Waiting? && s.lock.Free?)
            && (Enabled(s, WarmSlot(id, slot)) <==> p.Warming?) && (Enabled(s, WarmDone(id)) <==> p.Warming?)
            && (Enabled(s, WarmFail(id)) <==> p.Warming?)
            && (Enabled(s, Route(id, slot)) <==> p.Serving? && slot in s.slots)
            && (Enabled(s, JoinQueue(id)) <==> p.Routed?)
            && (Enabled(s, GetGate(id)) <==> p.Queued? && !Held(s, p.gate)) && (Enabled(s, GiveUpQueue(id)) <==> p.Queued?)
            && (Enabled(s, DropGate(id)) <==> p.Holding?)
            && (Enabled(s, End(id)) <==> p.Begun? || p.Waiting? || p.Serving? || p.Routed? || p.Leaving?)
            && (s.lock.OfClient? ==> Enabled(s, WarmDone(s.lock.owner)))
            && (s.lock.OfReaper? ==> Enabled(s, UnloadDone))
  {
    RunKeepsInv(now, states, steps, i);
    LockMoves(states[i], id, slot);
    GateMoves(states[i], id);
  }

  /** Counted clients on one slot share one gate, of which they have at most one holder; its queue length is the number of waiters. */
  lemma SlotsSerialize(now: Time, states: seq<State>, steps: seq<Step>, i: nat, a: Id, b: Id)
    requires Run(now, states, steps) && i < |states|
    requires a in states[i].clients && b in states[i].clients
    requires Counted(states[i].clients[a]) && Counted(states[i].clients[b])
    requires OnGate(states[i].clients[a].phase) && OnGate(states[i].clients[b].phase)
    requires states[i].clients[a].phase.slot == states[i].clients[b].phase.slot
    ensures var s, pa, pb := states[i], states[i].clients[a].phase, states[i].clients[b].phase;
            && pa.slot in s.slots && pa.gate == pb.gate == s.slots[pa.slot] && pa.gate < |s.gates|
            && (pa.Holding? && pb.Holding? ==> a == b)
            && (pa.Holding? ==> s.gates[pa.gate].locked)
            && s.gates[pa.gate].waiting == |Players(s.clients, Waiter(pa.gate))|
  {
    RunKeepsInv(now, states, steps, i);
    var s, pa, pb := states[i], states[i].clients[a].phase, states[i].clients[b].phase;
    assert GateCounts(s, pa.gate);
    if pa.Holding? {
      SubsetSize({a}, Players(s.clients, Holder(pa.gate)));
      if pb.Holding? {
        LonePlayer(s.clients, Holder(pa.gate), a, b);
      }
    }
  }

  /**
   What the 429 and the queue notice count: a gate's depth is the number of runs on it, holding or waiting, and a new
   chat is refused exactly when somebody holds the gate and at least MAX_QUEUE others wait.
   */
  lemma DepthCountsRuns(now: Time, states: seq<State>, steps: seq<Step>, i: nat, g: nat)
    requires Run(now, states, steps) && i < |states| && g < |states[i].gates|
    ensures var s := states[i];
            && Depth(s.gates[g]) == |Players(s.clients, Holder(g))| + |Players(s.clients, Waiter(g))|
            && (Full(s.gates[g]) <==> Players(s.clients, Holder(g)) != {} && |Players(s.clients, Waiter(g))| >= MAX_QUEUE)
  {
    RunKeepsInv(now, states, steps, i);
    assert GateCounts(states[i], g);
  }

  /** The slot table is replaced only under a warm-up, when no counted client is on any gate. */
  lemma GatesReplacedUnused(now: Time, states: seq<State>, steps: seq<Step>, i: nat)
    requires Run(now, states, steps) && i < |steps|
    requires states[i + 1].slots != states[i].slots
    ensures states[i].load.loading
    ensures forall id | id in states[i].clients && Counted(states[i].clients[id]) :: !OnGate(states[i].clients[id].phase)
  {
    RunKeepsInv(now, states, steps, i);
    assert Enabled(states[i], steps[i]) && states[i + 1] == Apply(states[i], steps[i]);
  }

  lemma {:induction false} CountersGrow(now: Time, states: seq<State>, steps: seq<Step>, i: nat, j: nat)
    requires Run(now, states, steps) && i <= j < |states|
    ensures states[i].unloads <= states[j].unloads && states[i].warmups <= states[j].warmups
    decreases j
  {
    if i < j {
      CountersGrow(now, states, steps, i, j - 1);
      assert Enabled(states[j - 1], steps[j - 1]) && states[j] == Apply(states[j - 1], steps[j - 1]);
    }
  }

  /** A burst of requests warms at most once between two unloads, whatever their number and order. */
  lemma BurstWarmsOnce(now: Time, states: seq<State>, steps: seq<Step>, i: nat, j: nat)
    requires Run(now, states, steps) && i <= j < |states| && states[i].unloads == states[j].unloads
    ensures states[i].warmups <= states[j].warmups <= states[i].warmups + 1
    ensures states[i].load.loaded ==> states[j].warmups == states[i].warmups
  {
    CountersGrow(now, states, steps, i, j);
    RunKeepsInv(now, states, steps, i);
    RunKeepsInv(now, states, steps, j);
  }

  // ---- what the residency does not protect ----

  lemma Extend(now: Time, states: seq<State>, steps: seq<Step>, st: Step) returns (longer: seq<State>)
    requires Run(now, states, steps) && Enabled(states[|steps|], st)
    ensures Run(now, longer, steps + [st]) && longer == states + [Apply(states[|steps|], st)]
  {
    longer := states + [Apply(states[|steps|], st)];
    var all := steps + [st];
    forall i | 0 <= i < |all| ensures Enabled(longer[i], all[i]) && longer[i + 1] == Apply(longer[i], all[i]) {
      assert i < |steps| ==> all[i] == steps[i];
    }
  }

  /** One client warms the loadout alone and is still using it after `window`. */
  function WarmedAlone(now: Time, kind: Kind, window: nat): State {
    State(Load(true, false, false, now), Free, [], map[0 := Client(kind, true, Serving)],
          if kind.Chat? then 1 else 0, [], map[], now + window, 1, 0)
  }

  function WaitingAlone(now: Time, kind: Kind): State {
    Boot(now).(clients := map[0 := Client(kind, true, Waiting)], count := if kind.Chat? then 1 else 0)
  }

  lemma WaitAlone(now: Time, kind: Kind) returns (states: seq<State>, steps: seq<Step>)
    requires !kind.Background?
    ensures Run(now, states, steps) && |steps| == 2 && states[2] == WaitingAlone(now, kind)
  {
    states := Extend(now, [Boot(now)], [], Begin(0, kind));
    steps := [] + [Begin(0, kind)];
    states := Extend(now, states, steps, Arrive(0));
    steps := steps + [Arrive(0)];
    assert states[2].clients == map[0 := Client(kind, true, Waiting)];
  }

  lemma WarmAlone(now: Time, kind: Kind, window: nat) returns (states: seq<State>, steps: seq<Step>)
    requires !kind.Background?
    ensures Run(now, states, steps) && |steps| == 5 && states[5] == WarmedAlone(now, kind, window)
  {
    states, steps := WaitAlone(now, kind);
    states := Extend(now, states, steps, TakeLock(0));
    steps := steps + [TakeLock(0)];
    states := Extend(now, states, steps, WarmDone(0));
    steps := steps + [WarmDone(0)];
    states := Extend(now, states, steps, Tick(window));
    steps := steps + [Tick(window)];
    assert states[5].clients == map[0 := Client(kind, true, Serving)];
  }

  /** The reaper unloads in two steps when nothing is counted. */
  lemma ReapNow(now: Time, states: seq<State>, steps: seq<Step>, window: Time) returns (longer: seq<State>, more: seq<Step>)
    requires Run(now, states, steps)
    requires var s := states[|steps|]; s.reaper == [] && s.lock.Free? && MayReap(s.load, Busy(s), window, s.now)
    ensures Run(now, longer, more) && |more| == |steps| + 2 && longer[..|states|] == states && more[..|steps|] == steps
    ensures var s, last := states[|steps|], longer[|more|];
            last.load.unloading && last.clients == s.clients && last.now == s.now
  {
    longer := Extend(now, states, steps, ReapCheck(window));
    more := steps + [ReapCheck(window)];
    longer := Extend(now, longer, more, ReapStart);
    more := more + [ReapStart];
  }

  /** An import is not counted: an unload can start in the middle of one. */
  lemma UnloadUnderImport(now: Time, window: nat) returns (states: seq<State>, steps: seq<Step>)
    ensures Run(now, states, steps)
    ensures states[|steps|].load.unloading && states[|steps|].clients == map[0 := Client(Import, true, Serving)]
  {
    states, steps := WarmAlone(now, Import, window);
    states, steps := ReapNow(now, states, steps, window);
  }

  /** A job's end does not touch the idle timer: its loadout can be unloaded at the very moment it ends. */
  lemma UnloadRightAfterJob(now: Time, window: nat) returns (states: seq<State>, steps: seq<Step>)
    ensures Run(now, states, steps) && |steps| == 8
    ensures states[5].clients == map[0 := Client(Job, true, Serving)] && steps[5] == End(0)
    ensures states[8].load.unloading && states[8].now == states[5].now
  {
    states, steps := WarmAlone(now, Job, window);
    states := Extend(now, states, steps, End(0));
    steps := steps + [End(0)];
    assert states[6].clients == map[0 := Client(Job, false, Ended)];
    var longer, more := ReapNow(now, states, steps, window);
    assert longer[..7][5] == states[5] && more[..6][5] == steps[5];
    states, steps := longer, more;
  }

  /** A cancelled job that is still serving is not counted either. */
  lemma UnloadUnderCancelledJob(now: Time, window: nat) returns (states: seq<State>, steps: seq<Step>)
    ensures Run(now, states, steps)
    ensures states[|steps|].load.unloading && states[|steps|].clients == map[0 := Client(Job, false, Serving)]
  {
    states, steps := WarmAlone(now, Job, window);
    states := Extend(now, states, steps, CancelJob(0));
    steps := steps + [CancelJob(0)];
    assert states[6].clients == map[0 := Client(Job, false, Serving)];
    states, steps := ReapNow(now, states, steps, window);
  }

  /** A chat whose stream was closed is not counted any more, although the run behind it has not been unwound. */
  lemma UnloadUnderAbandonedChat(now: Time, window: nat) returns (states: seq<State>, steps: seq<Step>)
    ensures Run(now, states, steps)
    ensures states[|steps|].load.unloading && states[|steps|].clients == map[0 := Client(Chat, false, Serving)]
  {
    states, steps := WarmAlone(now, Chat, window);
    states := Extend(now, states, steps, Abandon(0));
    steps := steps + [Abandon(0)];
    states := Extend(now, states, steps, Tick(window));
    steps := steps + [Tick(window)];
    assert states[7].clients == map[0 := Client(Chat, false, Serving)];
    states, steps := ReapNow(now, states, steps, window);
  }

  // ---- exactly when an unload comes without further activity ----

  /** Only time passes and the reaper works. */
  predicate Quiet(st: Step) {
    st.Tick? || st.ReapCheck? || st.ReapStart?
  }

  /** A quiet continuation of s that starts an unload with this window, d ticks later. */
  ghost predicate QuietUnload(s: State, states: seq<State>, steps: seq<Step>, window: Time, d: nat) {
    && |states| == |steps| + 1 && states[0] == s
    && (forall i | 0 <= i < |steps| ::
          Quiet(steps[i]) && Enabled(states[i], steps[i]) && states[i + 1] == Apply(states[i], steps[i]))
    && steps != [] && steps[|steps| - 1] == ReapStart
    && states[|steps| - 1].reaper == [window] && states[|steps| - 1].now == s.now + d
    && states[|steps|].load.unloading
  }

  ghost predicate UnloadsAfter(s: State, window: Time, d: nat) {
    exists states, steps :: QuietUnload(s, states, steps, window, d)
  }

  /** Resident, with nobody at the lock and no reaper pass under way. */
  predicate Settled(s: State) {
    Resident(s.load) && s.lock.Free? && s.reaper == []
  }

  predicate NoneCounted(s: State) {
    forall id | id in s.clients :: !Counted(s.clients[id])
  }

  lemma BusyMeansCounted(s: State)
    requires CountInv(s)
    ensures Busy(s) <==> !NoneCounted(s)
  {
    if s.count > 0 {
      assert Players(s.clients, CountedChat) != {};
      var id :| id in Players(s.clients, CountedChat);
      assert Counted(s.clients[id]);
    }
    if !Busy(s) {
      IdleHasNoCounted(s);
    }
  }

  lemma QuietStep(s: State, st: Step)
    requires Quiet(st) && Enabled(s, st)
    ensures var s' := Apply(s, st);
            s'.clients == s.clients && s'.count == s.count && s'.load.lastActivity == s.load.lastActivity
  {
  }

  /** Quiet steps change no client and do not touch the idle timer. */
  lemma {:induction false} QuietKeeps(s: State, states: seq<State>, steps: seq<Step>, window: Time, d: nat, i: nat)
    requires Inv(s) && QuietUnload(s, states, steps, window, d) && i <= |steps|
    ensures Inv(states[i]) && states[i].clients == s.clients && states[i].count == s.count
    ensures states[i].load.lastActivity == s.load.lastActivity
    decreases i
  {
    if i > 0 {
      QuietKeeps(s, states, steps, window, d, i - 1);
      assert Quiet(steps[i - 1]) && Enabled(states[i - 1], steps[i - 1]) && states[i] == Apply(states[i - 1], steps[i - 1]);
      QuietStep(states[i - 1], steps[i - 1]);
      StepKeepsInv(states[i - 1], steps[i - 1]);
    }
  }

  lemma ReapStartGuard(s: State)
    requires LockInv(s) && Enabled(s, ReapStart) && Apply(s, ReapStart).load.unloading
    ensures !Busy(s) && s.now - s.load.lastActivity >= s.reaper[0]
  {
  }

  lemma QuietUnloadWaits(s: State, states: seq<State>, steps: seq<Step>, window: Time, d: nat)
    requires Inv(s) && QuietUnload(s, states, steps, window, d)
    ensures NoneCounted(s) && s.now + d - s.load.lastActivity >= window
    ensures states[|steps|].clients == s.clients
  {
    var k := |steps| - 1;
    QuietKeeps(s, states, steps, window, d, k);
    QuietKeeps(s, states, steps, window, d, k + 1);
    assert Enabled(states[k], steps[k]) && states[k + 1] == Apply(states[k], steps[k]);
    ReapStartGuard(states[k]);
    BusyMeansCounted(states[k]);
  }

  lemma QuietUnloadExists(s: State, window: Time, d: nat)
    requires Inv(s) && Settled(s) && NoneCounted(s) && s.now + d - s.load.lastActivity >= window
    ensures UnloadsAfter(s, window, d)
  {
    BusyMeansCounted(s);
    var s1 := s.(now := s.now + d);
    var s2 := s1.(reaper := [window]);
    var s3 := s2.(load := s2.load.(unloading := true), lock := OfReaper, reaper := []);
    assert Busy(s1) == Busy(s) && Busy(s2) == Busy(s);
    assert Apply(s, Tick(d)) == s1 && Apply(s1, ReapCheck(window)) == s2 && Apply(s2, ReapStart) == s3;
    assert QuietUnload(s, [s, s1, s2, s3], [Tick(d), ReapCheck(window), ReapStart], window, d);
  }

  /**
   From any settled state of any run: without further activity an unload with some window can start d ticks later if
   and only if no client is counted and by then the idle timer was last touched at least the window ago.
   */
  lemma UnloadsAfterIff(now: Time, states: seq<State>, steps: seq<Step>, i: nat, window: Time, d: nat)
    requires Run(now, states, steps) && i < |states| && Settled(states[i])
    ensures UnloadsAfter(states[i], window, d)
       <==> NoneCounted(states[i]) && states[i].now + d - states[i].load.lastActivity >= window
  {
    RunKeepsInv(now, states, steps, i);
    var s := states[i];
    if UnloadsAfter(s, window, d) {
      var more, moreSteps :| QuietUnload(s, more, moreSteps, window, d);
      QuietUnloadWaits(s, more, moreSteps, window, d);
    }
    if NoneCounted(s) && s.now + d - s.load.lastActivity >= window {
      QuietUnloadExists(s, window, d);
    }
  }

  /** Without further activity no unload with this window comes before the window is over. */
  ghost predicate GrantsWindow(s: State, window: Time) {
    forall d: nat | UnloadsAfter(s, window, d) :: d >= window
  }

  /** The loadout stays for the full window from here on exactly when the idle timer was touched just now. */
  lemma FullWindowIffTouched(now: Time, states: seq<State>, steps: seq<Step>, i: nat, window: nat)
    requires Run(now, states, steps) && i < |states| && Settled(states[i]) && NoneCounted(states[i]) && window > 0
    ensures GrantsWindow(states[i], window) <==> states[i].load.lastActivity == states[i].now
  {
    RunKeepsInv(now, states, steps, i);
    var idle := states[i].now - states[i].load.lastActivity;
    forall d: nat ensures UnloadsAfter(states[i], window, d) <==> idle + d >= window {
      UnloadsAfterIff(now, states, steps, i, window, d);
    }
    if idle > 0 {
      var d: nat := if window > idle then window - idle else 0;
      assert UnloadsAfter(states[i], window, d) && d < window;
    }
  }

  /** The client's run is over, or the stream it feeds is closed. */
  predicate Leaves(st: Step, id: Id) {
    st == End(id) || st == Abandon(id)
  }

  /** The last chat to leave touches the timer; a job, an import or a chat that was not counted any more leaves it. */
  lemma EndTouches(s: State, st: Step, id: Id)
    requires Enabled(s, st) && Leaves(st, id)
    ensures id in s.clients
    ensures Apply(s, st).load.lastActivity
         == if s.clients[id].kind.Chat? && s.clients[id].active && Lowered(s.count) == 0 then s.now else s.load.lastActivity
  {
  }

  /**
   When a run ends and leaves a settled state with no counted one, the keep-alive window is granted in full exactly when
   that run was a counted chat or the timer happens to have been touched at this very moment; a job's own duration does
   not count.
   */
  lemma FullWindowAfterEndIff(now: Time, states: seq<State>, steps: seq<Step>, i: nat, id: Id, window: nat)
    requires Run(now, states, steps) && i < |steps| && Leaves(steps[i], id) && window > 0
    requires Settled(states[i + 1]) && NoneCounted(states[i + 1])
    ensures id in states[i].clients
    ensures GrantsWindow(states[i + 1], window)
       <==> (states[i].clients[id].kind.Chat? && states[i].clients[id].active)
            || states[i].load.lastActivity == states[i].now
  {
    assert Enabled(states[i], steps[i]) && states[i + 1] == Apply(states[i], steps[i]);
    EndTouches(states[i], steps[i], id);
    RunKeepsInv(now, states, steps, i + 1);
    BusyMeansCounted(states[i + 1]);
    FullWindowIffTouched(now, states, steps, i + 1, window);
  }

  /** An unload can start, without further activity, under the client while it is in use. */
  ghost predicate Exposed(s: State, id: Id, window: Time) {
    exists d: nat, more: seq<State>, moreSteps: seq<Step> ::
      && QuietUnload(s, more, moreSteps, window, d)
      && id in more[|moreSteps|].clients && InUse(more[|moreSteps|].clients[id].phase)
  }

  /**
   Which clients the residency protects: in any settled state of any run, an unload with any window can start under a
   client in use exactly when no client at all is counted. So imports, background tasks, chats whose stream was closed and
   cancelled jobs that are still serving are protected only by the counted runs beside them.
   */
  lemma ExposedIffNoneCounted(now: Time, states: seq<State>, steps: seq<Step>, i: nat, id: Id, window: Time)
    requires Run(now, states, steps) && i < |states| && Settled(states[i])
    requires id in states[i].clients && InUse(states[i].clients[id].phase)
    ensures Exposed(states[i], id, window) <==> NoneCounted(states[i])
  {
    RunKeepsInv(now, states, steps, i);
    var s := states[i];
    if NoneCounted(s) {
      var idle := s.now - s.load.lastActivity;
      var d: nat := if window > idle then window - idle else 0;
      QuietUnloadExists(s, window, d);
      var more, moreSteps :| QuietUnload(s, more, moreSteps, window, d);
      QuietUnloadWaits(s, more, moreSteps, window, d);
    } else if Exposed(s, id, window) {
      var d: nat, more: seq<State>, moreSteps: seq<Step> :| QuietUnload(s, more, moreSteps, window, d);
      QuietUnloadWaits(s, more, moreSteps, window, d);
    }
  }
}
