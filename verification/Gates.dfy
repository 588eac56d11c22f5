/** SlotGate and the slot table of LlamaManager.start_all (llama/manager.py). */
module Gates {
  const MAX_QUEUE := 4

  datatype Gate = Gate(locked: bool, waiting: nat)

  const NEW_GATE := Gate(false, 0)

  /** The queue a new chat would join is full: the 429 of check_capacity. */
  predicate Full(g: Gate) {
    g.locked && g.waiting >= MAX_QUEUE
  }

  function Depth(g: Gate): nat {
    g.waiting + if g.locked then 1 else 0
  }

  function Joined(g: Gate): Gate {
    g.(waiting := g.waiting + 1)
  }

  function Left(g: Gate): Gate
    requires g.waiting > 0
  {
    g.(waiting := g.waiting - 1)
  }

  function Granted(g: Gate): Gate
    requires g.waiting > 0
  {
    Gate(true, g.waiting - 1)
  }

  function Released(g: Gate): Gate {
    g.(locked := false)
  }

  class SlotGate {
    var locked: bool
    var waiting: nat

    constructor ()
      ensures View() == NEW_GATE
    {
      locked, waiting := false, 0;
    }

    function View(): Gate
      reads this
    {
      Gate(locked, waiting)
    }

    method QueueDepth() returns (ahead: nat)
      ensures ahead == waiting + (if locked then 1 else 0) == Depth(View())
    {
      ahead := waiting;
      if locked {
        ahead := ahead + 1;
      }
    }

    method CheckCapacity() returns (ok: bool)
      ensures ok <==> !Full(View())
      ensures ok <==> !locked || waiting < 4
    {
      ok := !(locked && waiting >= MAX_QUEUE);
    }

    /** acquire up to its await. */
    method Join()
      modifies this
      ensures View() == Joined(old(View()))
      ensures locked == old(locked) && waiting == old(waiting) + 1
    {
      waiting := waiting + 1;
    }

    /** acquire once the lock is ours. */
    method Grant()
      requires !locked && waiting > 0
      modifies this
      ensures View() == Granted(old(View()))
      ensures locked && waiting == old(waiting) - 1
    {
      locked := true;
      waiting := waiting - 1;
    }

    /** acquire cancelled, or timed out. */
    method Abandon()
      requires waiting > 0
      modifies this
      ensures View() == Left(old(View()))
      ensures locked == old(locked) && waiting == old(waiting) - 1
    {
      waiting := waiting - 1;
    }

    method Release()
      requires locked
      modifies this
      ensures View() == Released(old(View()))
      ensures !locked && waiting == old(waiting)
    {
      locked := false;
    }
  }

  /** Slot names are only compared. */
  type SlotId = nat

  /** How a planned slot's launch goes: no backend can be made for it, it never becomes healthy, or it does. */
  datatype Launch = CannotStart | Unhealthy | Healthy

  /** How the launch of each planned slot goes, this time. */
  type Launches = map<SlotId, Launch>

  function LaunchOf(launch: Launches, id: SlotId): Launch {
    if id in launch then launch[id] else CannotStart
  }

  datatype SlotState = Cold | Ready | Failed

  /** The notices after the first n planned slots: one more for each whose launch fails, in order. */
  function Noted(notices: seq<SlotId>, planned: seq<SlotId>, n: nat, launch: Launches): seq<SlotId>
    requires n <= |planned|
  {
    if n == 0 then notices
    else
      var before := Noted(notices, planned, n - 1, launch);
      if LaunchOf(launch, planned[n - 1]).Healthy? then before else before + [planned[n - 1]]
  }

  function StateOf(launch: Launch): SlotState {
    if launch.Healthy? then Ready else Failed
  }

  function Ids(planned: seq<SlotId>, n: nat): set<SlotId>
    requires n <= |planned|
  {
    if n == 0 then {} else Ids(planned, n - 1) + {planned[n - 1]}
  }

  /** The slot states after the first n planned slots. */
  function Started(states: map<SlotId, SlotState>, planned: seq<SlotId>, n: nat, launch: Launches): map<SlotId, SlotState>
    requires n <= |planned|
  {
    if n == 0 then states
    else Started(states, planned, n - 1, launch)[planned[n - 1] := StateOf(LaunchOf(launch, planned[n - 1]))]
  }

  /** A planned slot is ready exactly when its launch went well; a slot that is not planned keeps its state. */
  lemma {:induction false} StartedIs(states: map<SlotId, SlotState>, planned: seq<SlotId>, n: nat, launch: Launches, id: SlotId)
    requires n <= |planned|
    ensures id in Ids(planned, n) <==> exists i :: 0 <= i < n && planned[i] == id
    ensures var after := Started(states, planned, n, launch);
            && (id in Ids(planned, n) ==> id in after && (after[id] == Ready <==> LaunchOf(launch, id).Healthy?))
            && (id in Ids(planned, n) ==> id in after && (after[id] == Failed <==> !LaunchOf(launch, id).Healthy?))
            && (id !in Ids(planned, n) ==> (id in after <==> id in states) && (id in after ==> after[id] == states[id]))
  {
    if n > 0 {
      StartedIs(states, planned, n - 1, launch, id);
    }
  }

  /** Every failed launch of a planned slot is among the notices, and only those are new. */
  lemma {:induction false} NotedIs(notices: seq<SlotId>, planned: seq<SlotId>, n: nat, launch: Launches)
    requires n <= |planned|
    ensures var after := Noted(notices, planned, n, launch);
            && notices <= after
            && (forall i | 0 <= i < n && !LaunchOf(launch, planned[i]).Healthy? :: planned[i] in after)
            && (forall k | |notices| <= k < |after| :: after[k] in Ids(planned, n) && !LaunchOf(launch, after[k]).Healthy?)
  {
    if n > 0 {
      NotedIs(notices, planned, n - 1, launch);
    }
  }

  /** The planned slots whose launch fails, in the order of the plan. */
  function FailedOf(planned: seq<SlotId>, launch: Launches): seq<SlotId> {
    if planned == [] then []
    else if planned[0] in launch && launch[planned[0]] == Healthy then FailedOf(planned[1..], launch)
    else [planned[0]] + FailedOf(planned[1..], launch)
  }

  lemma {:induction false} FailedOfAppend(a: seq<SlotId>, b: seq<SlotId>, launch: Launches)
    ensures FailedOf(a + b, launch) == FailedOf(a, launch) + FailedOf(b, launch)
  {
    if a == [] {
      assert a + b == b;
    } else {
      FailedOfAppend(a[1..], b, launch);
      assert (a + b)[0] == a[0] && (a + b)[1..] == a[1..] + b;
    }
  }

  /** The notices are one more for each failed launch, in the order of the plan, after those there were. */
  lemma {:induction false} NoticesAre(notices: seq<SlotId>, planned: seq<SlotId>, n: nat, launch: Launches)
    requires n <= |planned|
    ensures Noted(notices, planned, n, launch) == notices + FailedOf(planned[..n], launch)
  {
    if n == 0 {
      assert planned[..0] == [];
    } else {
      NoticesAre(notices, planned, n - 1, launch);
      assert planned[..n] == planned[..n - 1] + [planned[n - 1]];
      FailedOfAppend(planned[..n - 1], [planned[n - 1]], launch);
      assert [planned[n - 1]][1..] == [];
    }
  }

  lemma OthersKept<V>(before: map<SlotId, V>, after: map<SlotId, V>, ids: set<SlotId>, id: SlotId, value: V)
    requires after - ids == before - ids
    ensures after[id := value] - (ids + {id}) == before - (ids + {id})
  {
    assert forall k | k !in ids && k != id :: (k in after <==> k in after - ids) && (k in before <==> k in before - ids);
    assert forall k | k in after && k !in ids :: after[k] == (after - ids)[k];
    assert forall k | k in before && k !in ids :: before[k] == (before - ids)[k];
  }

  class SlotTable {
    var slots: map<SlotId, SlotGate>
    var states: map<SlotId, SlotState>
    var notices: seq<SlotId>

    constructor ()
      ensures slots == map[] && states == map[] && notices == []
    {
      slots, states, notices := map[], map[], [];
    }

    /** Registering one slot replaces its gate by an unused one, whether or not its backend starts. */
    method StartSlot(id: SlotId, launch: Launch)
      modifies this
      ensures id in slots && fresh(slots[id]) && slots[id].View() == NEW_GATE
      ensures slots == old(slots)[id := slots[id]]
      ensures states == old(states)[id := StateOf(launch)]
      ensures notices == if launch.Healthy? then old(notices) else old(notices) + [id]
    {
      var gate := new SlotGate();
      slots := slots[id := gate];
      if launch.Healthy? {
        states := states[id := Ready];
      } else {
        states := states[id := Failed];
        notices := notices + [id];
      }
    }

    /** The first n planned slots have gates that are new, unheld and without waiters. */
    ghost predicate NewGates(planned: seq<SlotId>, n: nat, made: set<SlotGate>)
      requires n <= |planned|
      reads this, made
    {
      && (forall gate | gate in made :: gate.View() == NEW_GATE)
      && (forall i | 0 <= i < n :: planned[i] in slots && slots[planned[i]] in made)
    }

    /**
     start_all: every planned slot ends up with an unused gate, and its state and notice say how its launch went; no
     other slot is touched.
     */
    method StartAll(planned: seq<SlotId>, launch: Launches) returns (ghost made: set<SlotGate>)
      modifies this
      ensures fresh(made) && NewGates(planned, |planned|, made)
      ensures forall i | 0 <= i < |planned| ::
                planned[i] in slots && fresh(slots[planned[i]]) && !slots[planned[i]].locked && slots[planned[i]].waiting == 0
      ensures slots.Keys == old(slots).Keys + Ids(planned, |planned|)
      ensures slots - Ids(planned, |planned|) == old(slots) - Ids(planned, |planned|)
      ensures states == Started(old(states), planned, |planned|, launch)
      ensures notices == Noted(old(notices), planned, |planned|, launch)
    {
      made := {};
      for n := 0 to |planned|
        invariant fresh(made) && NewGates(planned, n, made)
        invariant slots.Keys == old(slots).Keys + Ids(planned, n)
        invariant slots - Ids(planned, n) == old(slots) - Ids(planned, n)
        invariant states == Started(old(states), planned, n, launch)
        invariant notices == Noted(old(notices), planned, n, launch)
      {
        ghost var before := slots;
        StartSlot(planned[n], LaunchOf(launch, planned[n]));
        OthersKept(old(slots), before, Ids(planned, n), planned[n], slots[planned[n]]);
        made := made + {slots[planned[n]]};
      }
    }

    /** _mark_cold after an unload: a failed slot stays failed. */
    method MarkCold(planned: seq<SlotId>)
      requires forall i | 0 <= i < |planned| :: planned[i] in states
      modifies this`states
      ensures states.Keys == old(states).Keys
      ensures forall id | id in states :: states[id] == if id in planned && !old(states)[id].Failed? then Cold else old(states)[id]
    {
      var n := 0;
      while n < |planned|
        invariant 0 <= n <= |planned| && states.Keys == old(states).Keys
        invariant forall id | id in states ::
                    states[id] == if id in planned[..n] && !old(states)[id].Failed? then Cold else old(states)[id]
      {
        if !states[planned[n]].Failed? {
          states := states[planned[n] := Cold];
        }
        n := n + 1;
      }
      assert planned[..n] == planned;
    }
  }
}
