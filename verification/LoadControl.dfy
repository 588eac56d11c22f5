/** The await-free segments of LoadController (llama/load_controller.py) and ActivityTracker (app.py). */
module LoadControl {
  type Time = int

  /** The residency fields. A segment of `ensure_loaded` or `_reap_once` runs without an await inside it. */
  datatype Load = Load(loaded: bool, loading: bool, unloading: bool, lastActivity: Time)

  predicate Resident(l: Load) {
    l.loaded && !l.unloading
  }

  function Touched(l: Load, now: Time): Load {
    l.(lastActivity := now)
  }

  /** ensure_loaded once it holds the lock: resident after all, or the warm-up starts. */
  function EnsureUnderLock(l: Load, now: Time): Load {
    if Resident(l) then Touched(l, now) else l.(loading := true)
  }

  /** start_all returned, or raised. */
  function Warmed(l: Load, ok: bool, now: Time): Load {
    if ok then l.(loaded := true, loading := false, lastActivity := now) else l.(loading := false)
  }

  /** The reaper's check before it asks for the lock. */
  predicate MayReap(l: Load, busy: bool, window: Time, now: Time) {
    l.loaded && !l.loading && !l.unloading && !busy && now - l.lastActivity >= window
  }

  /** The reaper's second check, under the lock. */
  predicate MustSpare(l: Load, busy: bool, window: Time, now: Time) {
    !l.loaded || busy || now - l.lastActivity < window
  }

  function ReapUnderLock(l: Load, busy: bool, window: Time, now: Time): Load {
    if MustSpare(l, busy, window, now) then l else l.(unloading := true)
  }

  /** shutdown returned, or raised. */
  function Unloaded(l: Load, ok: bool): Load {
    l.(loaded := l.loaded && !ok, unloading := false)
  }

  datatype Reported = Cold | Loading | Ready | IdleUnloading

  class LoadController {
    var loaded: bool
    var loading: bool
    var unloading: bool
    var lastActivity: Time

    constructor (now: Time)
      ensures View() == Load(false, false, false, now)
    {
      loaded, loading, unloading, lastActivity := false, false, false, now;
    }

    function View(): Load
      reads this
    {
      Load(loaded, loading, unloading, lastActivity)
    }

    /** What /v1/system shows: never "ready" while an unload or a warm-up is in progress. */
    method State() returns (r: Reported)
      ensures r == IdleUnloading <==> unloading
      ensures r == Loading <==> loading && !unloading
      ensures r == Ready <==> loaded && !loading && !unloading
      ensures r == Cold <==> !loaded && !loading && !unloading
    {
      if unloading {
        return IdleUnloading;
      }
      if loading {
        return Loading;
      }
      r := if loaded then Ready else Cold;
    }

    /** The lock-free path: true when the caller may go on without the lock. */
    method EnsureFast(now: Time) returns (resident: bool)
      modifies this
      ensures resident == (old(loaded) && !old(unloading))
      ensures lastActivity == if resident then now else old(lastActivity)
      ensures unchanged(`loaded) && unchanged(`loading) && unchanged(`unloading)
      ensures View() == if Resident(old(View())) then Touched(old(View()), now) else old(View())
    {
      resident := loaded && !unloading;
      if resident {
        lastActivity := now;
      }
    }

    /** The segment after acquiring the lock: false when the caller now warms the loadout. */
    method EnsureLocked(now: Time) returns (resident: bool)
      modifies this
      ensures resident == (old(loaded) && !old(unloading))
      ensures if resident then lastActivity == now && loading == old(loading) else lastActivity == old(lastActivity) && loading
      ensures unchanged(`loaded) && unchanged(`unloading)
      ensures View() == EnsureUnderLock(old(View()), now)
    {
      resident := loaded && !unloading;
      if resident {
        lastActivity := now;
      } else {
        loading := true;
      }
    }

    method FinishWarm(ok: bool, now: Time)
      modifies this
      ensures if ok then loaded && lastActivity == now else loaded == old(loaded) && lastActivity == old(lastActivity)
      ensures !loading && unchanged(`unloading)
      ensures View() == Warmed(old(View()), ok, now)
    {
      if ok {
        loaded := true;
        lastActivity := now;
      }
      loading := false;
    }

    method ReapPrecheck(busy: bool, window: Time, now: Time) returns (go: bool)
      ensures go <==> loaded && !loading && !unloading && !busy && now - lastActivity >= window
      ensures go == MayReap(View(), busy, window, now)
    {
      if !loaded || loading || unloading {
        return false;
      }
      if busy {
        return false;
      }
      go := !(now - lastActivity < window);
    }

    method ReapLocked(busy: bool, window: Time, now: Time) returns (go: bool)
      modifies this
      ensures go <==> old(loaded) && !busy && now - old(lastActivity) >= window
      ensures unloading == (old(unloading) || go) && unchanged(`loaded) && unchanged(`loading) && unchanged(`lastActivity)
      ensures go == !MustSpare(old(View()), busy, window, now)
      ensures View() == ReapUnderLock(old(View()), busy, window, now)
    {
      if !loaded || busy {
        return false;
      }
      if now - lastActivity < window {
        return false;
      }
      unloading := true;
      go := true;
    }

    method FinishUnload(ok: bool)
      modifies this
      ensures !unloading && loaded == (old(loaded) && !ok) && unchanged(`loading) && unchanged(`lastActivity)
      ensures View() == Unloaded(old(View()), ok)
    {
      if ok {
        loaded := false;
      }
      unloading := false;
    }

    method Touch(now: Time)
      modifies this
      ensures lastActivity == now && unchanged(`loaded) && unchanged(`loading) && unchanged(`unloading)
      ensures View() == Touched(old(View()), now)
    {
      lastActivity := now;
    }
  }

  function Lowered(count: nat): nat {
    if count == 0 then 0 else count - 1
  }

  class ActivityTracker {
    var count: nat

    constructor ()
      ensures count == 0
    {
      count := 0;
    }

    predicate Busy()
      reads this
    {
      count > 0
    }

    method Begin()
      modifies this
      ensures count == old(count) + 1
    {
      count := count + 1;
    }

    /** True when the idle callbacks fire: a deferred commit, then a touch of the idle timer. */
    method End() returns (drained: bool)
      modifies this
      ensures count == if old(count) > 0 then old(count) - 1 else 0
      ensures drained == !Busy()
    {
      if count > 0 {
        count := count - 1;
      }
      drained := count == 0;
    }
  }
}
