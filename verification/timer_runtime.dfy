/**
 * The foreign timer service behind `slint_timer_start`, `slint_timer_stop`,
 * `slint_timer_restart`, `slint_timer_running` and `slint_timer_destroy`.
 *
 * Its implementation lives in the native toolkit and is not part of this
 * model; the bodies below are the behaviour the timer handles rely on: a table
 * from id to (mode, duration, running), where starting with id 0 (or an id
 * the table does not hold) allocates a fresh non-zero id and starting with a
 * held id reuses it.
 */
module TimerRuntime {

  /** `uint64_t`, the duration in milliseconds. */
  type U64 = x: int | 0 <= x < 0x1_0000_0000_0000_0000

  datatype TimerMode = SingleShot | Repeated

  datatype TimerEntry = TimerEntry(mode: TimerMode, duration: U64, running: bool)

  class Runtime {
    var timers: map<nat, TimerEntry>
    var nextId: nat
    /** Every `slint_timer_destroy` call, in order. */
    var destroyCalls: seq<nat>

    ghost predicate Valid()
      reads this
    {
      0 < nextId && forall id | id in timers :: 0 < id < nextId
    }

    constructor ()
      ensures Valid()
      ensures timers == map[] && destroyCalls == []
    {
      timers := map[];
      nextId := 1;
      destroyCalls := [];
    }

    /** `slint_timer_start(id, mode, duration, …)`: (re)starts a timer and returns its id. */
    method Start(id: nat, mode: TimerMode, duration: U64) returns (r: nat)
      requires Valid()
      modifies this
      ensures Valid()
      ensures r != 0
      ensures id != 0 && id in old(timers) ==> r == id
      ensures !(id != 0 && id in old(timers)) ==> r !in old(timers)
      ensures timers == old(timers)[r := TimerEntry(mode, duration, true)]
      ensures destroyCalls == old(destroyCalls)
    {
      if id != 0 && id in timers {
        r := id;
      } else {
        r := nextId;
        nextId := nextId + 1;
      }
      timers := timers[r := TimerEntry(mode, duration, true)];
    }

    /** `slint_timer_stop(id)`. */
    method Stop(id: nat)
      requires Valid()
      modifies this
      ensures Valid()
      ensures timers == if id in old(timers) then old(timers)[id := old(timers)[id].(running := false)] else old(timers)
      ensures destroyCalls == old(destroyCalls)
    {
      if id in timers {
        timers := timers[id := timers[id].(running := false)];
      }
    }

    /** `slint_timer_restart(id)`. */
    method Restart(id: nat)
      requires Valid()
      modifies this
      ensures Valid()
      ensures timers == if id in old(timers) then old(timers)[id := old(timers)[id].(running := true)] else old(timers)
      ensures destroyCalls == old(destroyCalls)
    {
      if id in timers {
        timers := timers[id := timers[id].(running := true)];
      }
    }

    /** `slint_timer_destroy(id)`. */
    method Destroy(id: nat)
      requires Valid()
      modifies this
      ensures Valid()
      ensures timers == old(timers) - {id}
      ensures destroyCalls == old(destroyCalls) + [id]
    {
      timers := timers - {id};
      destroyCalls := destroyCalls + [id];
    }

    /** `slint_timer_running(id)`. */
    method Running(id: nat) returns (b: bool)
      ensures b <==> id in timers && timers[id].running
    {
      b := id in timers && timers[id].running;
    }
  }
}
