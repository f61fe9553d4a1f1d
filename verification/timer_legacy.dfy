/**
 * The earlier `SlintTimer` revision of Sources/Timer.swift: the same handle
 * and guards as the Core revision, without `drop`. Its `start` also asks the
 * closure wrapper to hold on to the handle (`holdOntoThis`), which has no
 * effect on the state modelled here.
 */
module SlintTimerLegacy {
  import opened Optional
  import opened TimerRuntime

  class SlintTimer {
    /** The process-wide foreign timer service. */
    const runtime: Runtime
    var id: Option<nat>

    /** A held id names a live foreign timer. */
    ghost predicate Valid()
      reads this, runtime
    {
      runtime.Valid() && (id.Some? ==> id.value != 0 && id.value in runtime.timers)
    }

    constructor (runtime: Runtime)
      requires runtime.Valid()
      ensures Valid()
      ensures this.runtime == runtime && id == None
    {
      this.runtime := runtime;
      id := None;
    }

    /**
     * `start`: passes the held id, or 0 when there is none, to the foreign
     * start call and keeps the id it returns.
     */
    method Start(mode: TimerMode, duration: U64)
      requires Valid()
      modifies this, runtime
      ensures Valid()
      ensures id.Some?
      ensures old(id).Some? ==> id == old(id)
      ensures old(id).None? ==> id.value !in old(runtime.timers)
      ensures runtime.timers == old(runtime.timers)[id.value := TimerEntry(mode, duration, true)]
      ensures runtime.destroyCalls == old(runtime.destroyCalls)
    {
      var r := runtime.Start(id.GetOr(0), mode, duration);
      id := Some(r);
    }

    /** `willRun(after:)`: a single-shot timer firing after `duration` milliseconds. */
    method WillRunAfter(duration: U64)
      requires Valid()
      modifies this, runtime
      ensures Valid()
      ensures id.Some? && (old(id).Some? ==> id == old(id))
      ensures old(id).None? ==> id.value !in old(runtime.timers)
      ensures runtime.timers == old(runtime.timers)[id.value := TimerEntry(SingleShot, duration, true)]
      ensures runtime.destroyCalls == old(runtime.destroyCalls)
    {
      Start(SingleShot, duration);
    }

    /** `willRun(every:)`: a repeating timer firing every `duration` milliseconds. */
    method WillRunEvery(duration: U64)
      requires Valid()
      modifies this, runtime
      ensures Valid()
      ensures id.Some? && (old(id).Some? ==> id == old(id))
      ensures old(id).None? ==> id.value !in old(runtime.timers)
      ensures runtime.timers == old(runtime.timers)[id.value := TimerEntry(Repeated, duration, true)]
      ensures runtime.destroyCalls == old(runtime.destroyCalls)
    {
      Start(Repeated, duration);
    }

    /** `stop`: stops the held timer, keeping its id; nothing without one. */
    method Stop()
      requires Valid()
      modifies runtime
      ensures Valid()
      ensures old(id).None? ==> runtime.timers == old(runtime.timers)
      ensures old(id).Some? ==> runtime.timers == old(runtime.timers)[id.value := old(runtime.timers)[id.value].(running := false)]
      ensures runtime.destroyCalls == old(runtime.destroyCalls)
    {
      if id.Some? {
        runtime.Stop(id.value);
      }
    }

    /** `restart`: restarts the held timer under the same id; nothing without one. */
    method Restart()
      requires Valid()
      modifies runtime
      ensures Valid()
      ensures old(id).None? ==> runtime.timers == old(runtime.timers)
      ensures old(id).Some? ==> runtime.timers == old(runtime.timers)[id.value := old(runtime.timers)[id.value].(running := true)]
      ensures runtime.destroyCalls == old(runtime.destroyCalls)
    {
      if id.Some? {
        runtime.Restart(id.value);
      }
    }

    /** `running`: false without an id, otherwise what the foreign service reports for it. */
    method Running() returns (r: bool)
      requires Valid()
      ensures id.None? ==> !r
      ensures id.Some? ==> (r <==> runtime.timers[id.value].running)
    {
      if id.Some? {
        r := runtime.Running(id.value);
      } else {
        r := false;
      }
    }

    /** `deinit`: destroys the foreign timer exactly when an id is held. */
    method Deinit()
      requires Valid()
      modifies runtime
      ensures runtime.destroyCalls == old(runtime.destroyCalls) + (if id.Some? then [id.value] else [])
      ensures id.Some? ==> runtime.timers == old(runtime.timers) - {id.value}
      ensures id.None? ==> runtime.timers == old(runtime.timers)
    {
      if id.Some? {
        runtime.Destroy(id.value);
      }
    }
  }

  /**
   * A timer that was started, stopped and restarted keeps the id it was given
   * and reports running again.
   */
  method RestartKeepsIdentity(duration: U64) returns (sameId: bool, stopped: bool, running: bool)
    ensures sameId && stopped && running
  {
    var runtime := new Runtime();
    var timer := new SlintTimer(runtime);
    timer.WillRunAfter(duration);
    var first := timer.id;
    timer.Stop();
    var runningAfterStop := timer.Running();
    timer.Restart();
    running := timer.Running();
    sameId := first.Some? && timer.id == first;
    stopped := !runningAfterStop;
  }
}
