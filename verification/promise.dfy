/**
 * The actor `Promise`: a one-shot value with a `pending`/`finished(Result)`
 * status and an append-only waiting room. Assigning `status` runs its
 * `didSet` observer, which calls `resolve`.
 *
 * A waiter is identified by a serial number, one per `value` call; every
 * `resume` is recorded in the log `resumed`.
 */
module PromiseActor {
  import opened Optional

  /** A suspended `CheckedContinuation<Result, Never>`: one per `value` call, told apart by its serial number. */
  datatype Waiter = Waiter(serial: nat)

  datatype Result<V> = Cancelled | Successful(value: V)

  datatype Status<V> = Pending | Finished(result: Result<V>)

  /** One call of `resume(returning:)`. */
  datatype Wake<V> = Wake(waiter: Waiter, result: Result<V>)

  /** No waiter appears twice in the room: each `value` call suspends a new continuation. */
  ghost predicate Distinct(room: seq<Waiter>) {
    forall i, j | 0 <= i < j < |room| :: room[i] != room[j]
  }

  /** No waiter is woken twice. */
  ghost predicate WokenAtMostOnce<V>(wakes: seq<Wake<V>>) {
    forall i, j | 0 <= i < j < |wakes| :: wakes[i].waiter != wakes[j].waiter
  }

  /** What `for task in waitingRoom { task.resume(returning: result) }` does: one wake per waiter, in room order. */
  function Wakes<V>(room: seq<Waiter>, result: Result<V>): (r: seq<Wake<V>>)
    ensures |r| == |room|
    ensures forall i | 0 <= i < |r| :: r[i].waiter == room[i] && r[i].result == result
  {
    seq(|room|, i requires 0 <= i < |room| => Wake(room[i], result))
  }

  /** Resolving a room of distinct waiters wakes each of them at most once. */
  lemma WakesEachOnce<V>(room: seq<Waiter>, result: Result<V>)
    requires Distinct(room)
    ensures WokenAtMostOnce(Wakes(room, result))
  {
  }

  /**
   * `resolve` never empties the room, so resolving a non-empty room twice
   * wakes its first waiter twice, which a checked continuation forbids.
   */
  lemma ResolvingTwiceWakesAgain<V>(room: seq<Waiter>, first: Result<V>, second: Result<V>)
    requires room != []
    ensures !WokenAtMostOnce(Wakes(room, first) + Wakes(room, second))
  {
    var both := Wakes(room, first) + Wakes(room, second);
    assert both[0].waiter == room[0] == both[|room|].waiter;
  }

  /** The body of `resolve`'s loop: wakes the waiters in room order. */
  method ResumeWaitingRoom<V>(room: seq<Waiter>, result: Result<V>) returns (batch: seq<Wake<V>>)
    ensures |batch| == |room|
    ensures forall i | 0 <= i < |room| :: batch[i] == Wake(room[i], result)
  {
    batch := [];
    for i := 0 to |room|
      invariant |batch| == i
      invariant forall j | 0 <= j < i :: batch[j] == Wake(room[j], result)
    {
      batch := batch + [Wake(room[i], result)];
    }
  }

  class Promise<V> {
    var waitingRoom: seq<Waiter>
    var status: Status<V>
    /** Every `resume` call so far, in order. */
    var resumed: seq<Wake<V>>

    ghost predicate Valid()
      reads this
    {
      && Distinct(waitingRoom)
      && (status.Pending? ==> resumed == [])
      // once finished, every waiter in the room has been woken once with the result
      && (status.Finished? ==> resumed == Wakes(waitingRoom, status.result))
      // `fulfill` is the only writer of `status`: `Result.cancelled` is never produced
      && (status.Finished? ==> status.result.Successful?)
    }

    constructor ()
      ensures Valid()
      ensures status == Pending && waitingRoom == [] && resumed == []
    {
      waitingRoom := [];
      status := Pending;
      resumed := [];
    }

    /**
     * Finishes the promise with `value`; the `didSet` observer then resumes the
     * waiting room. A checked continuation traps when resumed twice, so a
     * repeated fulfilment is only allowed while nobody is waiting.
     */
    method Fulfill(value: V)
      requires Valid()
      requires status.Pending? || waitingRoom == []
      modifies this
      ensures Valid()
      ensures status == Finished(Successful(value))
      ensures waitingRoom == old(waitingRoom)
      ensures resumed == old(resumed) + Wakes(waitingRoom, Successful(value))
      ensures WokenAtMostOnce(resumed)
    {
      status := Finished(Successful(value));
      Resolve();
      WakesEachOnce(waitingRoom, Successful(value));
    }

    /** Does nothing while pending; once finished, wakes every waiter in the room with the result. */
    method Resolve()
      modifies this
      ensures status == old(status) && waitingRoom == old(waitingRoom)
      ensures status.Pending? ==> resumed == old(resumed)
      ensures status.Finished? ==> resumed == old(resumed) + Wakes(waitingRoom, status.result)
    {
      match status {
        case Pending =>
          return;
        case Finished(result) =>
          var batch := ResumeWaitingRoom(waitingRoom, result);
          assert batch == Wakes(waitingRoom, result);
          resumed := resumed + batch;
      }
    }

    /**
     * The `value` getter: the stored result when finished (`Some`), otherwise
     * `waiter` joins the end of the room and stays suspended (`None`).
     */
    method Value(waiter: Waiter) returns (immediate: Option<Result<V>>)
      requires Valid()
      requires status.Pending? ==> waiter !in waitingRoom
      modifies this
      ensures Valid()
      ensures status == old(status) && resumed == old(resumed)
      ensures old(status).Pending? ==> immediate == None && waitingRoom == old(waitingRoom) + [waiter]
      ensures old(status).Finished? ==> immediate == Some(old(status).result) && waitingRoom == old(waitingRoom)
    {
      match status {
        case Pending =>
          waitingRoom := waitingRoom + [waiter];
          immediate := None;
        case Finished(result) =>
          immediate := Some(result);
      }
    }
  }

  /**
   * Two tasks wait, the promise is fulfilled, a third task reads the value:
   * the first two are woken in order, the third gets the value without waiting.
   */
  method FulfilScenario<V>(v: V) returns (log: seq<Wake<V>>, late: Option<Result<V>>)
    ensures log == [Wake(Waiter(0), Successful(v)), Wake(Waiter(1), Successful(v))]
    ensures late == Some(Successful(v))
  {
    var p := new Promise<V>();
    var r0 := p.Value(Waiter(0));
    var r1 := p.Value(Waiter(1));
    p.Fulfill(v);
    late := p.Value(Waiter(2));
    log := p.resumed;
  }
}
