/**
 * The actor `AsyncChannel.Buffer`: a one-shot channel with three states and a
 * dictionary of suspended waiters keyed by a UUID.
 *
 * A continuation is identified by a serial number: each `value` call creates
 * its own, so one task awaiting twice hands over two. Every call to `resume`
 * is recorded in the log `resumed`, so that the object invariant can say
 * that no continuation is ever resumed twice and that every value delivered is
 * the one value the channel accepted.
 */
module AsyncChannel {
  import opened Optional

  /** The key of a stored waiter (a `UUID` in the source). */
  type Uuid = nat

  /** A suspended `CheckedContinuation`: one per `value` call, told apart by its serial number. */
  datatype Continuation = Continuation(serial: nat)

  /** How a continuation was resumed: `resume(returning:)` or `resume(throwing: CancellationError())`. */
  datatype Resumption<T> = Returning(value: T) | ThrowingCancellation

  /** One call of `resume` on one continuation. */
  datatype Resume<T> = Resume(continuation: Continuation, outcome: Resumption<T>)

  /** `Buffer.State` with its three pattern-matching accessors. */
  datatype State<T> = Pending | Fulfilled(value: T) | Cancelled {

    /** `isPending`: true exactly in state `pending`. */
    predicate IsPending(): (r: bool)
      ensures r <==> this == Pending
    {
      Pending?
    }

    /** `isCancelled`: true exactly in state `cancelled`. */
    predicate IsCancelled(): (r: bool)
      ensures r <==> this == Cancelled
    {
      Cancelled?
    }

    /** The cached value, present exactly when the channel was fulfilled. */
    function Value(): (r: Option<T>)
      ensures r.Some? <==> Fulfilled?
      ensures r.Some? ==> this == Fulfilled(r.value)
    {
      if Fulfilled? then Some(value) else None
    }
  }

  /** The three accessors tell the states apart: exactly one of them holds. */
  lemma StateAccessorsPartition<T>(s: State<T>)
    ensures s.IsPending() <==> !s.IsCancelled() && s.Value().None?
    ensures s.IsCancelled() ==> !s.IsPending() && s.Value().None?
    ensures s.Value().Some? ==> !s.IsPending() && !s.IsCancelled()
  {
  }

  /** The continuations a log resumes. */
  ghost function ResumedSet<T>(log: seq<Resume<T>>): (r: set<Continuation>) {
    set i | 0 <= i < |log| :: log[i].continuation
  }

  /** No continuation appears twice in the log: each was resumed at most once. */
  ghost predicate AtMostOnce<T>(log: seq<Resume<T>>) {
    forall i, j | 0 <= i < j < |log| :: log[i].continuation != log[j].continuation
  }

  /** No continuation is stored under two ids. */
  ghost predicate Injective(m: map<Uuid, Continuation>) {
    forall a, b | a in m && b in m && a != b :: m[a] != m[b]
  }

  /** A one-entry log resumes exactly its continuation. */
  lemma ResumedSingleton<T>(r: Resume<T>)
    ensures ResumedSet([r]) == {r.continuation}
  {
    assert [r][0] == r;
  }

  /**
   * Appending a batch that resumes every stored waiter once keeps each
   * continuation resumed at most once and accounts for all of them.
   */
  lemma FlushAccounts<T>(log: seq<Resume<T>>, m: map<Uuid, Continuation>, batch: seq<Resume<T>>, outcome: Resumption<T>)
    requires AtMostOnce(log) && Injective(m)
    requires m.Values !! ResumedSet(log)
    requires ResumesEachOnce(batch, m.Values, outcome)
    ensures AtMostOnce(log + batch)
    ensures ResumedSet(log + batch) == m.Values + ResumedSet(log)
    ensures |log + batch| == |log| + |m|
    ensures (log + batch)[..|log|] == log && (log + batch)[|log|..] == batch
    ensures forall i | |log| <= i < |log + batch| :: (log + batch)[i].outcome == outcome
  {
    ResumeCountMatchesWaiters(batch, m, outcome);
    AtMostOnceConcat(log, batch);
    assert (log + batch)[..|log|] == log;
    assert (log + batch)[|log|..] == batch;
  }

  /** Storing a continuation under a new id adds exactly it to the stored ones. */
  lemma StoreAddsValue(m: map<Uuid, Continuation>, id: Uuid, k: Continuation)
    requires id !in m
    ensures m[id := k].Values == m.Values + {k}
  {
    assert k == m[id := k][id];
    forall c | c in m.Values ensures c in m[id := k].Values {
      var j :| j in m && m[j] == c;
      assert m[id := k][j] == c;
    }
  }

  /** Forgetting an id of an injective map removes exactly its continuation. */
  lemma ForgetRemovesValue(m: map<Uuid, Continuation>, id: Uuid)
    requires Injective(m) && id in m
    ensures (m - {id}).Values == m.Values - {m[id]}
  {
    forall c | c in m.Values - {m[id]} ensures c in (m - {id}).Values {
      var j :| j in m && m[j] == c;
      assert (m - {id})[j] == c;
    }
  }

  /** `batch` resumes each continuation of `ks` exactly once and nothing else, all with `outcome`. */
  ghost predicate ResumesEachOnce<T>(batch: seq<Resume<T>>, ks: set<Continuation>, outcome: Resumption<T>) {
    && AtMostOnce(batch)
    && ResumedSet(batch) == ks
    && forall i | 0 <= i < |batch| :: batch[i].outcome == outcome
  }

  /** Two logs over disjoint continuations concatenate into one that still resumes each at most once. */
  lemma AtMostOnceConcat<T>(a: seq<Resume<T>>, b: seq<Resume<T>>)
    requires AtMostOnce(a) && AtMostOnce(b)
    requires ResumedSet(a) !! ResumedSet(b)
    ensures AtMostOnce(a + b)
    ensures ResumedSet(a + b) == ResumedSet(a) + ResumedSet(b)
  {
    var ab := a + b;
    forall i, j | 0 <= i < j < |ab| ensures ab[i].continuation != ab[j].continuation {
      if j >= |a| && i < |a| {
        assert ab[i].continuation in ResumedSet(a);
        assert ab[j] == b[j - |a|];
        assert ab[j].continuation in ResumedSet(b);
      } else if i >= |a| {
        assert ab[i] == b[i - |a|] && ab[j] == b[j - |a|];
      }
    }
    forall k | k in ResumedSet(ab) ensures k in ResumedSet(a) + ResumedSet(b) {
      var i :| 0 <= i < |ab| && ab[i].continuation == k;
      if i >= |a| { assert ab[i] == b[i - |a|]; }
    }
    forall k | k in ResumedSet(a) + ResumedSet(b) ensures k in ResumedSet(ab) {
      if k in ResumedSet(a) {
        var i :| 0 <= i < |a| && a[i].continuation == k;
        assert ab[i] == a[i];
      } else {
        var i :| 0 <= i < |b| && b[i].continuation == k;
        assert ab[|a| + i] == b[i];
      }
    }
  }

  /** A log that resumes each continuation at most once has exactly as many entries as continuations. */
  lemma {:induction false} AtMostOnceCount<T>(log: seq<Resume<T>>)
    requires AtMostOnce(log)
    ensures |ResumedSet(log)| == |log|
  {
    if log != [] {
      var rest := log[1..];
      assert AtMostOnce(rest) by {
        forall i, j | 0 <= i < j < |rest| ensures rest[i].continuation != rest[j].continuation {
          assert rest[i] == log[i + 1] && rest[j] == log[j + 1];
        }
      }
      AtMostOnceCount(rest);
      assert ResumedSet(log) == {log[0].continuation} + ResumedSet(rest) by {
        forall k | k in ResumedSet(log) ensures k in {log[0].continuation} + ResumedSet(rest) {
          var i :| 0 <= i < |log| && log[i].continuation == k;
          if i > 0 { assert rest[i - 1] == log[i]; }
        }
        forall k | k in ResumedSet(rest) ensures k in ResumedSet(log) {
          var i :| 0 <= i < |rest| && rest[i].continuation == k;
          assert log[i + 1] == rest[i];
        }
      }
      assert log[0].continuation !in ResumedSet(rest) by {
        forall i | 0 <= i < |rest| ensures rest[i].continuation != log[0].continuation {
          assert rest[i] == log[i + 1];
        }
      }
    }
  }

  /** A dictionary that stores no continuation twice has as many distinct waiters as keys. */
  lemma {:induction false} InjectiveValuesCount(m: map<Uuid, Continuation>)
    requires Injective(m)
    ensures |m.Values| == |m|
    decreases |m|
  {
    if m != map[] {
      var id :| id in m;
      var rest := m - {id};
      assert Injective(rest);
      InjectiveValuesCount(rest);
      assert m.Values == rest.Values + {m[id]} by {
        forall k | k in m.Values ensures k in rest.Values + {m[id]} {
          var j :| j in m && m[j] == k;
          if j != id { assert rest[j] == k; }
        }
      }
      assert m[id] !in rest.Values;
      assert m.Keys == rest.Keys + {id};
    }
  }

  /**
   * The number of resumptions in a batch equals the number of stored waiters:
   * nobody is skipped and nobody is resumed twice.
   */
  lemma ResumeCountMatchesWaiters<T>(batch: seq<Resume<T>>, m: map<Uuid, Continuation>, outcome: Resumption<T>)
    requires Injective(m)
    requires ResumesEachOnce(batch, m.Values, outcome)
    ensures |batch| == |m|
  {
    AtMostOnceCount(batch);
    InjectiveValuesCount(m);
  }

  /**
   * `continuations.values.forEach { $0.resume(…) }`: resumes every stored
   * waiter once with `outcome`. The dictionary's iteration order is not
   * specified, so neither is the order of the batch.
   */
  method ResumeAll<T>(continuations: map<Uuid, Continuation>, outcome: Resumption<T>) returns (batch: seq<Resume<T>>)
    requires Injective(continuations)
    ensures ResumesEachOnce(batch, continuations.Values, outcome)
  {
    batch := [];
    var remaining := continuations.Keys;
    ghost var done: set<Uuid> := {};
    while remaining != {}
      invariant remaining !! done && remaining + done == continuations.Keys
      invariant AtMostOnce(batch)
      invariant ResumedSet(batch) == set id | id in done :: continuations[id]
      invariant forall i | 0 <= i < |batch| :: batch[i].outcome == outcome
      decreases remaining
    {
      var id :| id in remaining;
      var k := continuations[id];
      assert k !in ResumedSet(batch);
      assert ResumedSet([Resume(k, outcome)]) == {k} by {
        assert [Resume(k, outcome)][0].continuation == k;
      }
      AtMostOnceConcat(batch, [Resume(k, outcome)]);
      assert (set j | j in done + {id} :: continuations[j]) == (set j | j in done :: continuations[j]) + {k};
      batch := batch + [Resume(k, outcome)];
      remaining := remaining - {id};
      done := done + {id};
    }
    assert continuations.Values == set id | id in done :: continuations[id];
  }

  /** The buffer's invariant, over the values of its fields. */
  ghost predicate Consistent<T>(continuations: map<Uuid, Continuation>, state: State<T>, resumed: seq<Resume<T>>,
                                issued: set<Continuation>, sent: Option<T>)
  {
    && Injective(continuations)
    // no waiter is lost: every continuation handed over is stored or resumed
    && issued == continuations.Values + ResumedSet(resumed)
    // a stored waiter has not been resumed yet
    && continuations.Values !! ResumedSet(resumed)
    // at-most-once resumption
    && AtMostOnce(resumed)
    // once the channel leaves `pending` nobody waits in the dictionary
    && (!state.IsPending() ==> continuations == map[])
    // single fulfilment: every value delivered is the one value accepted
    && (state.IsPending() ==> sent == None)
    && (state.Fulfilled? ==> sent == Some(state.value))
    && (forall i | 0 <= i < |resumed| && resumed[i].outcome.Returning? :: sent == Some(resumed[i].outcome.value))
  }

  /**
   * Resuming every stored waiter with `outcome` and emptying the dictionary
   * keeps the invariant, for the state and accepted value that follow.
   */
  lemma FlushKeepsConsistent<T>(m: map<Uuid, Continuation>, state: State<T>, log: seq<Resume<T>>,
                                issued: set<Continuation>, sent: Option<T>,
                                batch: seq<Resume<T>>, outcome: Resumption<T>, state': State<T>, sent': Option<T>)
    requires Consistent(m, state, log, issued, sent)
    requires ResumesEachOnce(batch, m.Values, outcome)
    requires !state'.IsPending() && (state'.Fulfilled? ==> sent' == Some(state'.value))
    requires forall i | 0 <= i < |log| && log[i].outcome.Returning? :: sent' == Some(log[i].outcome.value)
    requires outcome.Returning? ==> sent' == Some(outcome.value)
    ensures Consistent(map[], state', log + batch, issued, sent')
    ensures ResumedSet(log + batch) == issued
    ensures |log + batch| == |log| + |m|
    ensures (log + batch)[..|log|] == log && (log + batch)[|log|..] == batch
  {
    FlushAccounts(log, m, batch, outcome);
    var empty: map<Uuid, Continuation> := map[];
    assert empty.Values == {};
    var all := log + batch;
    forall i | 0 <= i < |all| && all[i].outcome.Returning? ensures sent' == Some(all[i].outcome.value) {
      if i >= |log| {
        assert all[i] == batch[i - |log|];
      }
    }
  }

  /** The channel's internal buffer (an actor: its methods run one at a time). */
  class Buffer<T> {
    var continuations: map<Uuid, Continuation>
    var state: State<T>
    /** Every `resume` call so far, in order. */
    var resumed: seq<Resume<T>>
    /** Every continuation ever handed to the buffer. */
    ghost var issued: set<Continuation>
    /** The one value `send` accepted, if any. */
    ghost var sent: Option<T>

    ghost predicate Valid()
      reads this
    {
      Consistent(continuations, state, resumed, issued, sent)
    }

    constructor ()
      ensures Valid()
      ensures state == Pending && continuations == map[]
      ensures resumed == [] && issued == {} && sent == None
    {
      continuations := map[];
      state := Pending;
      resumed := [];
      issued := {};
      sent := None;
    }

    /**
     * Registers a waiter: resumed at once with the cached value when fulfilled,
     * otherwise stored under `id`, a fresh UUID drawn per `value` call.
     * Registering on a cancelled channel is a contract violation.
     */
    method AddContinuationIfNeeded(continuation: Continuation, id: Uuid)
      requires Valid()
      requires !state.IsCancelled()
      requires continuation !in issued
      requires id !in continuations
      modifies this
      ensures Valid()
      ensures state == old(state) && sent == old(sent)
      ensures issued == old(issued) + {continuation}
      ensures old(state).Value().Some? ==>
                continuations == old(continuations) &&
                resumed == old(resumed) + [Resume(continuation, Returning(old(state).value))]
      ensures old(state).Value().None? ==>
                continuations == old(continuations)[id := continuation] &&
                resumed == old(resumed)
    {
      issued := issued + {continuation};
      var value := state.Value();
      if value.Some? {
        ResumedSingleton(Resume(continuation, Returning(value.value)));
        AtMostOnceConcat(resumed, [Resume(continuation, Returning(value.value))]);
        resumed := resumed + [Resume(continuation, Returning(value.value))];
        return;
      }
      StoreAddsValue(continuations, id, continuation);
      continuations := continuations[id := continuation];
    }

    /** Resumes the waiter stored under `id` with a cancellation error and forgets it. */
    method CancelContinuation(id: Uuid)
      requires Valid()
      modifies this
      ensures Valid()
      ensures state == old(state) && sent == old(sent) && issued == old(issued)
      ensures continuations == old(continuations) - {id}
      ensures id in old(continuations) ==>
                resumed == old(resumed) + [Resume(old(continuations)[id], ThrowingCancellation)]
      ensures id !in old(continuations) ==> resumed == old(resumed)
    {
      if id in continuations {
        var k := continuations[id];
        ForgetRemovesValue(continuations, id);
        ResumedSingleton<T>(Resume(k, ThrowingCancellation));
        AtMostOnceConcat(resumed, [Resume(k, ThrowingCancellation)]);
        resumed := resumed + [Resume(k, ThrowingCancellation)];
      } else {
        assert continuations - {id} == continuations;
      }
      continuations := continuations - {id};
    }

    /**
     * Fulfils a pending channel with `v` and resumes every stored waiter with
     * it; a no-op on a cancelled channel. A second value is a contract violation.
     */
    method Send(v: T)
      requires Valid()
      requires state.IsCancelled() || state.IsPending()
      modifies this
      ensures Valid()
      ensures issued == old(issued)
      ensures old(state).IsCancelled() ==>
                state == old(state) && continuations == old(continuations) &&
                resumed == old(resumed) && sent == old(sent)
      ensures old(state).IsPending() ==>
                state == Fulfilled(v) && sent == Some(v) && continuations == map[] &&
                |resumed| == |old(resumed)| + |old(continuations)| &&
                resumed[..|old(resumed)|] == old(resumed) &&
                ResumesEachOnce(resumed[|old(resumed)|..], old(continuations).Values, Returning(v)) &&
                ResumedSet(resumed) == issued
    {
      if state.IsCancelled() {
        return;
      }
      assert forall i | 0 <= i < |resumed| :: !resumed[i].outcome.Returning?;
      var batch := ResumeAll(continuations, Returning(v));
      FlushKeepsConsistent(continuations, state, resumed, issued, sent, batch, Returning(v), Fulfilled(v), Some(v));
      state := Fulfilled(v);
      sent := Some(v);
      resumed := resumed + batch;
      continuations := map[];
    }

    /** Moves to `cancelled` from any state and resumes every stored waiter with a cancellation error. */
    method Cancel()
      requires Valid()
      modifies this
      ensures Valid()
      ensures issued == old(issued) && sent == old(sent)
      ensures state == Cancelled && continuations == map[]
      ensures |resumed| == |old(resumed)| + |old(continuations)|
      ensures resumed[..|old(resumed)|] == old(resumed)
      ensures ResumesEachOnce(resumed[|old(resumed)|..], old(continuations).Values, ThrowingCancellation)
      ensures ResumedSet(resumed) == issued
    {
      var batch := ResumeAll(continuations, ThrowingCancellation);
      FlushKeepsConsistent(continuations, state, resumed, issued, sent, batch, ThrowingCancellation, Cancelled, sent);
      state := Cancelled;
      resumed := resumed + batch;
      continuations := map[];
    }
  }

  /**
   * A waiter that registers after `send` receives the cached value at once,
   * just as one that was waiting when the value arrived.
   */
  method LateJoinReceivesCachedValue<T>(v: T) returns (log: seq<Resume<T>>, waiting: nat)
    ensures log == [Resume(Continuation(0), Returning(v)), Resume(Continuation(1), Returning(v))]
    ensures waiting == 0
  {
    var buffer := new Buffer<T>();
    buffer.AddContinuationIfNeeded(Continuation(0), 10);
    assert buffer.continuations == map[10 := Continuation(0)] && buffer.resumed == [];
    buffer.Send(v);
    ghost var batch := buffer.resumed[0..];
    assert |batch| == 1 && ResumedSet(batch) == {Continuation(0)};
    assert buffer.resumed == [Resume(Continuation(0), Returning(v))];
    buffer.AddContinuationIfNeeded(Continuation(1), 11);
    log := buffer.resumed;
    waiting := |buffer.continuations|;
  }

  /**
   * Cancelling before any value arrives resumes the waiter with a cancellation
   * error; a later `send` then changes nothing.
   */
  method CancelBeforeSend<T>(v: T) returns (log: seq<Resume<T>>, final: State<T>)
    ensures log == [Resume(Continuation(0), ThrowingCancellation)]
    ensures final == Cancelled
  {
    var buffer := new Buffer<T>();
    buffer.AddContinuationIfNeeded(Continuation(0), 10);
    buffer.Cancel();
    buffer.Send(v);
    log := buffer.resumed;
    final := buffer.state;
  }
}
