/**
 * Sequences of operations on one cancellation pair. The worker and the
 * supervisor act on the shared cells one operation at a time, each operation
 * taken as atomic, so a run of the two threads is a sequence of `Op`s in any
 * order.
 */
module CancellationTraces {
  import opened Cancellation

  /** One atomic operation on the pair, by the worker (`Alive`, `Drop`) or the supervisor. */
  datatype Op = Alive | Interrupt | Stop | Drop(panicking: bool) | IsDone | IsInterrupted

  /** What an operation gives back to its caller. */
  datatype Reply = Unit | Polled(outcome: AliveOutcome) | Answer(value: bool)

  function Apply(s: Signals, op: Op): (Signals, Reply)
  {
    match op
    case Alive => (s, Polled(AliveCheck(s)))
    case Interrupt => (Interrupted(s), Unit)
    case Stop => (Stopped(s), Unit)
    case Drop(panicking) => (Dropped(s, panicking), Unit)
    case IsDone => (s, Answer(Finished(s)))
    case IsInterrupted => (s, Answer(InterruptRaised(s)))
  }

  /** The cells after `ops`, and one reply per operation. */
  function Run(s: Signals, ops: seq<Op>): (r: (Signals, seq<Reply>))
    ensures |r.1| == |ops|
    decreases |ops|
  {
    if ops == [] then (s, [])
    else
      var first := Apply(s, ops[0]);
      var rest := Run(first.0, ops[1..]);
      (rest.0, [first.1] + rest.1)
  }

  /** An interrupt was requested, or the flag was dropped while its thread was unwinding. */
  predicate InterruptRequested(ops: seq<Op>)
  {
    Interrupt in ops || Drop(true) in ops
  }

  /** The flag was dropped, normally or while unwinding. */
  predicate FlagDropped(ops: seq<Op>)
  {
    Drop(false) in ops || Drop(true) in ops
  }

  /** The worker polling `alive()` `n` times in a row. */
  function Polls(n: nat): (ops: seq<Op>)
    ensures |ops| == n
  {
    if n == 0 then [] else [Alive] + Polls(n - 1)
  }

  // ---------------------------------------------------------------------------
  // Single operations

  /** A freshly made pair: not done, not interrupted, and `alive()` returns true. */
  lemma FreshPair()
    ensures !Initial().interrupt && Initial().flagExists
    ensures AliveCheck(Initial()) == Returned(true)
  {
  }

  /** `interrupt()` sets the cell, is idempotent, and makes every later `alive()` abort. */
  lemma InterruptEffect(s: Signals)
    ensures Interrupted(s).interrupt
    ensures Interrupted(Interrupted(s)) == Interrupted(s)
    ensures AliveCheck(Interrupted(s)) == Aborted
    ensures Interrupted(s).flagExists == s.flagExists && Interrupted(s).alive == s.alive
  {
  }

  /**
   * `stop()` never touches `interrupt`; on a live flag it makes a
   * non-interrupted `alive()` return false; after the flag is dropped it is a no-op.
   */
  lemma StopEffect(s: Signals)
    ensures Stopped(s).interrupt == s.interrupt && Stopped(s).flagExists == s.flagExists
    ensures s.flagExists && !s.interrupt ==> AliveCheck(Stopped(s)) == Returned(false)
    ensures !s.flagExists ==> Stopped(s) == s
  {
  }

  /** Dropping while unwinding sets `interrupt`; a normal drop leaves it; both end the flag. */
  lemma DropEffect(s: Signals, panicking: bool)
    ensures Dropped(s, true).interrupt
    ensures Dropped(s, false).interrupt == s.interrupt
    ensures !Dropped(s, panicking).flagExists
  {
  }

  // ---------------------------------------------------------------------------
  // Whole runs

  lemma {:induction false} RunAppend(s: Signals, a: seq<Op>, b: seq<Op>)
    ensures Run(s, a + b).0 == Run(Run(s, a).0, b).0
    ensures Run(s, a + b).1 == Run(s, a).1 + Run(Run(s, a).0, b).1
    decreases |a|
  {
    if a == [] {
      assert a + b == b;
    } else {
      assert (a + b)[0] == a[0];
      assert (a + b)[1..] == a[1..] + b;
      RunAppend(Apply(s, a[0]).0, a[1..], b);
    }
  }

  /** The reply at position `k` is that of `ops[k]` applied to the cells left by `ops[..k]`. */
  lemma {:induction false} ReplyAt(s: Signals, ops: seq<Op>, k: nat)
    requires k < |ops|
    ensures Run(s, ops).1[k] == Apply(Run(s, ops[..k]).0, ops[k]).1
    decreases k
  {
    if k > 0 {
      ReplyAt(Apply(s, ops[0]).0, ops[1..], k - 1);
      assert ops[1..][..k - 1] == ops[..k][1..];
      assert ops[..k][0] == ops[0];
    }
  }

  /**
   * `interrupt` is true after a run exactly when it was true before, or the run
   * called `interrupt()` or dropped the flag while unwinding: no operation ever
   * sets it back to false.
   */
  lemma {:induction false} InterruptRecord(s: Signals, ops: seq<Op>)
    ensures Run(s, ops).0.interrupt <==> s.interrupt || InterruptRequested(ops)
    decreases |ops|
  {
    if ops != [] {
      InterruptRecord(Apply(s, ops[0]).0, ops[1..]);
      assert ops == [ops[0]] + ops[1..];
    }
  }

  /** The flag exists after a run exactly when it existed before and the run did not drop it. */
  lemma {:induction false} DoneRecord(s: Signals, ops: seq<Op>)
    ensures Run(s, ops).0.flagExists <==> s.flagExists && !FlagDropped(ops)
    decreases |ops|
  {
    if ops != [] {
      DoneRecord(Apply(s, ops[0]).0, ops[1..]);
      assert ops == [ops[0]] + ops[1..];
    }
  }

  /** Once `alive` is false, no operation makes it true again. */
  lemma {:induction false} StopIsPermanent(s: Signals, ops: seq<Op>)
    requires !s.alive
    ensures !Run(s, ops).0.alive
    decreases |ops|
  {
    if ops != [] {
      StopIsPermanent(Apply(s, ops[0]).0, ops[1..]);
    }
  }

  /**
   * `is_done()` answers false while the flag exists and true forever after it
   * is dropped, whether or not `stop()` was ever called.
   */
  lemma IsDoneObserved(s: Signals, ops: seq<Op>, k: nat)
    requires k < |ops| && ops[k] == IsDone
    ensures Run(s, ops).1[k] == Answer(!s.flagExists || FlagDropped(ops[..k]))
  {
    ReplyAt(s, ops, k);
    DoneRecord(s, ops[..k]);
  }

  /** `is_interrupted()` answers true exactly when an interrupt or an unwinding drop came before it. */
  lemma IsInterruptedObserved(s: Signals, ops: seq<Op>, k: nat)
    requires k < |ops| && ops[k] == IsInterrupted
    ensures Run(s, ops).1[k] == Answer(s.interrupt || InterruptRequested(ops[..k]))
  {
    ReplyAt(s, ops, k);
    InterruptRecord(s, ops[..k]);
  }

  /** `alive()` aborts exactly when an interrupt or an unwinding drop came before it. */
  lemma AliveObserved(s: Signals, ops: seq<Op>, k: nat)
    requires k < |ops| && ops[k] == Alive
    ensures Run(s, ops).1[k].Polled?
    ensures Run(s, ops).1[k].outcome.Aborted? <==> s.interrupt || InterruptRequested(ops[..k])
  {
    ReplyAt(s, ops, k);
    InterruptRecord(s, ops[..k]);
  }

  /**
   * A `stop()` issued while the flag exists is seen by every later `alive()`:
   * that poll either aborts (on an interrupt) or returns false, never true.
   */
  lemma StopIsSeen(s: Signals, ops: seq<Op>, j: nat, k: nat)
    requires j < k < |ops| && ops[j] == Stop && ops[k] == Alive
    requires Run(s, ops[..j]).0.flagExists
    ensures Run(s, ops).1[k] != Polled(Returned(true))
  {
    var stopped := Run(s, ops[..j + 1]).0;
    RunAppend(s, ops[..j], [Stop]);
    assert ops[..j + 1] == ops[..j] + [Stop];
    assert !stopped.alive;
    StopIsPermanent(stopped, ops[j + 1..k]);
    RunAppend(s, ops[..j + 1], ops[j + 1..k]);
    assert ops[..k] == ops[..j + 1] + ops[j + 1..k];
    ReplyAt(s, ops, k);
  }

  // ---------------------------------------------------------------------------
  // The three usage scenarios of the crate documentation

  /** A worker that is neither interrupted sees `alive()` return its current value and changes nothing. */
  lemma {:induction false} QuietPolls(s: Signals, n: nat)
    requires !s.interrupt
    ensures Run(s, Polls(n)).0 == s
    ensures forall i :: 0 <= i < n ==> Run(s, Polls(n)).1[i] == Polled(Returned(s.alive))
  {
    if n > 0 {
      QuietPolls(s, n - 1);
      assert Polls(n)[1..] == Polls(n - 1);
    }
  }

  /**
   * Stop scenario: the worker loops on `alive()`; the supervisor sees
   * `is_done()` false, calls `stop()`; the next poll returns false, the worker
   * returns normally and drops its flag; then `is_interrupted()` is false and
   * `is_done()` is true.
   */
  lemma StopScenario(n: nat)
    ensures var ops := [IsDone] + Polls(n) + [Stop, Alive, Drop(false), IsInterrupted, IsDone];
            var replies := Run(Initial(), ops).1;
            replies[0] == Answer(false) &&
            replies[n + 2] == Polled(Returned(false)) &&
            replies[n + 4] == Answer(false) &&
            replies[n + 5] == Answer(true)
  {
    var tail := [Stop, Alive, Drop(false), IsInterrupted, IsDone];
    QuietPolls(Initial(), n);
    RunAppend(Initial(), [IsDone], Polls(n));
    RunAppend(Initial(), [IsDone] + Polls(n), tail);
  }

  /**
   * Interrupt scenario: after `interrupt()` the worker's next `alive()` aborts,
   * its flag is dropped while unwinding, and the supervisor sees both
   * `is_interrupted()` and `is_done()` true.
   */
  lemma InterruptScenario(n: nat)
    ensures var ops := Polls(n) + [Interrupt, Alive, Drop(true), IsInterrupted, IsDone];
            var replies := Run(Initial(), ops).1;
            replies[n + 1] == Polled(Aborted) &&
            replies[n + 3] == Answer(true) &&
            replies[n + 4] == Answer(true)
  {
    QuietPolls(Initial(), n);
    RunAppend(Initial(), Polls(n), [Interrupt, Alive, Drop(true), IsInterrupted, IsDone]);
  }

  /**
   * Panic scenario: the worker's first `alive()` returns true, it then panics,
   * and the unwinding drop of its flag leaves `is_interrupted()` and
   * `is_done()` both true, although `interrupt()` was never called.
   */
  lemma PanicScenario()
    ensures var replies := Run(Initial(), [Alive, Drop(true), IsInterrupted, IsDone]).1;
            replies == [Polled(Returned(true)), Unit, Answer(true), Answer(true)]
  {
  }
}
