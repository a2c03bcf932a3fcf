# thread-control in Dafny

This project models the two primitives of the `thread-control` crate:

- **The cancellation pair** (`src/lib.rs`). A worker-side `Flag` and a supervisor-side `Control` share two atomic booleans:
  - `alive`: owned by the flag; the control holds only a weak reference to it.
  - `interrupt`: shared by both sides.
- **The request/response rendezvous** (`src/request.rs`). A `Responder` owns a mutex-guarded four-state slot: `Free`, `Request(I)`, `InProgress` and `Response(O)`. Any number of `Requester` clones reach the slot through a weak reference.

Each operation is modelled as one atomic transition. For the rendezvous, each step is one critical section under the mutex; the strong reference a requester upgrades before taking the lock and drops after releasing it is taken and dropped inside that critical section in the model (see Left out). For the cancellation pair it is an assumption of the model. `Flag::alive` does two loads and `Control::stop` an upgrade followed by a store, so in the source another thread can act between the two halves (see Left out).

- `cancellation.dfy` (module `Cancellation`) holds:
  - the shared cells as a value (`Signals`);
  - one transition function per operation;
  - the classes `Cells`, `Flag` and `Control`, whose methods update the fields and are proved against those functions.
- `rendezvous.dfy` (module `Rendezvous`) does the same for the slot:
  - the slot as a value is `Snapshot`: contents, mutex poison bit, whether the responder's owning reference still lives, and how many requesters inside `request` hold a strong reference upgraded from their weak one;
  - the classes are `Slot`, `Requester` and `Responder`.

A `panic!` raised while the mutex guard is held becomes an `Aborted` outcome that poisons the mutex. `thread::panicking()` becomes the `panicking` parameter of `Flag.Drop`. `request` is split into two methods:

- `Admit`: the admission step.
- `PollOnce`: one iteration of its poll loop.

The inputs of `PollOnce` stand in for the lock and the clock:
- `contended`: another thread holds the lock;
- `timed`: a timeout was given;
- `expired`: the deadline has passed.

`try_lock` gives `WouldBlock` when the lock is contended. Otherwise it gives `Poisoned` or `Acquired`, according to the poison bit.

`cancellation_traces.dfy` and `rendezvous_traces.dfy` run arbitrary sequences of these steps, one step per event. The lemmas there state what holds over whole runs:
- monotone signals;
- a frozen poisoned slot;
- no invented requests or responses;
- at-most-once delivery;
- the complete exchange;
- the documented usage scenarios.

`RendezvousTraces.Rule` selects between two readings of `src/request.rs`:
- `AsWritten`: the code as it stands. This is what the classes implement.
- `Intended`: the corrected behaviour (see Findings).

The two readings differ in two places; the classes follow the code.
- The poll loop of `request` ends at the first successful `try_lock`. It does not wait for a response. The loop yields between attempts and carries a timeout that can only fire while the lock is contended; both are pointless for a loop that returns on its first acquisition, so the intended loop keeps waiting while the request is pending or being served.
- `get_request` on an uncollected response discards that response. The comment at src/request.rs:101 marks this branch as the case of a previous result not yet collected, so the intended call returns `None` and leaves that response in place.

## Model

| member | source | states |
|---|---|---|
| `Rendezvous.Interaction` | src/request.rs:21-31 | a fresh slot, shared by the requester and the responder, starts `Free`, unpoisoned, with its owner alive |
| `Rendezvous.Requester.Clone` | src/request.rs:33-36 | a cloned requester is a new handle on the same slot |
| `Rendezvous.Requester.Admit` | src/request.rs:43-57 | the admission step of `request` changes the slot and answers exactly as `AdmitStep` of the old slot, an admitted requester keeping its upgraded strong reference |
| `Rendezvous.Requester.PollOnce` | src/request.rs:58-80 | one poll iteration changes the slot and answers exactly as `PollStep` of the old slot; ending the loop drops the requester's strong reference |
| `Rendezvous.Responder.GetRequest` | src/request.rs:88-113 | `get_request` changes the slot and answers exactly as `GetRequestStep`, aborts included |
| `Rendezvous.Responder.SetResponse` | src/request.rs:115-134 | `set_response` changes the slot and answers exactly as `SetResponseStep`, aborts included |
| `Rendezvous.Responder.Drop` | src/request.rs:38-40 | dropping the owner releases its strong reference; strong references held by requesters inside `request` and everything else are unchanged |
| `RendezvousTraces.AdmitEffect` | src/request.rs:45-57 | a request is stored iff the weak reference upgrades (the owner lives or a requester inside `request` holds a strong reference), the lock is unpoisoned and the slot is `Free`, and the admitted requester then holds a strong reference; a refusal changes nothing; it is `ThreadDead` iff the upgrade fails or the lock is poisoned, `Busy` otherwise |
| `RendezvousTraces.PollEffect` | src/request.rs:59-78 | a successful `try_lock` always frees the slot and ends the loop, with `Ok(o)` iff the slot held `Response(o)`, `WrongState` otherwise; a contended lock gives `Timeout` iff a deadline was given and passed, otherwise it only continues; a poisoned lock gives `ThreadDead`; every iteration that ends the loop drops one strong reference, one that continues changes nothing |
| `RendezvousTraces.GetRequestEffect` | src/request.rs:89-112 | `Some(i)` iff the unpoisoned slot held `Request(i)`, which becomes `InProgress`; `Free` and a poisoned lock give `None` unchanged; `Response(_)` gives `None` and becomes `InProgress`; `InProgress` aborts and poisons, changing nothing else |
| `RendezvousTraces.SetResponseEffect` | src/request.rs:116-133 | `InProgress` and `Request(_)` become `Response(o)`; a poisoned lock is a silent no-op; `Free` and `Response(_)` abort, leaving `InProgress` and a poisoned lock |
| `RendezvousTraces.PoisonIsPermanent` | src/request.rs:43-134 | once the mutex is poisoned, no sequence of operations of either side clears the poison or changes the slot's contents |
| `RendezvousTraces.DeathIsPermanent` | src/request.rs:38-40 | once the responder is dropped, its strong reference never comes back |
| `RendezvousTraces.ReleaseIsPermanent` | src/request.rs:45-83 | once the responder is dropped and no requester is inside `request`, no strong reference remains and the weak reference never upgrades again |
| `RendezvousTraces.DeadResponderRefuses` | src/request.rs:45-83 | every admission after the responder is dropped and no requester is inside `request` returns `ThreadDead` |
| `RendezvousTraces.HeldReferenceOutlivesResponder` | src/request.rs:45-80 | a requester admitted before the responder is dropped keeps the mutex alive: a second request meanwhile gets `Busy`, and `ThreadDead` only once the first has returned |
| `RendezvousTraces.NoInventedResponses` | src/request.rs:58-122 | every `Ok(o)` a poll returns was in the slot at the start or was deposited by an earlier `set_response(o)` |
| `RendezvousTraces.NoInventedRequests` | src/request.rs:43-95 | every `Some(i)` that `get_request` returns was in the slot at the start or was stored by an earlier admission of `i` |
| `RendezvousTraces.AtMostOnceDelivery` | src/request.rs:59-66 | over any run, the responses delivered plus one still held never exceed the `set_response` calls plus one held at the start: no response is delivered twice |
| `RendezvousTraces.Exchange` | src/request.rs:43-121 | from a fresh slot, admission of `x`, `get_request`, `set_response(y)` and a successful poll (with slot-preserving events between) deliver `x` to the responder and `Ok(y)` to the requester, and leave the slot `Free` |
| `RendezvousTraces.RoundTrip` | src/request.rs:48-66 | as written, the exchange completes when every poll before the response finds the lock contended and no deadline has passed |
| `RendezvousTraces.IntendedRoundTrip` | src/request.rs:58-103 | under the intended rule, the exchange completes whatever the polls find and even if `get_request` runs again before the response is collected |
| `RendezvousTraces.PollIntendedEffect` | src/request.rs:58-80 | the corrected poll iteration ends with `Ok(o)` iff an acquired unpoisoned slot held `Response(o)`, freeing it; with `WrongState` iff it was `Free`; with `Timeout` iff a given deadline has passed while the lock is contended or the request is still pending or in progress; with `ThreadDead` iff the lock is poisoned; otherwise it loops on and changes nothing; every ending drops one strong reference |
| `RendezvousTraces.IntendedTimeout` | src/request.rs:58-80 | under the corrected rule, `request(x, Some(d))` with no responder activity keeps waiting until the deadline passes and then returns `Timeout`, leaving `Request(x)` in the slot |
| `RendezvousTraces.PollGivesUpEarly` | src/request.rs:59-66 | as written, a first poll that acquires the lock before the responder acts returns `WrongState`, frees the slot, and the responder never sees the request |
| `RendezvousTraces.ResponseDiscarded` | src/request.rs:100-103 | as written, a second `get_request` before the response is collected destroys it, and the requester gets `WrongState` instead of `y` |
| `Cancellation.Flag.New` | src/lib.rs:83-88 | a new flag owns fresh cells with `alive` true, `interrupt` false and the flag existing |
| `Cancellation.Flag.TakeControl` | src/lib.rs:91-96 | a new control shares the flag's cells; nothing changes |
| `Cancellation.Flag.Alive` | src/lib.rs:99-104 | aborts iff `interrupt` is set, otherwise returns the current `alive` |
| `Cancellation.Flag.Drop` | src/lib.rs:72-78 | the flag ceases to exist; `interrupt` becomes true when the thread is unwinding and is otherwise unchanged |
| `Cancellation.Control.Interrupt` | src/lib.rs:116-118 | sets `interrupt`; the other cells do not change |
| `Cancellation.Control.Stop` | src/lib.rs:121-125 | clears `alive` while the flag exists; a no-op after it is dropped |
| `Cancellation.Control.IsDone` | src/lib.rs:128-130 | true iff the flag no longer exists |
| `Cancellation.Control.IsInterrupted` | src/lib.rs:133-135 | true iff `interrupt` is set |
| `Cancellation.MakePair` | src/lib.rs:139-143 | a fresh flag and a control over the same fresh cells, in the initial state |
| `CancellationTraces.FreshPair` | src/lib.rs:83-88 | after `make_pair`: not done, not interrupted, and `alive()` returns true |
| `CancellationTraces.InterruptEffect` | src/lib.rs:116-118 | `interrupt()` sets the cell, is idempotent, makes `alive()` abort, and touches nothing else |
| `CancellationTraces.StopEffect` | src/lib.rs:121-125 | `stop()` never touches `interrupt`; on a live flag a non-interrupted `alive()` then returns false; after the drop it is a no-op |
| `CancellationTraces.DropEffect` | src/lib.rs:72-78 | an unwinding drop sets `interrupt`, a normal drop leaves it, and both end the flag |
| `CancellationTraces.InterruptRecord` | src/lib.rs:72-135 | after any run, `interrupt` is set iff it was set before, or the run called `interrupt()`, or the flag was dropped while unwinding; it is never reset |
| `CancellationTraces.DoneRecord` | src/lib.rs:128-130 | after any run, the flag exists iff it existed before and the run did not drop it |
| `CancellationTraces.StopIsPermanent` | src/lib.rs:121-125 | once `alive` is false no operation makes it true again |
| `CancellationTraces.IsDoneObserved` | src/lib.rs:128-130 | each `is_done()` in a run answers false while the flag exists and true forever after it is dropped, whether or not `stop()` was called |
| `CancellationTraces.IsInterruptedObserved` | src/lib.rs:133-135 | each `is_interrupted()` answers true iff an interrupt or an unwinding drop came before it |
| `CancellationTraces.AliveObserved` | src/lib.rs:99-104 | each `alive()` aborts iff an interrupt or an unwinding drop came before it |
| `CancellationTraces.StopIsSeen` | src/lib.rs:121-125 | after a `stop()` issued while the flag exists, no later `alive()` returns true |
| `CancellationTraces.QuietPolls` | src/lib.rs:99-104 | polling an uninterrupted flag changes nothing and returns the current `alive` each time |
| `CancellationTraces.StopScenario` | src/lib.rs:9-20 | the worker loops on `alive()`, the supervisor sees `is_done()` false and calls `stop()`; the next poll returns false; after a normal drop, `is_interrupted()` is false and `is_done()` is true |
| `CancellationTraces.InterruptScenario` | src/lib.rs:29-39 | after `interrupt()` the next poll aborts; after the unwinding drop, `is_interrupted()` and `is_done()` are both true |
| `CancellationTraces.PanicScenario` | src/lib.rs:48-58 | a worker that panics after a successful poll leaves `is_interrupted()` and `is_done()` both true |

## Left out

- Threads, `thread::spawn`/`join` and `thread::yield_now` (src/request.rs:79). The threads' interleavings are the order of events in a run, one atomic step per event. Runs may also contain orders the source cannot produce.
- Blocking in `Mutex::lock` and contention in `try_lock`. Each critical section is one atomic step. Contention is the `contended` input of a poll, not a scheduler.
- `Instant` and `Duration` (src/request.rs:44, 69-71). The timeout is the `timed` flag, and "the elapsed time has reached it" is the `expired` input.
- The unbounded poll loop of `request` and its termination. `PollOnce` models one iteration. A run holds as many iterations as it contains `PollOnce` events, interleaved with the other side's steps.
- `Ordering::Relaxed` (src/lib.rs:75, 100-134). Memory-ordering semantics cannot be expressed in a sequential model; every load sees the latest store.
- `Arc`/`Weak` reference counts of the cancellation pair. They collapse to `flagExists`. For the rendezvous they are `responderAlive` plus the `upgrades` count; requesters are not told apart, so a poll event releases some requester's reference, not a named one's.
- `Cancellation.Flag.Alive`: an `alive()` that overlaps `interrupt()` or `stop()` can return a value that no order of whole operations gives. Example: the worker loads `interrupt` as false; the supervisor calls `interrupt()` and then `stop()`; the worker loads `alive` as false, so `alive()` returns false rather than panicking.
- `Cancellation.Control.Stop`: the upgrade and the store are one step. In the source, a `stop()` that has upgraded keeps the `alive` cell reachable for a moment, so an `is_done()` in between answers false although the flag has been dropped.
- `Cancellation.Control.IsDone`: `is_done()` upgrades the weak reference too (src/lib.rs:129), and that temporary strong reference lives until the call returns. The model treats the `alive` cell as gone as soon as the flag is dropped. So in the source, an `is_done()` that overlaps another control's `stop()` or `is_done()` can answer false after the flag's drop, where the model (and `CancellationTraces.IsDoneObserved`) answers true.
- `RendezvousTraces.DeadResponderRefuses`: `Requester.Admit` takes the requester's strong reference, and `Requester.PollOnce` drops it, inside the critical section. In the source the reference is upgraded before `lock()`/`try_lock()` and dropped after the guard is released. So a request that overlaps another requester's upgrade or return can still be admitted after the responder is dropped, where the model answers `ThreadDead`. Example: A admits `x`, the responder is dropped, A's poll frees the slot and releases the guard, and B's `request(z, None)` upgrades through A's reference before A returns.
- Stack unwinding itself. A panic is an `Aborted` outcome. The unwinding drop of the flag is `Flag.Drop(true)`, issued by the caller.

## Findings

| source | as written | input that shows it | evidently intended | confidence | as-written member | corrected member |
|---|---|---|---|---|---|---|
| src/request.rs:58-66 | the poll loop returns on its first successful `try_lock`, resetting the slot to `Free` and returning `WrongState` unless it holds a response | `request(x, None)` whose first `try_lock` succeeds before the responder has taken the request | keep polling while the slot holds `Request` or `InProgress`, and return only on `Response` (or `WrongState` on `Free`) | high; not executed | `RendezvousTraces.PollGivesUpEarly` | `RendezvousTraces.IntendedRoundTrip` |
| src/request.rs:100-103 | `get_request` on an uncollected `Response(o)` leaves `InProgress` and drops `o` | admit `x`, `get_request`, `set_response(y)`, `get_request`, then a successful poll: `WrongState` instead of `Ok(y)` | return `None` and leave the response in the slot; the comment at src/request.rs:101 marks it as a previous result not yet collected | medium; not executed | `RendezvousTraces.ResponseDiscarded` | `RendezvousTraces.IntendedRoundTrip` |

The corrected behaviour is `RendezvousTraces.PollStepIntended` and `RendezvousTraces.GetRequestStepIntended`, selected by `Rule.Intended`. The run lemmas that take a `rule` are proved for both: `PoisonIsPermanent`, `DeathIsPermanent`, `ReleaseIsPermanent`, `DeadResponderRefuses`, `NoInventedResponses`, `NoInventedRequests`, `AtMostOnceDelivery` and `Exchange`. `RoundTrip`, `PollGivesUpEarly`, `ResponseDiscarded` and `HeldReferenceOutlivesResponder` are about the code as written; `PollIntendedEffect`, `IntendedRoundTrip` and `IntendedTimeout` about the corrected rule. The classes keep the behaviour of the code as written.
