/**
 * The single-slot request/response rendezvous of `src/request.rs`.
 *
 * One `Mutex<State>` is shared by a `Responder`, which owns it, and any number
 * of `Requester` clones, which hold only a weak reference. Each critical
 * section takes the lock, replaces the slot and releases the lock, and is one
 * atomic transition of the slot here. A panic raised while the guard is
 * held poisons the mutex; it is modelled as an `Aborted` outcome that sets
 * `poisoned`.
 *
 * The mutex lives as long as some strong reference to it does: the
 * responder's own (`responderAlive`) and the one each requester upgrades from
 * its weak reference during `request` (`upgrades` counts those). The source
 * upgrades before taking the lock and drops the reference after releasing the
 * guard; the model takes it in the admission's critical section and drops it
 * in that of the poll iteration that ends the loop.
 */
module Rendezvous {

  datatype Option<T> = None | Some(value: T)

  /** The requester's errors. */
  datatype Error = ThreadDead | Timeout | Busy | WrongState

  datatype Result<O> = Ok(value: O) | Err(error: Error)

  /** The contents of the slot. */
  datatype State<I, O> = Free | Request(input: I) | InProgress | Response(output: O)

  /**
   * The slot as a value: its contents, the poison bit of its mutex, whether
   * the responder still holds its strong reference, and how many requesters
   * inside `request` hold one.
   */
  datatype Snapshot<I, O> = Snapshot(state: State<I, O>, poisoned: bool, responderAlive: bool, upgrades: nat)

  /** How the admission step of `request` ends: go on polling, or return an error. */
  datatype Admission = Admitted | Refused(error: Error)

  /** How one iteration of the poll loop of `request` ends: loop again, or return. */
  datatype Poll<O> = Pending | Done(result: Result<O>)

  /** A responder operation either returns or panics while holding the guard. */
  datatype Outcome<T> = Returned(value: T) | Aborted

  /** The three results of `Mutex::try_lock`. */
  datatype TryLock = Acquired | WouldBlock | Poisoned

  /** The slot as `interaction` creates it. */
  function Initial<I, O>(): Snapshot<I, O>
  {
    Snapshot(Free, false, true, 0)
  }

  /** `Weak::upgrade` succeeds while any strong reference to the mutex remains. */
  predicate CanUpgrade<I, O>(s: Snapshot<I, O>)
  {
    s.responderAlive || s.upgrades > 0
  }

  /** A requester returns from `request` and drops the strong reference it upgraded. */
  function Leave<I, O>(s: Snapshot<I, O>): Snapshot<I, O>
  {
    s.(upgrades := if s.upgrades > 0 then s.upgrades - 1 else 0)
  }

  /**
   * `try_lock` when another thread does (`contended`) or does not hold the
   * lock: an uncontended lock reports the poison of a panicked holder.
   */
  function TryLockOf<I, O>(s: Snapshot<I, O>, contended: bool): TryLock
  {
    if contended then WouldBlock else if s.poisoned then Poisoned else Acquired
  }

  /**
   * The admission step of `request`: upgrade the weak reference, take the
   * lock, and store the request only into a free slot. An admitted requester
   * keeps its strong reference; a refused one drops it on returning.
   */
  function AdmitStep<I, O>(s: Snapshot<I, O>, input: I): (Snapshot<I, O>, Admission)
  {
    if !CanUpgrade(s) then (s, Refused(ThreadDead))
    else if s.poisoned then (s, Refused(ThreadDead))
    else if s.state.Free? then (s.(state := Request(input), upgrades := s.upgrades + 1), Admitted)
    else (s, Refused(Busy))
  }

  /**
   * One iteration of the poll loop of `request`. `timed` says whether a
   * timeout was given and `expired` whether the time elapsed since the call
   * has reached it. A successful `try_lock` always frees the slot and ends the
   * loop, with the response if there was one. Ending the loop returns from
   * `request`, which drops the requester's strong reference.
   */
  function PollStep<I, O>(s: Snapshot<I, O>, timed: bool, contended: bool, expired: bool)
    : (Snapshot<I, O>, Poll<O>)
  {
    match TryLockOf(s, contended)
    case Acquired =>
      (Leave(s.(state := Free)),
       if s.state.Response? then Done(Ok(s.state.output)) else Done(Err(WrongState)))
    case WouldBlock => if timed && expired then (Leave(s), Done(Err(Timeout))) else (s, Pending)
    case Poisoned => (Leave(s), Done(Err(ThreadDead)))
  }

  /**
   * `get_request`: the slot is replaced by `InProgress` and the old contents
   * decide the rest. A free slot is put back; a pending response is lost; a
   * request already in progress panics with the guard held.
   */
  function GetRequestStep<I, O>(s: Snapshot<I, O>): (Snapshot<I, O>, Outcome<Option<I>>)
  {
    if s.poisoned then (s, Returned(None))
    else
      match s.state
      case Request(input) => (s.(state := InProgress), Returned(Some(input)))
      case Free => (s, Returned(None))
      case Response(_) => (s.(state := InProgress), Returned(None))
      case InProgress => (s.(poisoned := true), Aborted)
  }

  /**
   * `set_response`: the slot is replaced by `InProgress`; a request (taken or
   * not) is answered, anything else panics with the guard held. A poisoned
   * lock makes the call do nothing.
   */
  function SetResponseStep<I, O>(s: Snapshot<I, O>, output: O): (Snapshot<I, O>, Outcome<()>)
  {
    if s.poisoned then (s, Returned(()))
    else
      match s.state
      case InProgress => (s.(state := Response(output)), Returned(()))
      case Request(_) => (s.(state := Response(output)), Returned(()))
      case Response(_) => (s.(state := InProgress, poisoned := true), Aborted)
      case Free => (s.(state := InProgress, poisoned := true), Aborted)
  }

  /** Dropping the responder releases its strong reference; upgrades fail once no requester holds one. */
  function DropResponderStep<I, O>(s: Snapshot<I, O>): Snapshot<I, O>
  {
    s.(responderAlive := false)
  }

  /** The mutex-guarded slot, with its poison bit and the strong references that keep it alive. */
  class Slot<I, O> {
    var state: State<I, O>
    var poisoned: bool
    var responderAlive: bool
    var upgrades: nat

    function Model(): Snapshot<I, O>
      reads this
    {
      Snapshot(state, poisoned, responderAlive, upgrades)
    }

    constructor ()
      ensures Model() == Initial()
    {
      state, poisoned, responderAlive, upgrades := Free, false, true, 0;
    }
  }

  /** A (cloneable) handle that sends requests through a weak reference to the slot. */
  class Requester<I, O> {
    const slot: Slot<I, O>

    constructor (slot: Slot<I, O>)
      ensures this.slot == slot
    {
      this.slot := slot;
    }

    /** `Clone for Requester`: another handle on the same slot. */
    method Clone() returns (other: Requester<I, O>)
      ensures fresh(other) && other.slot == slot
    {
      other := new Requester(slot);
    }

    /** The admission step of `request(input, timeout)`. */
    method Admit(input: I) returns (a: Admission)
      modifies slot
      ensures (slot.Model(), a) == AdmitStep(old(slot.Model()), input)
    {
      if !(slot.responderAlive || slot.upgrades > 0) || slot.poisoned {
        return Refused(ThreadDead);
      }
      if slot.state.Free? {
        slot.state := Request(input);
        slot.upgrades := slot.upgrades + 1;
        a := Admitted;
      } else {
        a := Refused(Busy);
      }
    }

    /** One iteration of the poll loop of `request`, after a successful admission. */
    method PollOnce(timed: bool, contended: bool, expired: bool) returns (p: Poll<O>)
      modifies slot
      ensures (slot.Model(), p) == PollStep(old(slot.Model()), timed, contended, expired)
    {
      var lock := TryLockOf(slot.Model(), contended);
      match lock {
        case Acquired =>
          var previous := slot.state;
          slot.state := Free;
          if previous.Response? {
            p := Done(Ok(previous.output));
          } else {
            p := Done(Err(WrongState));
          }
        case WouldBlock =>
          if timed && expired {
            p := Done(Err(Timeout));
          } else {
            p := Pending;
          }
        case Poisoned =>
          p := Done(Err(ThreadDead));
      }
      if p.Done? && slot.upgrades > 0 {
        slot.upgrades := slot.upgrades - 1;
      }
    }
  }

  /** The handle that owns the slot and serves requests. */
  class Responder<I, O> {
    const slot: Slot<I, O>

    constructor (slot: Slot<I, O>)
      ensures this.slot == slot
    {
      this.slot := slot;
    }

    /** `get_request`. */
    method GetRequest() returns (r: Outcome<Option<I>>)
      modifies slot
      ensures (slot.Model(), r) == GetRequestStep(old(slot.Model()))
    {
      if slot.poisoned {
        return Returned(None);
      }
      var previous := slot.state;
      slot.state := InProgress;
      match previous
      case Request(input) =>
        r := Returned(Some(input));
      case Free =>
        slot.state := Free;
        r := Returned(None);
      case Response(_) =>
        r := Returned(None);
      case InProgress =>
        slot.poisoned := true;
        r := Aborted;
    }

    /** `set_response(output)`. */
    method SetResponse(output: O) returns (r: Outcome<()>)
      modifies slot
      ensures (slot.Model(), r) == SetResponseStep(old(slot.Model()), output)
    {
      if slot.poisoned {
        return Returned(());
      }
      var previous := slot.state;
      slot.state := InProgress;
      match previous
      case InProgress =>
        slot.state := Response(output);
        r := Returned(());
      case Request(_) =>
        slot.state := Response(output);
        r := Returned(());
      case Response(_) =>
        slot.poisoned := true;
        r := Aborted;
      case Free =>
        slot.poisoned := true;
        r := Aborted;
    }

    /** Dropping the responder: its strong reference goes; requesters inside `request` keep theirs. */
    method Drop()
      modifies slot
      ensures slot.Model() == DropResponderStep(old(slot.Model()))
    {
      slot.responderAlive := false;
    }
  }

  /** `interaction`: a fresh free slot owned by the responder and shared with the requester. */
  method Interaction<I, O>() returns (requester: Requester<I, O>, responder: Responder<I, O>)
    ensures fresh(requester) && fresh(responder) && fresh(requester.slot)
    ensures requester.slot == responder.slot
    ensures requester.slot.Model() == Initial()
  {
    var slot := new Slot<I, O>();
    requester := new Requester(slot);
    responder := new Responder(slot);
  }
}
