/**
 * The cancellation pair of `src/lib.rs`: a `Flag` held by the worker and a
 * `Control` held by the supervisor, coupled through two shared boolean cells.
 *
 * The `alive` cell is owned by the flag alone; the control reaches it through a
 * weak reference, so once the flag is dropped every upgrade fails. That is
 * modelled by the `flagExists` bit. The `interrupt` cell is owned by both sides
 * and outlives the flag.
 *
 * Each operation is modelled as one atomic transition. That is an assumption
 * of the model: `Flag::alive` loads `interrupt` and then `alive`, and
 * `Control::stop` upgrades its weak reference and then stores, so in the
 * source another thread's operation can fall between the two halves.
 */
module Cancellation {

  /** The shared cells as a value: what `Flag` and every `Control` observe. */
  datatype Signals = Signals(alive: bool, interrupt: bool, flagExists: bool)

  /** What `Flag::alive` does: return a boolean, or panic (abort the worker). */
  datatype AliveOutcome = Returned(keepRunning: bool) | Aborted

  /** The cells as `Flag::new` creates them. */
  function Initial(): Signals
  {
    Signals(true, false, true)
  }

  /** `Flag::alive`: an interrupt is enacted as an abort, otherwise the current `alive` is read. */
  function AliveCheck(s: Signals): (r: AliveOutcome)
    ensures r.Aborted? <==> s.interrupt
    ensures r.Returned? ==> r.keepRunning == s.alive
  {
    if s.interrupt then Aborted else Returned(s.alive)
  }

  /** What `Control::is_done` reports: the weak reference to `alive` no longer upgrades. */
  function Finished(s: Signals): (done: bool)
    ensures done <==> !s.flagExists
  {
    !s.flagExists
  }

  /** What `Control::is_interrupted` reports: a load of the shared `interrupt` cell. */
  function InterruptRaised(s: Signals): (interrupted: bool)
    ensures interrupted <==> s.interrupt
  {
    s.interrupt
  }

  /** `Control::interrupt`: store `true` in the shared `interrupt` cell. */
  function Interrupted(s: Signals): Signals
  {
    s.(interrupt := true)
  }

  /** `Control::stop`: store `false` in `alive`, if the weak reference still upgrades. */
  function Stopped(s: Signals): Signals
  {
    if s.flagExists then s.(alive := false) else s
  }

  /**
   * `Drop for Flag`: when the worker is unwinding (`thread::panicking()`),
   * store `true` in `interrupt`; in every case the flag's strong reference to
   * `alive` goes away.
   */
  function Dropped(s: Signals, panicking: bool): Signals
  {
    s.(interrupt := s.interrupt || panicking, flagExists := false)
  }

  /** The `alive` and `interrupt` atomics with the liveness of the flag's strong reference. */
  class Cells {
    var alive: bool
    var interrupt: bool
    var flagExists: bool

    function Model(): Signals
      reads this
    {
      Signals(alive, interrupt, flagExists)
    }

    constructor ()
      ensures Model() == Initial()
    {
      alive, interrupt, flagExists := true, false, true;
    }
  }

  /** The worker's half. */
  class Flag {
    const cells: Cells

    /** `Flag::new`. */
    constructor New()
      ensures fresh(cells)
      ensures cells.Model() == Initial()
    {
      cells := new Cells();
    }

    /** `Flag::take_control`: a new control sharing this flag's cells; nothing changes. */
    method TakeControl() returns (control: Control)
      ensures fresh(control)
      ensures control.cells == cells
    {
      control := new Control(cells);
    }

    /**
     * `Flag::alive`. Called only on a flag that exists (the worker owns it).
     * Aborts exactly when an interrupt was requested; otherwise reports `alive`.
     */
    method Alive() returns (r: AliveOutcome)
      requires cells.flagExists
      ensures r == AliveCheck(cells.Model())
    {
      if cells.interrupt {
        return Aborted;
      }
      r := Returned(cells.alive);
    }

    /** `Drop for Flag`, with `thread::panicking()` as the parameter `panicking`. */
    method Drop(panicking: bool)
      requires cells.flagExists
      modifies cells
      ensures cells.Model() == Dropped(old(cells.Model()), panicking)
    {
      if panicking {
        cells.interrupt := true;
      }
      cells.flagExists := false;
    }
  }

  /** The supervisor's half. */
  class Control {
    const cells: Cells

    constructor (cells: Cells)
      ensures this.cells == cells
    {
      this.cells := cells;
    }

    /** `Control::interrupt`. */
    method Interrupt()
      modifies cells
      ensures cells.Model() == Interrupted(old(cells.Model()))
    {
      cells.interrupt := true;
    }

    /** `Control::stop`. */
    method Stop()
      modifies cells
      ensures cells.Model() == Stopped(old(cells.Model()))
    {
      if cells.flagExists {
        cells.alive := false;
      }
    }

    /** `Control::is_done`: true exactly when the flag has been dropped. */
    method IsDone() returns (done: bool)
      ensures done == Finished(cells.Model())
    {
      done := !cells.flagExists;
    }

    /** `Control::is_interrupted`: true exactly when an interrupt was raised. */
    method IsInterrupted() returns (interrupted: bool)
      ensures interrupted == InterruptRaised(cells.Model())
    {
      interrupted := cells.interrupt;
    }
  }

  /** `make_pair`: a fresh flag and a control over the same cells. */
  method MakePair() returns (flag: Flag, control: Control)
    ensures fresh(flag) && fresh(control) && fresh(flag.cells)
    ensures control.cells == flag.cells
    ensures flag.cells.Model() == Initial()
  {
    flag := new Flag.New();
    control := flag.TakeControl();
  }
}
