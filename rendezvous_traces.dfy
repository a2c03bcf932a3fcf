/**
 * Runs of the rendezvous: the requesters' admissions and poll iterations and
 * the responder's operations, each one atomic step on the slot, taken in
 * sequence. A sequence of events may also put operations in orders the source
 * cannot produce (a poll by a requester that was never admitted); the
 * invariants below hold for those as well.
 *
 * `Rule` selects the semantics of two operations: `AsWritten` is
 * `src/request.rs` as it stands; `Intended` is the corrected behaviour. The
 * poll loop yields between `try_lock` attempts and carries a timeout, which
 * can only fire while the lock is contended; that loop has a purpose only if
 * it keeps waiting while the request is pending or being served, so the
 * intended loop does. The comment in `get_request` marks a response in the
 * slot as a previous result not yet collected, so the intended `get_request`
 * returns `None` and leaves it in place.
 */
module RendezvousTraces {
  import opened Rendezvous

  datatype Rule = AsWritten | Intended

  /** One atomic step by a requester or by the responder. */
  datatype Event<I, O> =
    | Admit(input: I)
    | PollOnce(timed: bool, contended: bool, expired: bool)
    | GetRequest
    | SetResponse(output: O)
    | DropResponder

  /** What each step gives back to the thread that took it. */
  datatype Observation<I, O> =
    | OnAdmit(admission: Admission)
    | OnPoll(poll: Poll<O>)
    | OnGet(got: Outcome<Option<I>>)
    | OnSet(answered: Outcome<()>)
    | OnDrop

  /**
   * The poll iteration as intended: a successful `try_lock` that finds the
   * request still pending or in progress releases the lock and loops again
   * (or times out); only a response or a free slot ends the loop.
   */
  function PollStepIntended<I, O>(s: Snapshot<I, O>, timed: bool, contended: bool, expired: bool)
    : (Snapshot<I, O>, Poll<O>)
  {
    match TryLockOf(s, contended)
    case Acquired =>
      (match s.state
       case Response(output) => (Leave(s.(state := Free)), Done(Ok(output)))
       case Free => (Leave(s), Done(Err(WrongState)))
       case _ => if timed && expired then (Leave(s), Done(Err(Timeout))) else (s, Pending))
    case WouldBlock => if timed && expired then (Leave(s), Done(Err(Timeout))) else (s, Pending)
    case Poisoned => (Leave(s), Done(Err(ThreadDead)))
  }

  /** `get_request` as intended: a response not yet collected is left in the slot. */
  function GetRequestStepIntended<I, O>(s: Snapshot<I, O>): (Snapshot<I, O>, Outcome<Option<I>>)
  {
    if !s.poisoned && s.state.Response? then (s, Returned(None)) else GetRequestStep(s)
  }

  function Step<I, O>(rule: Rule, s: Snapshot<I, O>, e: Event<I, O>): (Snapshot<I, O>, Observation<I, O>)
  {
    match e
    case Admit(input) =>
      var r := AdmitStep(s, input); (r.0, OnAdmit(r.1))
    case PollOnce(timed, contended, expired) =>
      var r := if rule == AsWritten then PollStep(s, timed, contended, expired)
               else PollStepIntended(s, timed, contended, expired);
      (r.0, OnPoll(r.1))
    case GetRequest =>
      var r := if rule == AsWritten then GetRequestStep(s) else GetRequestStepIntended(s);
      (r.0, OnGet(r.1))
    case SetResponse(output) =>
      var r := SetResponseStep(s, output); (r.0, OnSet(r.1))
    case DropResponder => (DropResponderStep(s), OnDrop)
  }

  /** The slot after `evs`, and one observation per event. */
  function Run<I, O>(rule: Rule, s: Snapshot<I, O>, evs: seq<Event<I, O>>)
    : (r: (Snapshot<I, O>, seq<Observation<I, O>>))
    ensures |r.1| == |evs|
    decreases |evs|
  {
    if evs == [] then (s, [])
    else
      var first := Step(rule, s, evs[0]);
      var rest := Run(rule, first.0, evs[1..]);
      (rest.0, [first.1] + rest.1)
  }

  /** Responses handed to a requester by the observations `obs`. */
  function Deliveries<I, O>(obs: seq<Observation<I, O>>): nat
  {
    if obs == [] then 0
    else (if obs[0].OnPoll? && obs[0].poll.Done? && obs[0].poll.result.Ok? then 1 else 0)
         + Deliveries(obs[1..])
  }

  /** `set_response` calls among `evs`. */
  function Responses<I, O>(evs: seq<Event<I, O>>): nat
  {
    if evs == [] then 0 else (if evs[0].SetResponse? then 1 else 0) + Responses(evs[1..])
  }

  /** 1 when the slot holds a response nobody has collected yet. */
  function Held<I, O>(s: Snapshot<I, O>): nat
  {
    if s.state.Response? then 1 else 0
  }

  /** Every event of `evs`, taken alone from `s`, leaves the slot as it is. */
  ghost predicate Idle<I, O>(rule: Rule, s: Snapshot<I, O>, evs: seq<Event<I, O>>)
  {
    forall k :: 0 <= k < |evs| ==> Step(rule, s, evs[k]).0 == s
  }

  /** A poll iteration whose deadline, if any, has not passed. */
  predicate Waiting<I, O>(e: Event<I, O>)
  {
    e.PollOnce? && !e.expired
  }

  // ---------------------------------------------------------------------------
  // Single operations

  /**
   * Admission stores the request exactly when the weak reference upgrades (the
   * responder, or a requester still inside `request`, holds a strong one), the
   * lock is not poisoned and the slot is free; the admitted requester then
   * holds a strong reference. A refused request changes nothing, and the
   * refusal is `ThreadDead` for a failed upgrade or a poisoned lock and `Busy`
   * otherwise.
   */
  lemma AdmitEffect<I, O>(s: Snapshot<I, O>, input: I)
    ensures AdmitStep(s, input).1.Admitted? <==>
              (s.responderAlive || s.upgrades > 0) && !s.poisoned && s.state.Free?
    ensures AdmitStep(s, input).1.Admitted? ==>
              AdmitStep(s, input).0 == s.(state := Request(input), upgrades := s.upgrades + 1)
    ensures AdmitStep(s, input).1.Refused? ==> AdmitStep(s, input).0 == s
    ensures AdmitStep(s, input).1 == Refused(ThreadDead) <==>
              (!s.responderAlive && s.upgrades == 0) || s.poisoned
    ensures AdmitStep(s, input).1 == Refused(Busy) <==>
              (s.responderAlive || s.upgrades > 0) && !s.poisoned && !s.state.Free?
  {
  }

  /**
   * One poll iteration: a successful `try_lock` ends the loop and leaves the
   * slot free, with `Ok(o)` exactly when the slot held `Response(o)`; a
   * contended lock times out only past a given deadline and otherwise loops
   * on; a poisoned lock reports `ThreadDead`. Nothing but a successful
   * `try_lock` changes the contents; every iteration that ends the loop
   * drops the requester's strong reference, and one that loops on changes
   * nothing.
   */
  lemma PollEffect<I, O>(s: Snapshot<I, O>, timed: bool, contended: bool, expired: bool)
    ensures var (t, p) := PollStep(s, timed, contended, expired);
            (TryLockOf(s, contended) == Acquired ==> t == Leave(s.(state := Free)) && p.Done?) &&
            (TryLockOf(s, contended) != Acquired && p.Done? ==> t == Leave(s)) &&
            (p == Pending ==> t == s) &&
            (p.Done? && s.upgrades > 0 ==> t.upgrades == s.upgrades - 1) &&
            (p.Done? && p.result.Ok? <==> !contended && !s.poisoned && s.state.Response?) &&
            (p.Done? && p.result.Ok? ==> p.result.value == s.state.output) &&
            (p == Done(Err(WrongState)) <==> !contended && !s.poisoned && !s.state.Response?) &&
            (p == Done(Err(Timeout)) <==> contended && timed && expired) &&
            (p == Done(Err(ThreadDead)) <==> !contended && s.poisoned) &&
            (p == Pending <==> contended && !(timed && expired))
  {
  }

  /**
   * `get_request`: a request is handed over and the slot marked in progress; a
   * free slot gives nothing; a poisoned lock gives nothing and changes nothing;
   * a pending response is replaced by `InProgress` and lost; a request already
   * in progress aborts and poisons the lock.
   */
  lemma GetRequestEffect<I, O>(s: Snapshot<I, O>)
    ensures var (t, g) := GetRequestStep(s);
            (g.Returned? && g.value.Some? <==> !s.poisoned && s.state.Request?) &&
            (!s.poisoned && s.state.Request? ==>
               t == s.(state := InProgress) && g == Returned(Some(s.state.input))) &&
            (s.poisoned ==> t == s && g == Returned(None)) &&
            (!s.poisoned && s.state.Free? ==> t == s && g == Returned(None)) &&
            (!s.poisoned && s.state.Response? ==> t == s.(state := InProgress) && g == Returned(None)) &&
            (g.Aborted? <==> !s.poisoned && s.state.InProgress?) &&
            (g.Aborted? ==> t == s.(poisoned := true))
  {
  }

  /**
   * `set_response`: a request, taken or not, becomes the response; a
   * poisoned lock makes the call a silent no-op; a free slot or an
   * uncollected response aborts, leaving `InProgress` and a poisoned lock.
   */
  lemma SetResponseEffect<I, O>(s: Snapshot<I, O>, output: O)
    ensures var (t, d) := SetResponseStep(s, output);
            (s.poisoned ==> t == s && d.Returned?) &&
            (!s.poisoned && (s.state.InProgress? || s.state.Request?) ==>
               t == s.(state := Response(output)) && d.Returned?) &&
            (d.Aborted? <==> !s.poisoned && (s.state.Free? || s.state.Response?)) &&
            (d.Aborted? ==> t == s.(state := InProgress, poisoned := true))
  {
  }

  // ---------------------------------------------------------------------------
  // Whole runs

  lemma {:induction false} RunAppend<I, O>(rule: Rule, s: Snapshot<I, O>, a: seq<Event<I, O>>, b: seq<Event<I, O>>)
    ensures Run(rule, s, a + b).0 == Run(rule, Run(rule, s, a).0, b).0
    ensures Run(rule, s, a + b).1 == Run(rule, s, a).1 + Run(rule, Run(rule, s, a).0, b).1
    decreases |a|
  {
    if a == [] {
      assert a + b == b;
    } else {
      assert (a + b)[0] == a[0];
      assert (a + b)[1..] == a[1..] + b;
      RunAppend(rule, Step(rule, s, a[0]).0, a[1..], b);
    }
  }

  lemma RunCons<I, O>(rule: Rule, s: Snapshot<I, O>, e: Event<I, O>, rest: seq<Event<I, O>>)
    ensures Run(rule, s, [e] + rest)
         == (Run(rule, Step(rule, s, e).0, rest).0, [Step(rule, s, e).1] + Run(rule, Step(rule, s, e).0, rest).1)
  {
    assert ([e] + rest)[1..] == rest;
  }

  lemma RunOne<I, O>(rule: Rule, s: Snapshot<I, O>, e: Event<I, O>)
    ensures Run(rule, s, [e]) == (Step(rule, s, e).0, [Step(rule, s, e).1])
  {
    assert [e][1..] == [];
    assert [Step(rule, s, e).1] + [] == [Step(rule, s, e).1];
  }

  /** The observation at `k` is that of `evs[k]` taken from the slot left by `evs[..k]`. */
  lemma {:induction false} ObservationAt<I, O>(rule: Rule, s: Snapshot<I, O>, evs: seq<Event<I, O>>, k: nat)
    requires k < |evs|
    ensures Run(rule, s, evs).1[k] == Step(rule, Run(rule, s, evs[..k]).0, evs[k]).1
    decreases k
  {
    if k > 0 {
      ObservationAt(rule, Step(rule, s, evs[0]).0, evs[1..], k - 1);
      assert evs[1..][..k - 1] == evs[..k][1..];
      assert evs[..k][0] == evs[0];
    }
  }

  /** Events that each leave the slot unchanged leave it unchanged together. */
  lemma {:induction false} IdleRun<I, O>(rule: Rule, s: Snapshot<I, O>, evs: seq<Event<I, O>>)
    requires Idle(rule, s, evs)
    ensures Run(rule, s, evs).0 == s
    decreases |evs|
  {
    if evs != [] {
      assert Step(rule, s, evs[0]).0 == s;
      assert Idle(rule, s, evs[1..]) by {
        forall k | 0 <= k < |evs[1..]| ensures Step(rule, s, evs[1..][k]).0 == s {
          assert evs[1..][k] == evs[k + 1];
        }
      }
      IdleRun(rule, s, evs[1..]);
    }
  }

  /**
   * A poisoned lock stays poisoned and freezes the slot's contents: under
   * either rule, no later operation of either side changes them.
   */
  lemma {:induction false} PoisonIsPermanent<I, O>(rule: Rule, s: Snapshot<I, O>, evs: seq<Event<I, O>>)
    requires s.poisoned
    ensures Run(rule, s, evs).0.poisoned
    ensures Run(rule, s, evs).0.state == s.state
    decreases |evs|
  {
    if evs != [] {
      PoisonIsPermanent(rule, Step(rule, s, evs[0]).0, evs[1..]);
    }
  }

  /** Once the responder is dropped, its strong reference never comes back. */
  lemma {:induction false} DeathIsPermanent<I, O>(rule: Rule, s: Snapshot<I, O>, evs: seq<Event<I, O>>)
    requires !s.responderAlive
    ensures !Run(rule, s, evs).0.responderAlive
    decreases |evs|
  {
    if evs != [] {
      DeathIsPermanent(rule, Step(rule, s, evs[0]).0, evs[1..]);
    }
  }

  /**
   * Once the responder is dropped and no requester is inside `request`, the
   * last strong reference is gone: no weak reference upgrades again.
   */
  lemma {:induction false} ReleaseIsPermanent<I, O>(rule: Rule, s: Snapshot<I, O>, evs: seq<Event<I, O>>)
    requires !s.responderAlive && s.upgrades == 0
    ensures !Run(rule, s, evs).0.responderAlive && Run(rule, s, evs).0.upgrades == 0
    decreases |evs|
  {
    if evs != [] {
      ReleaseIsPermanent(rule, Step(rule, s, evs[0]).0, evs[1..]);
    }
  }

  /**
   * After the responder is dropped and no requester is inside `request`,
   * every request is refused with `ThreadDead`.
   */
  lemma DeadResponderRefuses<I, O>(rule: Rule, s: Snapshot<I, O>, evs: seq<Event<I, O>>, k: nat)
    requires !s.responderAlive && s.upgrades == 0
    requires k < |evs| && evs[k].Admit?
    ensures Run(rule, s, evs).1[k] == OnAdmit(Refused(ThreadDead))
  {
    ObservationAt(rule, s, evs, k);
    ReleaseIsPermanent(rule, s, evs[..k]);
  }

  /**
   * A requester inside `request` keeps the mutex alive after the responder is
   * dropped: a second request meanwhile finds the slot occupied and gets
   * `Busy`; only once the first returns does a request get `ThreadDead`.
   */
  lemma HeldReferenceOutlivesResponder<I, O>(x: I, z: I)
    ensures Run(AsWritten, Initial<I, O>(), [Admit(x), DropResponder, Admit(z), PollOnce(false, false, false), Admit(z)]).1
         == [OnAdmit(Admitted), OnDrop, OnAdmit(Refused(Busy)), OnPoll(Done(Err(WrongState))),
             OnAdmit(Refused(ThreadDead))]
  {
    var poll: Event<I, O> := PollOnce(false, false, false);
    var held: Snapshot<I, O> := Snapshot(Request(x), false, false, 1);
    assert [Admit(x), DropResponder, Admit(z), poll, Admit(z)]
        == [Admit(x)] + ([DropResponder] + ([Admit(z)] + ([poll] + [Admit(z)])));
    RunCons(AsWritten, Initial(), Admit(x), [DropResponder] + ([Admit(z)] + ([poll] + [Admit(z)])));
    RunCons(AsWritten, Snapshot(Request(x), false, true, 1), DropResponder, [Admit(z)] + ([poll] + [Admit(z)]));
    RunCons(AsWritten, held, Admit(z), [poll] + [Admit(z)]);
    RunCons(AsWritten, held, poll, [Admit(z)]);
    var released: Snapshot<I, O> := Snapshot(Free, false, false, 0);
    RunOne(AsWritten, released, Admit(z));
  }

  /**
   * A response returned to a requester was put there by the responder: it was
   * in the slot at the start, or an earlier `set_response` deposited it.
   */
  lemma {:induction false} NoInventedResponses<I, O>(rule: Rule, s: Snapshot<I, O>, evs: seq<Event<I, O>>, k: nat, o: O)
    requires k < |evs|
    requires Run(rule, s, evs).1[k] == OnPoll(Done(Ok(o)))
    ensures s.state == Response(o) || SetResponse(o) in evs[..k]
    decreases k
  {
    var next := Step(rule, s, evs[0]).0;
    if k > 0 {
      NoInventedResponses(rule, next, evs[1..], k - 1, o);
      assert evs[1..][..k - 1] == evs[1..k];
      assert evs[..k] == [evs[0]] + evs[1..k];
    }
  }

  /**
   * A request handed to the responder was sent by a requester: it was in the
   * slot at the start, or an earlier admission stored it.
   */
  lemma {:induction false} NoInventedRequests<I, O>(rule: Rule, s: Snapshot<I, O>, evs: seq<Event<I, O>>, k: nat, i: I)
    requires k < |evs|
    requires Run(rule, s, evs).1[k] == OnGet(Returned(Some(i)))
    ensures s.state == Request(i) || Admit(i) in evs[..k]
    decreases k
  {
    var next := Step(rule, s, evs[0]).0;
    if k > 0 {
      NoInventedRequests(rule, next, evs[1..], k - 1, i);
      assert evs[1..][..k - 1] == evs[1..k];
      assert evs[..k] == [evs[0]] + evs[1..k];
    }
  }

  /**
   * Each response is delivered at most once: the responses handed to
   * requesters, plus one still waiting in the slot, never exceed the
   * `set_response` calls plus one that was waiting at the start.
   */
  lemma {:induction false} AtMostOnceDelivery<I, O>(rule: Rule, s: Snapshot<I, O>, evs: seq<Event<I, O>>)
    ensures Deliveries(Run(rule, s, evs).1) + Held(Run(rule, s, evs).0) <= Responses(evs) + Held(s)
    decreases |evs|
  {
    if evs != [] {
      var first := Step(rule, s, evs[0]);
      AtMostOnceDelivery(rule, first.0, evs[1..]);
      assert Run(rule, s, evs).1 == [first.1] + Run(rule, first.0, evs[1..]).1;
      assert ([first.1] + Run(rule, first.0, evs[1..]).1)[1..] == Run(rule, first.0, evs[1..]).1;
    }
  }

  // ---------------------------------------------------------------------------
  // The exchange

  /**
   * A complete exchange from a fresh slot: admission of `x`, the responder
   * taking it, answering `y`, and a successful poll. Between the steps any
   * events may occur that leave the slot as it is; the poll then returns
   * `Ok(y)`, the responder has received `x`, and the slot is free again.
   */
  lemma Exchange<I, O>(rule: Rule, x: I, y: O, p1: seq<Event<I, O>>, p2: seq<Event<I, O>>,
                       p3: seq<Event<I, O>>, timed: bool)
    requires Idle(rule, Snapshot(Request(x), false, true, 1), p1)
    requires Idle(rule, Snapshot(InProgress, false, true, 1), p2)
    requires Idle(rule, Snapshot(Response(y), false, true, 1), p3)
    ensures var evs := [Admit(x)] + p1 + [GetRequest] + p2 + [SetResponse(y)] + p3 + [PollOnce(timed, false, false)];
            var r := Run(rule, Initial(), evs);
            r.0 == Initial() &&
            r.1[0] == OnAdmit(Admitted) &&
            r.1[1 + |p1|] == OnGet(Returned(Some(x))) &&
            r.1[2 + |p1| + |p2|] == OnSet(Returned(())) &&
            r.1[|evs| - 1] == OnPoll(Done(Ok(y)))
  {
    var s0: Snapshot<I, O> := Initial();
    var s1: Snapshot<I, O> := Snapshot(Request(x), false, true, 1);
    var s2: Snapshot<I, O> := Snapshot(InProgress, false, true, 1);
    var s3: Snapshot<I, O> := Snapshot(Response(y), false, true, 1);
    var a := [Admit(x)];
    var g := [GetRequest];
    var d := [SetResponse(y)];
    var f: seq<Event<I, O>> := [PollOnce(timed, false, false)];

    RunOne(rule, s0, Admit(x));
    assert Run(rule, s0, a) == (s1, [OnAdmit(Admitted)]);
    IdleRun(rule, s1, p1);
    RunAppend(rule, s0, a, p1);
    RunOne(rule, s1, GetRequest);
    assert Run(rule, s1, g) == (s2, [OnGet(Returned(Some(x)))]);
    RunAppend(rule, s0, a + p1, g);
    IdleRun(rule, s2, p2);
    RunAppend(rule, s0, a + p1 + g, p2);
    RunOne(rule, s2, SetResponse(y));
    assert Run(rule, s2, d) == (s3, [OnSet(Returned(()))]);
    RunAppend(rule, s0, a + p1 + g + p2, d);
    IdleRun(rule, s3, p3);
    RunAppend(rule, s0, a + p1 + g + p2 + d, p3);
    RunOne(rule, s3, PollOnce(timed, false, false));
    assert Run(rule, s3, f) == (s0, [OnPoll(Done(Ok(y)))]);
    RunAppend(rule, s0, a + p1 + g + p2 + d + p3, f);
  }

  /**
   * The source as written completes the exchange when every poll before the
   * response finds the lock held by the responder (and no deadline passed),
   * and the responder does not look for a new request before the response is
   * collected.
   */
  lemma RoundTrip<I, O>(x: I, y: O, p1: seq<Event<I, O>>, p2: seq<Event<I, O>>,
                        p3: seq<Event<I, O>>, timed: bool)
    requires forall k :: 0 <= k < |p1| ==> Waiting(p1[k]) && p1[k].contended
    requires forall k :: 0 <= k < |p2| ==> Waiting(p2[k]) && p2[k].contended
    requires forall k :: 0 <= k < |p3| ==> Waiting(p3[k]) && p3[k].contended
    ensures var evs := [Admit(x)] + p1 + [GetRequest] + p2 + [SetResponse(y)] + p3 + [PollOnce(timed, false, false)];
            var r := Run(AsWritten, Initial(), evs);
            r.0 == Initial() &&
            r.1[1 + |p1|] == OnGet(Returned(Some(x))) &&
            r.1[|evs| - 1] == OnPoll(Done(Ok(y)))
  {
    Exchange(AsWritten, x, y, p1, p2, p3, timed);
  }

  /**
   * Under the intended rule the exchange completes whatever the polls find,
   * contended or not, and even when the responder looks for a new request
   * before the response is collected.
   */
  lemma IntendedRoundTrip<I, O>(x: I, y: O, p1: seq<Event<I, O>>, p2: seq<Event<I, O>>,
                                p3: seq<Event<I, O>>, timed: bool)
    requires forall k :: 0 <= k < |p1| ==> Waiting(p1[k])
    requires forall k :: 0 <= k < |p2| ==> Waiting(p2[k])
    requires forall k :: 0 <= k < |p3| ==> (Waiting(p3[k]) && p3[k].contended) || p3[k].GetRequest?
    ensures var evs := [Admit(x)] + p1 + [GetRequest] + p2 + [SetResponse(y)] + p3 + [PollOnce(timed, false, false)];
            var r := Run(Intended, Initial(), evs);
            r.0 == Initial() &&
            r.1[1 + |p1|] == OnGet(Returned(Some(x))) &&
            r.1[|evs| - 1] == OnPoll(Done(Ok(y)))
  {
    Exchange(Intended, x, y, p1, p2, p3, timed);
  }

  /**
   * The corrected poll iteration: a response is collected and the slot freed;
   * a free slot gives `WrongState`; a request still pending or in progress,
   * like a contended lock, keeps the loop waiting until a given deadline
   * passes; a poisoned lock gives `ThreadDead`. Only collecting a response
   * changes the contents, and every iteration that ends the loop drops the
   * requester's strong reference.
   */
  lemma PollIntendedEffect<I, O>(s: Snapshot<I, O>, timed: bool, contended: bool, expired: bool)
    ensures var (t, p) := PollStepIntended(s, timed, contended, expired);
            var waiting := contended || (!s.poisoned && (s.state.Request? || s.state.InProgress?));
            (p.Done? && p.result.Ok? <==> !contended && !s.poisoned && s.state.Response?) &&
            (p.Done? && p.result.Ok? ==> p.result.value == s.state.output && t == Leave(s.(state := Free))) &&
            (p.Done? && !p.result.Ok? ==> t == Leave(s)) &&
            (p == Done(Err(WrongState)) <==> !contended && !s.poisoned && s.state.Free?) &&
            (p == Done(Err(Timeout)) <==> waiting && timed && expired) &&
            (p == Done(Err(ThreadDead)) <==> !contended && s.poisoned) &&
            (p == Pending <==> waiting && !(timed && expired)) &&
            (p == Pending ==> t == s)
  {
  }

  /**
   * Under the corrected rule, a request with a timeout and no responder
   * activity keeps waiting, then times out once the deadline has passed. The
   * request stays in the slot, and the requester has dropped its reference.
   */
  lemma IntendedTimeout<I, O>(x: I, waits: seq<Event<I, O>>)
    requires forall k :: 0 <= k < |waits| ==> Waiting(waits[k])
    ensures var evs := [Admit(x)] + waits + [PollOnce(true, false, true)];
            var r := Run(Intended, Initial(), evs);
            r.0 == Snapshot(Request(x), false, true, 0) &&
            r.1[0] == OnAdmit(Admitted) &&
            (forall k :: 1 <= k <= |waits| ==> r.1[k] == OnPoll(Pending)) &&
            r.1[|waits| + 1] == OnPoll(Done(Err(Timeout)))
  {
    var s0: Snapshot<I, O> := Initial();
    var s1: Snapshot<I, O> := Snapshot(Request(x), false, true, 1);
    var a := [Admit(x)];
    var f: seq<Event<I, O>> := [PollOnce(true, false, true)];
    RunOne(Intended, s0, Admit(x));
    IdleRun(Intended, s1, waits);
    RunAppend(Intended, s0, a, waits);
    RunOne(Intended, s1, PollOnce(true, false, true));
    RunAppend(Intended, s0, a + waits, f);
    forall k | 1 <= k <= |waits|
      ensures Run(Intended, s0, a + waits + f).1[k] == OnPoll(Pending)
    {
      ObservationAt(Intended, s1, waits, k - 1);
      IdleRun(Intended, s1, waits[..k - 1]);
    }
  }

  // ---------------------------------------------------------------------------
  // Where the source departs from its intent

  /**
   * The poll loop gives up on its first successful `try_lock`: a requester
   * whose first poll finds its own request still waiting gets `WrongState`,
   * the slot is freed, and the responder never sees the request.
   */
  lemma PollGivesUpEarly<I, O>(x: I)
    ensures Run(AsWritten, Initial<I, O>(), [Admit(x), PollOnce(false, false, false), GetRequest])
         == (Initial(), [OnAdmit(Admitted), OnPoll(Done(Err(WrongState))), OnGet(Returned(None))])
  {
    var poll: Event<I, O> := PollOnce(false, false, false);
    assert [Admit(x), poll, GetRequest] == [Admit(x)] + [poll, GetRequest];
    RunCons(AsWritten, Initial(), Admit(x), [poll, GetRequest]);
    assert [poll, GetRequest] == [poll] + [GetRequest];
    RunCons(AsWritten, Snapshot(Request(x), false, true, 1), poll, [GetRequest]);
    RunOne(AsWritten, Initial<I, O>(), GetRequest);
    var admitted: Observation<I, O> := OnAdmit(Admitted);
    var refused: Observation<I, O> := OnPoll(Done(Err(WrongState)));
    var nothing: Observation<I, O> := OnGet(Returned(None));
    assert [admitted] + ([refused] + [nothing]) == [admitted, refused, nothing];
  }

  /**
   * `get_request` on an uncollected response discards it: the requester's
   * next successful poll finds `InProgress` and gets `WrongState`, not `y`.
   */
  lemma ResponseDiscarded<I, O>(x: I, y: O)
    ensures Run(AsWritten, Initial<I, O>(),
                [Admit(x), GetRequest, SetResponse(y), GetRequest, PollOnce(false, false, false)]).1
         == [OnAdmit(Admitted), OnGet(Returned(Some(x))), OnSet(Returned(())), OnGet(Returned(None)),
             OnPoll(Done(Err(WrongState)))]
  {
    var poll: Event<I, O> := PollOnce(false, false, false);
    var taken: Snapshot<I, O> := Snapshot(InProgress, false, true, 1);
    assert [Admit(x), GetRequest, SetResponse(y), GetRequest, poll]
        == [Admit(x)] + ([GetRequest] + ([SetResponse(y)] + ([GetRequest] + [poll])));
    RunCons(AsWritten, Initial(), Admit(x), [GetRequest] + ([SetResponse(y)] + ([GetRequest] + [poll])));
    RunCons(AsWritten, Snapshot(Request(x), false, true, 1), GetRequest, [SetResponse(y)] + ([GetRequest] + [poll]));
    RunCons(AsWritten, taken, SetResponse(y), [GetRequest] + [poll]);
    RunCons(AsWritten, Snapshot(Response(y), false, true, 1), GetRequest, [poll]);
    RunOne(AsWritten, taken, poll);
  }
}
