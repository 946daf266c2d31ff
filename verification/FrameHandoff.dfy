// iterateWebSocket: frames go from socket callbacks to a pull consumer through
// one waiting promise and a queue.

module FrameHandoff {
  import opened Prelude

  type Frame = string

  datatype Promise = NoPromise | Unsettled | Fulfilled(frame: Frame) | Rejected

  /** Where the generator is: not asked for a frame, awaiting the promise, or finished. */
  datatype Phase = NotStarted | AtYield | Awaiting | Done

  /**
   * canResolve and canReject: the resolve and reject variables are set.
   * ready: the socket is open or connecting. arrived: the frames delivered to
   * the message callback; yielded: the frames handed to the consumer.
   */
  datatype State = State(
    queue: seq<Frame>,
    promise: Promise,
    canResolve: bool,
    canReject: bool,
    closed: bool,
    ready: bool,
    phase: Phase,
    arrived: seq<Frame>,
    yielded: seq<Frame>)

  const Init: State := State([], NoPromise, false, false, false, true, NotStarted, [], [])

  datatype Event =
    | Message(frame: Frame)
    | Error
    | Close
    | ReadyState(ready: bool)
    | Next
    | Wake
    | Return

  // ------------------------------------------------------------------ steps

  predicate Attached(s: State) {
    s.phase.AtYield? || s.phase.Awaiting?
  }

  function Fulfil(p: Promise, d: Frame): Promise {
    if p.Unsettled? then Fulfilled(d) else p
  }

  function OnMessage(s: State, d: Frame): State {
    var s1 := s.(arrived := s.arrived + [d]);
    if s.canResolve then s1.(promise := Fulfil(s.promise, d), canResolve := false)
    else s1.(queue := s.queue + [d])
  }

  function Reject(s: State): State {
    if s.canReject then s.(promise := if s.promise.Unsettled? then Rejected else s.promise, canReject := false) else s
  }

  /** One turn of the while loop, up to its yield or its await. */
  function OnNext(s: State): State {
    if s.closed || !s.ready then s.(phase := Done)
    else if s.queue != [] then s.(phase := AtYield, yielded := s.yielded + [s.queue[0]], queue := s.queue[1..])
    else s.(phase := Awaiting, promise := Unsettled, canResolve := true, canReject := true)
  }

  function OnWake(s: State): State {
    if s.promise.Fulfilled? then s.(phase := AtYield, yielded := s.yielded + [s.promise.frame], promise := NoPromise)
    else s.(phase := Done)
  }

  predicate Enabled(s: State, e: Event) {
    match e
    case Message(_) => Attached(s)
    case Error => Attached(s)
    case Close => Attached(s)
    case ReadyState(_) => true
    case Next => s.phase.NotStarted? || s.phase.AtYield?
    case Wake => s.phase.Awaiting? && (s.promise.Fulfilled? || s.promise.Rejected?)
    case Return => s.phase.NotStarted? || s.phase.AtYield?
  }

  function Step(s: State, e: Event): State {
    match e
    case Message(d) => OnMessage(s, d)
    case Error => Reject(s)
    case Close => Reject(s.(closed := true))
    case ReadyState(r) => s.(ready := r)
    case Next => OnNext(s)
    case Wake => OnWake(s)
    case Return => s.(phase := Done)
  }

  function Run(events: seq<Event>): Option<State> {
    if events == [] then Some(Init)
    else
      var before := Run(events[..|events| - 1]);
      if before.Some? && Enabled(before.value, events[|events| - 1])
      then Some(Step(before.value, events[|events| - 1]))
      else None
  }

  // ----------------------------------------------------------------- object

  /** The variables of the generator and its three socket callbacks. */
  class FrameIterator {
    var queue: seq<Frame>
    var promise: Promise
    var canResolve: bool
    var canReject: bool
    var closed: bool
    var ready: bool
    var phase: Phase
    ghost var arrived: seq<Frame>
    ghost var yielded: seq<Frame>

    ghost function View(): State
      reads this
    {
      State(queue, promise, canResolve, canReject, closed, ready, phase, arrived, yielded)
    }

    constructor ()
      ensures View() == Init
    {
      queue, promise, canResolve, canReject := [], NoPromise, false, false;
      closed, ready, phase, arrived, yielded := false, true, NotStarted, [], [];
    }

    method MessageCallback(d: Frame)
      requires Enabled(View(), Message(d))
      modifies this
      ensures View() == OnMessage(old(View()), d)
    {
      arrived := arrived + [d];
      if canResolve {
        promise := Fulfil(promise, d);
        canResolve := false;
      } else {
        queue := queue + [d];
      }
    }

    method ErrorCallback()
      requires Enabled(View(), Error)
      modifies this
      ensures View() == Reject(old(View()))
    {
      if canReject {
        promise := if promise.Unsettled? then Rejected else promise;
        canReject := false;
      }
    }

    method CloseCallback()
      requires Enabled(View(), Close)
      modifies this
      ensures View() == Step(old(View()), Close)
    {
      closed := true;
      ErrorCallback();
    }

    /** next(): the frame if one is queued; None if the generator now awaits or has returned. */
    method PullNext() returns (frame: Option<Frame>)
      requires Enabled(View(), Next)
      modifies this
      ensures View() == OnNext(old(View()))
      ensures frame.Some? ==> yielded == old(yielded) + [frame.value]
      ensures frame.None? ==> yielded == old(yielded)
    {
      if closed || !ready {
        phase := Done;
        return None;
      }
      if queue != [] {
        var d := queue[0];
        queue := queue[1..];
        phase := AtYield;
        yielded := yielded + [d];
        return Some(d);
      }
      promise, canResolve, canReject := Unsettled, true, true;
      phase := Awaiting;
      return None;
    }

    /** The awaited promise has settled: its frame is yielded, or its error ends the generator. */
    method Resume() returns (frame: Option<Frame>)
      requires Enabled(View(), Wake)
      modifies this
      ensures View() == OnWake(old(View()))
      ensures frame.Some? ==> yielded == old(yielded) + [frame.value]
      ensures frame.None? ==> yielded == old(yielded)
    {
      if promise.Fulfilled? {
        var d := promise.frame;
        phase := AtYield;
        yielded := yielded + [d];
        promise := NoPromise;
        return Some(d);
      }
      phase := Done;
      return None;
    }
  }

  // -------------------------------------------------------------- invariant

  /** The frame that has settled the promise but has not been yielded yet. */
  function InFlight(s: State): seq<Frame> {
    if s.phase.Awaiting? && s.promise.Fulfilled? then [s.promise.frame] else []
  }

  /** The generator is past saving: its promise was rejected, or it has ended. */
  predicate Doomed(s: State) {
    s.phase.Done? || (s.phase.Awaiting? && s.promise.Rejected?)
  }

  ghost predicate Inv(s: State) {
    && (!Doomed(s) ==> s.yielded + InFlight(s) + s.queue == s.arrived)
    && s.yielded <= s.arrived
    && (s.phase.Awaiting? ==> !s.promise.NoPromise?)
    && (s.phase.Awaiting? && s.promise.Unsettled? ==> s.canResolve && s.canReject && !s.closed)
    && (s.canResolve ==> (s.phase.Awaiting? || s.phase.Done?) && (s.promise.Unsettled? || s.promise.Rejected?))
    && (s.canResolve && !s.phase.Done? ==> s.queue == [])
    && (s.phase.NotStarted? ==> s.arrived == [] && s.queue == [])
    && (s.phase.Awaiting? && s.promise.Rejected? ==>
          if s.canResolve then s.yielded == s.arrived && s.queue == [] else |s.yielded| < |s.arrived|)
  }

  lemma MessageKeeps(s: State, d: Frame)
    requires Inv(s) && Attached(s)
    ensures Inv(OnMessage(s, d))
  {
    var s' := OnMessage(s, d);
    assert s.yielded <= s'.arrived;
    if !Doomed(s) {
      assert s.yielded + InFlight(s) + s.queue + [d] == s'.arrived;
      if s.canResolve {
        assert s'.yielded + [d] + [] == s'.arrived;
      } else {
        assert s'.yielded + InFlight(s') + s'.queue == s.yielded + InFlight(s) + s.queue + [d];
      }
    }
  }

  lemma StepKeeps(s: State, e: Event)
    requires Inv(s) && Enabled(s, e)
    ensures Inv(Step(s, e))
  {
    match e
    case Message(d) => MessageKeeps(s, d);
    case Next =>
      if s.queue != [] {
        assert s.queue == [s.queue[0]] + s.queue[1..];
        assert s.arrived == s.yielded + [] + s.queue == (s.yielded + [s.queue[0]]) + s.queue[1..];
      }
    case Wake =>
      if s.promise.Fulfilled? {
        assert s.arrived == (s.yielded + [s.promise.frame]) + s.queue;
        assert Step(s, e).yielded + [] + s.queue == s.arrived;
      }
    case _ =>
  }

  lemma {:induction false} RunKeeps(events: seq<Event>)
    requires Run(events).Some?
    ensures Inv(Run(events).value)
  {
    hide Step, Enabled, Inv;
    if events == [] {
      InitInv();
    } else {
      RunKeeps(events[..|events| - 1]);
      StepKeeps(Run(events[..|events| - 1]).value, events[|events| - 1]);
    }
  }

  lemma InitInv()
    ensures Inv(Init)
  {
  }

  // ----------------------------------------------------------- main results

  /** While the generator lives, no frame is lost, repeated or overtaken. */
  lemma NothingLost(events: seq<Event>)
    requires Run(events).Some? && !Doomed(Run(events).value)
    ensures var s := Run(events).value; s.yielded + InFlight(s) + s.queue == s.arrived
  {
    RunKeeps(events);
  }

  /** Over the whole run, close and errors included, the consumer has seen a prefix of what arrived. */
  lemma YieldedIsPrefix(events: seq<Event>)
    requires Run(events).Some?
    ensures Run(events).value.yielded <= Run(events).value.arrived
  {
    RunKeeps(events);
  }

  /** A frame is queued only when nobody waits, and a waiting consumer is woken by the next frame. */
  lemma WaiterHasEmptyQueue(events: seq<Event>, d: Frame)
    requires Run(events).Some?
    requires var s := Run(events).value; s.phase.Awaiting? && s.promise.Unsettled?
    ensures var s := Run(events).value;
            s.queue == [] && Step(s, Message(d)).promise == Fulfilled(d) && Enabled(Step(s, Message(d)), Wake)
  {
    RunKeeps(events);
  }

  /** The steps that end the generator: its loop condition is false, its promise was rejected, or the consumer returns. */
  predicate Ending(s: State, e: Event) {
    match e
    case Next => s.closed || !s.ready
    case Wake => s.promise.Rejected?
    case Return => true
    case _ => false
  }

  /** No frame is left to hand over: the queue is empty, or none has come since the promise was rejected. */
  predicate EmptyHanded(s: State, e: Event) {
    if e.Wake? then s.canResolve else s.queue == []
  }

  /** A step ends the generator exactly if it is one of the three, and then frames are lost exactly if some are left. */
  lemma EndingStep(events: seq<Event>, e: Event)
    requires Run(events).Some? && !Run(events).value.phase.Done? && Enabled(Run(events).value, e)
    ensures var s := Run(events).value;
            && (Step(s, e).phase.Done? <==> Ending(s, e))
            && (Ending(s, e) ==> (Step(s, e).yielded == Step(s, e).arrived <==> EmptyHanded(s, e)))
  {
    RunKeeps(events);
    var s := Run(events).value;
    if s.phase.AtYield? || s.phase.NotStarted? {
      assert s.yielded + InFlight(s) + s.queue == s.yielded + s.queue;
      assert |s.arrived| == |s.yielded| + |s.queue|;
      assert s.queue == [] ==> s.yielded + s.queue == s.yielded;
    }
  }

  /** Every run that has ended: which step ended it, and that all arrived frames were yielded exactly if none was left then. */
  lemma {:induction false} EndedRun(events: seq<Event>) returns (k: nat)
    requires Run(events).Some? && Run(events).value.phase.Done?
    ensures k < |events| && Run(events[..k]).Some?
    ensures var s := Run(events[..k]).value;
            && !s.phase.Done? && Enabled(s, events[k]) && Ending(s, events[k])
            && (Run(events).value.yielded == Run(events).value.arrived <==> EmptyHanded(s, events[k]))
  {
    hide Step, Ending, EmptyHanded;
    var n := |events| - 1;
    NotEmptyRun(events);
    if Run(events[..n]).value.phase.Done? {
      k := EndedRun(events[..n]);
      assert events[..n][..k] == events[..k];
      DoneStays(Run(events[..n]).value, events[n]);
    } else {
      k := n;
      EndingStep(events[..n], events[n]);
    }
  }

  lemma NotEmptyRun(events: seq<Event>)
    requires Run(events).Some? && Run(events).value.phase.Done?
    ensures events != []
  {
  }

  lemma DoneStays(s: State, e: Event)
    requires s.phase.Done? && Enabled(s, e)
    ensures Step(s, e).yielded == s.yielded && Step(s, e).arrived == s.arrived
  {
  }

  /** What a close costs: frames still queued when it arrives are never yielded. */
  lemma {:induction false} CloseDropsQueue(events: seq<Event>, more: seq<Event>)
    requires Run(events).Some? && Run(events + more).Some?
    requires Run(events).value.closed && Run(events).value.phase.AtYield?
    ensures var s := Run(events + more).value;
            s.yielded == Run(events).value.yielded && s.closed && (s.phase.AtYield? || s.phase.Done?)
  {
    if more == [] {
      assert events + more == events;
    } else {
      var n := |more| - 1;
      assert (events + more)[..|events| + n] == events + more[..n];
      CloseDropsQueue(events, more[..n]);
    }
  }

  // --------------------------------------------------------- close and error

  /** A close or an error ends a consumer that waits: its promise is rejected, and waking it up is the end. */
  lemma WaiterIsEnded(events: seq<Event>, e: Event)
    requires Run(events).Some? && (e.Close? || e.Error?)
    requires Run(events).value.phase.Awaiting? && Run(events).value.promise.Unsettled?
    ensures var s := Step(Run(events).value, e);
            && Enabled(Run(events).value, e) && Enabled(s, Wake)
            && Step(s, Wake).phase.Done? && Step(s, Wake).yielded == Run(events).value.yielded
  {
    RunKeeps(events);
  }

  /** An error that nobody waits for goes unheard: the next pull yields what it would have yielded. */
  lemma ErrorUnheard(events: seq<Event>)
    requires Run(events).Some? && Run(events).value.phase.AtYield?
    ensures var s := Run(events).value;
            && OnNext(Step(s, Error)).yielded == OnNext(s).yielded
            && OnNext(Step(s, Error)).phase == OnNext(s).phase
  {
  }

  /** A closed generator: what is in flight is still to come, and no more. */
  ghost predicate Winding(s: State, last: seq<Frame>) {
    && s.closed && !s.phase.NotStarted?
    && (s.phase.Awaiting? ==> !s.promise.Unsettled? && !s.promise.NoPromise?)
    && s.yielded + InFlight(s) <= last
  }

  lemma WindsDown(s: State, last: seq<Frame>, e: Event)
    requires Winding(s, last) && Enabled(s, e)
    ensures Winding(Step(s, e), last)
  {
    var s' := Step(s, e);
    assert s.yielded <= s.yielded + InFlight(s);
    if e.Wake? && s.promise.Fulfilled? {
      assert s'.yielded + InFlight(s') == s.yielded + InFlight(s);
    }
  }

  /** After a close at most the frame in flight is yielded, whatever arrives and however often the consumer pulls. */
  lemma {:induction false} CloseAllowsOne(events: seq<Event>, more: seq<Event>)
    requires Run(events).Some? && Run(events + [Close] + more).Some?
    ensures var s, s' := Run(events).value, Run(events + [Close] + more).value;
            s'.closed && s.yielded <= s'.yielded <= s.yielded + InFlight(s)
  {
    hide Step, Enabled;
    var all := events + [Close] + more;
    if more == [] {
      assert all == events + [Close] && all[..|events|] == events;
      ClosesDown(events);
    } else {
      var n := |more| - 1;
      assert all[..|all| - 1] == events + [Close] + more[..n];
      CloseAllowsOne(events, more[..n]);
      ClosedWinds(events, more);
      YieldsGrow(Run(all[..|all| - 1]).value, all[|all| - 1]);
    }
  }

  lemma ClosesDown(events: seq<Event>)
    requires Run(events).Some? && Enabled(Run(events).value, Close)
    ensures var s := Run(events).value;
            Winding(Step(s, Close), s.yielded + InFlight(s)) && Step(s, Close).yielded == s.yielded
  {
    RunKeeps(events);
    var s := Run(events).value;
    assert s.yielded <= s.yielded + InFlight(s);
  }

  lemma {:induction false} ClosedWinds(events: seq<Event>, more: seq<Event>)
    requires Run(events).Some? && Run(events + [Close] + more).Some?
    ensures var s := Run(events).value;
            var s' := Run(events + [Close] + more).value;
            Winding(s', s.yielded + InFlight(s)) && s'.yielded <= s.yielded + InFlight(s)
  {
    hide Step, Enabled;
    var all := events + [Close] + more;
    if more == [] {
      assert all == events + [Close] && all[..|events|] == events;
      ClosesDown(events);
    } else {
      var n := |more| - 1;
      assert all[..|all| - 1] == events + [Close] + more[..n];
      ClosedWinds(events, more[..n]);
      WindsDown(Run(all[..|all| - 1]).value, Run(events).value.yielded + InFlight(Run(events).value), all[|all| - 1]);
    }
    var s' := Run(all).value;
    assert s'.yielded <= s'.yielded + InFlight(s');
  }

  lemma YieldsGrow(s: State, e: Event)
    requires Enabled(s, e)
    ensures s.yielded <= Step(s, e).yielded
  {
  }
}
