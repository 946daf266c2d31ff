// The streaming session: pushes accumulate a text, frames carry snapshots of
// it, throttled and backed up by a tail timer.

module StreamSessions {
  import opened Prelude

  datatype Options = Options(throttleMs: int, tailMs: int)

  /** sent: the texts of the frames handed to the send callback; timer: the deadline of the tail timer. */
  datatype Session = Session(text: string, lastFlushed: string, lastFlush: int, timer: Option<int>, closed: bool, sent: seq<string>)

  datatype Event =
    | Push(delta: string, now: int)
    | TimerFires(now: int)
    | End(now: int)
    | Abort

  /** start is the initial lastFlush: 0, or any time a throttle interval or more in the past. */
  function New(start: int): Session {
    Session("", "", start, None, false, [])
  }

  function Delay(o: Options): int {
    if o.throttleMs <= o.tailMs then o.throttleMs else o.tailMs
  }

  // ------------------------------------------------------------------ steps

  function Flushed(s: Session, now: int): Session {
    if s.text == s.lastFlushed then s
    else s.(lastFlush := now, lastFlushed := s.text, sent := s.sent + [s.text])
  }

  function OnPush(o: Options, s: Session, delta: string, now: int): Session {
    if s.closed then s
    else
      var s1 := s.(text := s.text + delta);
      if now - s.lastFlush >= o.throttleMs then Flushed(s1, now)
      else if s1.timer.None? then s1.(timer := Some(now + Delay(o)))
      else s1
  }

  function OnTimer(s: Session, now: int): Session {
    Flushed(s.(timer := None), now)
  }

  function OnEnd(s: Session, now: int): Session {
    if s.closed then s else Flushed(s.(closed := true, timer := None), now)
  }

  function OnAbort(s: Session): Session {
    s.(closed := true, timer := None)
  }

  /** A cleared timer never fires. */
  function Step(o: Options, s: Session, e: Event): Session {
    match e
    case Push(delta, now) => OnPush(o, s, delta, now)
    case TimerFires(now) => if s.timer.Some? then OnTimer(s, now) else s
    case End(now) => OnEnd(s, now)
    case Abort => OnAbort(s)
  }

  // ----------------------------------------------------------------- object

  class StreamSession {
    const opts: Options
    var text: string
    var lastFlushed: string
    var lastFlush: int
    var timer: Option<int>
    var closed: bool
    var sent: seq<string>

    ghost function View(): Session
      reads this
    {
      Session(text, lastFlushed, lastFlush, timer, closed, sent)
    }

    constructor (opts: Options, start: int)
      ensures this.opts == opts && View() == New(start)
    {
      this.opts := opts;
      text, lastFlushed, lastFlush, timer, closed, sent := "", "", start, None, false, [];
    }

    method Push(delta: string, now: int)
      modifies this
      ensures View() == OnPush(opts, old(View()), delta, now)
    {
      if closed {
        return;
      }
      text := text + delta;
      if now - lastFlush >= opts.throttleMs {
        Flush(now);
        return;
      }
      if timer.None? {
        timer := Some(now + Delay(opts));
      }
    }

    method TimerCallback(now: int)
      modifies this
      ensures View() == OnTimer(old(View()), now)
    {
      timer := None;
      Flush(now);
    }

    method End(now: int)
      modifies this
      ensures View() == OnEnd(old(View()), now)
    {
      if closed {
        return;
      }
      closed := true;
      timer := None;
      Flush(now);
    }

    method Abort()
      modifies this
      ensures View() == OnAbort(old(View()))
    {
      closed := true;
      timer := None;
    }

    method Flush(now: int)
      modifies this`lastFlush, this`lastFlushed, this`sent
      ensures View() == Flushed(old(View()), now)
    {
      if text == lastFlushed {
        return;
      }
      lastFlush := now;
      lastFlushed := text;
      sent := sent + [text];
    }
  }

  // ---------------------------------------------------------------- history

  /** A push on an open session: the text length it led to and when it was made. */
  datatype Mark = Mark(upTo: nat, at: int)

  /** A session with what happened to it: the pushes it took, all they pushed, and the latest clock reading. */
  datatype Run = Run(s: Session, marks: seq<Mark>, pushed: string, clock: int)

  function Time(e: Event, clock: int): int {
    match e
    case Push(_, now) => now
    case TimerFires(now) => now
    case End(now) => now
    case Abort => clock
  }

  function Follow(o: Options, r: Run, e: Event): Run {
    var s := Step(o, r.s, e);
    var open := e.Push? && !r.s.closed;
    Run(s,
        if open then r.marks + [Mark(|s.text|, e.now)] else r.marks,
        if open then r.pushed + e.delta else r.pushed,
        Time(e, r.clock))
  }

  function RunAll(o: Options, start: int, clock: int, events: seq<Event>): Run {
    if events == [] then Run(New(start), [], "", clock)
    else Follow(o, RunAll(o, start, clock, events[..|events| - 1]), events[|events| - 1])
  }

  ghost predicate ClockForward(o: Options, start: int, clock: int, events: seq<Event>) {
    events == []
    || (&& ClockForward(o, start, clock, events[..|events| - 1])
        && var before := RunAll(o, start, clock, events[..|events| - 1]);
           before.clock <= Time(events[|events| - 1], before.clock))
  }

  ghost predicate ProperPrefix(a: string, b: string) {
    |a| < |b| && b[..|a|] == a
  }

  /** Frames are strictly growing prefixes of the text, and the last one is the last snapshot. */
  ghost predicate Growing(s: Session) {
    && s.lastFlushed <= s.text
    && (s.sent == [] ==> s.lastFlushed == "")
    && (s.sent != [] ==> s.sent[|s.sent| - 1] == s.lastFlushed && s.sent[0] != "")
    && (forall i, j :: 0 <= i < j < |s.sent| ==> ProperPrefix(s.sent[i], s.sent[j]))
    && (forall i :: 0 <= i < |s.sent| ==> s.sent[i] <= s.text)
    && (s.closed ==> s.timer.None?)
  }

  /** Every push not yet covered by a frame has a timer due within the delay of it. */
  ghost predicate Backed(o: Options, r: Run) {
    && (r.s.timer.Some? ==> r.s.timer.value <= r.clock + Delay(o))
    && (!r.s.closed ==> forall i :: 0 <= i < |r.marks| && r.marks[i].upTo > |r.s.lastFlushed| ==>
          r.s.timer.Some? && r.s.timer.value <= r.marks[i].at + Delay(o))
    && (!r.s.closed && r.s.text != r.s.lastFlushed ==>
          exists i :: 0 <= i < |r.marks| && r.marks[i].upTo > |r.s.lastFlushed|)
    && (forall i :: 0 <= i < |r.marks| ==> r.marks[i].upTo <= |r.s.text|)
  }

  lemma FlushGrows(s: Session, now: int)
    requires Growing(s)
    ensures Growing(Flushed(s, now)) && Flushed(s, now).lastFlushed == s.text
  {
    var s' := Flushed(s, now);
    if s'.sent != s.sent {
      forall i, j | 0 <= i < j < |s'.sent| ensures ProperPrefix(s'.sent[i], s'.sent[j]) {
        if j == |s.sent| {
          assert s.sent[i] == s.lastFlushed || ProperPrefix(s.sent[i], s.lastFlushed);
        }
      }
    }
  }

  lemma StepGrows(o: Options, s: Session, e: Event)
    requires Growing(s)
    ensures Growing(Step(o, s, e))
  {
    match e
    case Push(delta, now) =>
      if !s.closed {
        var s1 := s.(text := s.text + delta);
        assert Growing(s1);
        FlushGrows(s1, now);
      }
    case TimerFires(now) => FlushGrows(s.(timer := None), now);
    case End(now) => FlushGrows(s.(closed := true, timer := None), now);
    case Abort =>
  }

  lemma FollowBacked(o: Options, r: Run, e: Event)
    requires Growing(r.s) && Backed(o, r) && r.clock <= Time(e, r.clock)
    ensures Backed(o, Follow(o, r, e))
  {
    var r' := Follow(o, r, e);
    if e.Push? && !r.s.closed {
      var last := r'.marks[|r.marks|];
      assert last == Mark(|r'.s.text|, e.now);
      forall i | 0 <= i < |r'.marks| && r'.marks[i].upTo > |r'.s.lastFlushed| && !r'.s.closed
        ensures r'.s.timer.Some? && r'.s.timer.value <= r'.marks[i].at + Delay(o)
      {
        assert i < |r.marks| ==> r'.marks[i] == r.marks[i];
      }
    }
  }

  lemma {:induction false} RunInv(o: Options, start: int, clock: int, events: seq<Event>)
    ensures Growing(RunAll(o, start, clock, events).s)
    ensures RunAll(o, start, clock, events).s.text == RunAll(o, start, clock, events).pushed
    ensures ClockForward(o, start, clock, events) ==> Backed(o, RunAll(o, start, clock, events))
  {
    hide Step, Growing, Backed;
    if events == [] {
      NewInv(o, start, clock);
    } else {
      var n := |events| - 1;
      RunInv(o, start, clock, events[..n]);
      var before := RunAll(o, start, clock, events[..n]);
      StepGrows(o, before.s, events[n]);
      StepText(o, before.s, events[n]);
      if ClockForward(o, start, clock, events) {
        FollowBacked(o, before, events[n]);
      }
    }
  }

  lemma NewInv(o: Options, start: int, clock: int)
    ensures Growing(New(start)) && Backed(o, Run(New(start), [], "", clock))
  {
  }

  lemma StepText(o: Options, s: Session, e: Event)
    ensures Step(o, s, e).text == if e.Push? && !s.closed then s.text + e.delta else s.text
  {
  }

  // ----------------------------------------------------------- main results

  /** Every frame is a prefix of what was pushed, each one strictly longer than the one before. */
  lemma FramesAreGrowingPrefixes(o: Options, start: int, events: seq<Event>)
    ensures var r := RunAll(o, start, start, events);
            && (forall i :: 0 <= i < |r.s.sent| ==> r.s.sent[i] <= r.pushed && r.s.sent[i] != "")
            && (forall i, j :: 0 <= i < j < |r.s.sent| ==> ProperPrefix(r.s.sent[i], r.s.sent[j]))
  {
    RunInv(o, start, start, events);
    var s := RunAll(o, start, start, events).s;
    forall i | 0 <= i < |s.sent| ensures s.sent[i] != "" {
      assert i == 0 || ProperPrefix(s.sent[0], s.sent[i]);
    }
  }

  /** While the session is open, text that no frame covers is backed by a timer due within both limits of the oldest such push. */
  lemma UnsentTextHasTimer(o: Options, start: int, clock: int, events: seq<Event>)
    requires ClockForward(o, start, clock, events)
    ensures var r := RunAll(o, start, clock, events);
            !r.s.closed && r.s.lastFlushed != r.pushed ==>
              && r.s.timer.Some?
              && (exists i :: 0 <= i < |r.marks| && r.marks[i].upTo > |r.s.lastFlushed|)
              && (forall i :: 0 <= i < |r.marks| && r.marks[i].upTo > |r.s.lastFlushed| ==>
                    r.s.timer.value <= r.marks[i].at + o.throttleMs && r.s.timer.value <= r.marks[i].at + o.tailMs)
  {
    RunInv(o, start, clock, events);
  }

  /** end on an open session: the last frame, if there is any text, is all of it. */
  lemma EndSendsAll(o: Options, start: int, events: seq<Event>, now: int)
    requires !RunAll(o, start, start, events).s.closed
    ensures var before := RunAll(o, start, start, events);
            var s := Step(o, before.s, End(now));
            && s.closed
            && (before.pushed != "" ==> s.sent != [] && s.sent[|s.sent| - 1] == before.pushed)
            && (before.pushed == "" ==> s.sent == [])
  {
    RunInv(o, start, start, events);
    var before := RunAll(o, start, start, events).s;
    FlushGrows(before.(closed := true, timer := None), now);
    StepGrows(o, before, End(now));
  }

  /** After end or abort nothing is ever sent again. */
  lemma {:induction false} ClosedIsSilent(o: Options, start: int, events: seq<Event>, more: seq<Event>)
    requires RunAll(o, start, start, events).s.closed
    ensures var r := RunAll(o, start, start, events + more).s;
            r.closed && r.sent == RunAll(o, start, start, events).s.sent
  {
    if more == [] {
      assert events + more == events;
    } else {
      var n := |more| - 1;
      assert (events + more)[..|events| + n] == events + more[..n];
      ClosedIsSilent(o, start, events, more[..n]);
      RunInv(o, start, start, events + more[..n]);
    }
  }
}
