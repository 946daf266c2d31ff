// The throttle of the streaming session: when a push may send a frame, how far
// apart frames are, and how many there can be in any stretch of time.

module StreamThrottle {
  import opened Prelude
  import opened StreamSessions

  // ------------------------------------------------------- frames with times

  datatype Cause = ByPush | ByTimer | ByEnd

  /** When a frame was sent, and what sent it. */
  datatype Frame = Frame(at: int, cause: Cause)

  function CauseOf(e: Event): Cause {
    if e.Push? then ByPush else if e.TimerFires? then ByTimer else ByEnd
  }

  /** One entry for each frame of the run, in the order of sending. */
  function Frames(o: Options, start: int, clock: int, events: seq<Event>): seq<Frame> {
    if events == [] then []
    else
      var n := |events| - 1;
      var before := RunAll(o, start, clock, events[..n]);
      var rest := Frames(o, start, clock, events[..n]);
      if |Step(o, before.s, events[n]).sent| > |before.s.sent|
      then rest + [Frame(Time(events[n], before.clock), CauseOf(events[n]))]
      else rest
  }

  /** When the last frame was sent; the start of the session stands in for it before the first one. */
  function LastAt(frames: seq<Frame>, start: int): int {
    if frames == [] then start else frames[|frames| - 1].at
  }

  lemma {:induction false} FramesMatch(o: Options, start: int, clock: int, events: seq<Event>)
    ensures var s := RunAll(o, start, clock, events).s;
            var frames := Frames(o, start, clock, events);
            |frames| == |s.sent| && s.lastFlush == LastAt(frames, start)
  {
    if events != [] {
      FramesMatch(o, start, clock, events[..|events| - 1]);
    }
  }

  lemma Unfold(o: Options, start: int, clock: int, events: seq<Event>, e: Event)
    ensures RunAll(o, start, clock, events + [e]) == Follow(o, RunAll(o, start, clock, events), e)
    ensures var before := RunAll(o, start, clock, events);
            Frames(o, start, clock, events + [e]) ==
            Frames(o, start, clock, events)
            + if |Step(o, before.s, e).sent| > |before.s.sent| then [Frame(Time(e, before.clock), CauseOf(e))] else []
    ensures ClockForward(o, start, clock, events + [e]) <==>
            ClockForward(o, start, clock, events) && RunAll(o, start, clock, events).clock <= Time(e, RunAll(o, start, clock, events).clock)
  {
    hide Step, Follow;
    assert (events + [e])[..|events + [e]| - 1] == events;
  }

  // ---------------------------------------------------------------- one push

  /** What the frames have shown so far. */
  function Shown(s: Session): string {
    if s.sent == [] then "" else s.sent[|s.sent| - 1]
  }

  /**
   * A push on an open session sends the whole text at once if the throttle has
   * passed since the last frame and the text is not what that frame said.
   * Within the throttle it sends nothing, but a timer is due within both
   * limits, the one already running if there is one.
   */
  lemma PushSendsIff(o: Options, start: int, clock: int, events: seq<Event>, delta: string, now: int)
    requires !RunAll(o, start, clock, events).s.closed
    ensures var r := RunAll(o, start, clock, events);
            var r' := RunAll(o, start, clock, events + [Push(delta, now)]);
            var frames := Frames(o, start, clock, events);
            var due := now - LastAt(frames, start) >= o.throttleMs;
            && r'.pushed == r.pushed + delta
            && (if due && r'.pushed != Shown(r.s)
                then r'.s.sent == r.s.sent + [r'.pushed] && Frames(o, start, clock, events + [Push(delta, now)]) == frames + [Frame(now, ByPush)]
                else r'.s.sent == r.s.sent && Frames(o, start, clock, events + [Push(delta, now)]) == frames)
            && (!due ==>
                  && r'.s.timer.Some?
                  && (r.s.timer.Some? ==> r'.s.timer == r.s.timer)
                  && (r.s.timer.None? ==>
                        var wait := r'.s.timer.value - now;
                        wait <= o.throttleMs && wait <= o.tailMs && (wait == o.throttleMs || wait == o.tailMs)))
  {
    Unfold(o, start, clock, events, Push(delta, now));
    RunInv(o, start, clock, events);
    FramesMatch(o, start, clock, events);
    hide Frames, RunAll;
    var s := RunAll(o, start, clock, events).s;
    assert Shown(s) == s.lastFlushed;
  }

  // ---------------------------------------------------------------- spacing

  /** The times of the frames sent for this cause. */
  function Times(frames: seq<Frame>, cause: Cause): seq<int> {
    if frames == [] then []
    else
      var rest, f := Times(frames[..|frames| - 1], cause), frames[|frames| - 1];
      if f.cause == cause then rest + [f.at] else rest
  }

  ghost predicate Spaced(ts: seq<int>, gap: int) {
    forall i :: 0 < i < |ts| ==> ts[i] - ts[i - 1] >= gap
  }

  ghost predicate UpTo(ts: seq<int>, t: int) {
    forall i :: 0 <= i < |ts| ==> ts[i] <= t
  }

  lemma TimesSnoc(frames: seq<Frame>, f: Frame, cause: Cause)
    ensures Times(frames + [f], cause) == Times(frames, cause) + if f.cause == cause then [f.at] else []
  {
    assert (frames + [f])[..|frames|] == frames;
  }

  /** A frame that a push sends comes at least a throttle after the frame before it, whatever sent that one. */
  lemma {:induction false} PushKeepsDistance(o: Options, start: int, clock: int, events: seq<Event>, i: nat)
    requires i < |Frames(o, start, clock, events)| && Frames(o, start, clock, events)[i].cause.ByPush?
    ensures var frames := Frames(o, start, clock, events);
            frames[i].at - LastAt(frames[..i], start) >= o.throttleMs
  {
    var n := |events| - 1;
    assert events == events[..n] + [events[n]];
    Unfold(o, start, clock, events[..n], events[n]);
    FramesMatch(o, start, clock, events[..n]);
    var rest := Frames(o, start, clock, events[..n]);
    var frames := Frames(o, start, clock, events);
    if i < |rest| {
      PushKeepsDistance(o, start, clock, events[..n], i);
      assert frames[..i] == rest[..i];
    } else {
      assert frames[..i] == rest;
    }
  }

  /** No timer fires before its deadline. */
  ghost predicate Punctual(o: Options, start: int, clock: int, events: seq<Event>) {
    events == []
    || (&& Punctual(o, start, clock, events[..|events| - 1])
        && var e, s := events[|events| - 1], RunAll(o, start, clock, events[..|events| - 1]).s;
           e.TimerFires? && s.timer.Some? ==> s.timer.value <= e.now)
  }

  /** Frames that pushes sent keep their distance, and none lies ahead. */
  ghost predicate PushesInStep(o: Options, r: Run, frames: seq<Frame>) {
    var pushes := Times(frames, ByPush);
    && UpTo(pushes, r.s.lastFlush) && Spaced(pushes, o.throttleMs)
    && (frames != [] ==> r.s.lastFlush <= r.clock)
  }

  /** So do frames that timers sent, and end sends at most one. */
  ghost predicate TimersInStep(o: Options, r: Run, frames: seq<Frame>) {
    var timers := Times(frames, ByTimer);
    && UpTo(timers, r.clock) && Spaced(timers, Delay(o))
    && (r.s.timer.Some? ==> UpTo(timers, r.s.timer.value - Delay(o)))
    && |Times(frames, ByEnd)| <= (if r.s.closed then 1 else 0)
  }

  function Noted(o: Options, r: Run, frames: seq<Frame>, e: Event): seq<Frame> {
    frames + if |Step(o, r.s, e).sent| > |r.s.sent| then [Frame(Time(e, r.clock), CauseOf(e))] else []
  }

  lemma PushesStep(o: Options, r: Run, frames: seq<Frame>, e: Event)
    requires PushesInStep(o, r, frames) && r.clock <= Time(e, r.clock)
    requires |frames| == |r.s.sent| && (frames == [] ==> Times(frames, ByPush) == [])
    ensures PushesInStep(o, Follow(o, r, e), Noted(o, r, frames, e))
  {
    var f := Frame(Time(e, r.clock), CauseOf(e));
    TimesSnoc(frames, f, ByPush);
    hide Times;
    assert frames + [] == frames;
  }

  lemma TimersStep(o: Options, r: Run, frames: seq<Frame>, e: Event)
    requires TimersInStep(o, r, frames) && r.clock <= Time(e, r.clock)
    requires e.TimerFires? && r.s.timer.Some? ==> r.s.timer.value <= e.now
    requires r.s.closed ==> r.s.timer.None?
    ensures TimersInStep(o, Follow(o, r, e), Noted(o, r, frames, e))
  {
    var f := Frame(Time(e, r.clock), CauseOf(e));
    TimesSnoc(frames, f, ByTimer);
    TimesSnoc(frames, f, ByEnd);
    hide Times;
    assert frames + [] == frames;
  }

  /** The pushes keep step whenever timers fire, even early ones. */
  lemma {:induction false} RunInStep(o: Options, start: int, clock: int, events: seq<Event>)
    requires ClockForward(o, start, clock, events)
    ensures PushesInStep(o, RunAll(o, start, clock, events), Frames(o, start, clock, events))
    ensures Punctual(o, start, clock, events) ==> TimersInStep(o, RunAll(o, start, clock, events), Frames(o, start, clock, events))
  {
    if events != [] {
      var n := |events| - 1;
      RunInStep(o, start, clock, events[..n]);
      RunInv(o, start, clock, events[..n]);
      FramesMatch(o, start, clock, events[..n]);
      assert events == events[..n] + [events[n]];
      Unfold(o, start, clock, events[..n], events[n]);
      hide PushesInStep, TimersInStep, Frames, Follow, Step;
      PushesStep(o, RunAll(o, start, clock, events[..n]), Frames(o, start, clock, events[..n]), events[n]);
      if Punctual(o, start, clock, events) {
        TimersStep(o, RunAll(o, start, clock, events[..n]), Frames(o, start, clock, events[..n]), events[n]);
      }
    }
  }

  // ---------------------------------------------------------------- counting

  /** How many of these times lie from t0 to t1. */
  function Within(ts: seq<int>, t0: int, t1: int): nat {
    if ts == [] then 0
    else Within(ts[..|ts| - 1], t0, t1) + if t0 <= ts[|ts| - 1] <= t1 then 1 else 0
  }

  lemma {:induction false} SpacedAreFew(ts: seq<int>, gap: int, t0: int, t1: int)
    requires gap > 0 && Spaced(ts, gap) && t0 <= t1
    ensures Within(ts, t0, t1) > 0 ==>
              (Within(ts, t0, t1) - 1) * gap <= (if ts[|ts| - 1] < t1 then ts[|ts| - 1] else t1) - t0
  {
    if ts != [] {
      var n := |ts| - 1;
      SpacedAreFew(ts[..n], gap, t0, t1);
      if n > 0 {
        assert ts[n] - ts[n - 1] >= gap;
        var k := Within(ts[..n], t0, t1);
        assert (k - 1) * gap + gap == k * gap;
      }
    }
  }

  lemma WithinBound(ts: seq<int>, gap: int, t0: int, t1: int)
    requires gap > 0 && Spaced(ts, gap) && t0 <= t1
    ensures Within(ts, t0, t1) <= 1 + (t1 - t0) / gap
  {
    SpacedAreFew(ts, gap, t0, t1);
    var k := Within(ts, t0, t1);
    if k > 0 {
      assert (k - 1) * gap <= t1 - t0;
      Quotient(k - 1, gap, t1 - t0);
    }
  }

  lemma Quotient(k: nat, gap: int, length: nat)
    requires gap > 0 && k * gap <= length
    ensures k <= length / gap
  {
    var q := length / gap;
    if q < k {
      Multiples(q + 1, k, gap);
      assert false;
    }
  }

  lemma Multiples(a: nat, b: nat, gap: int)
    requires a <= b && gap > 0
    ensures a * gap <= b * gap
  {
    assert b * gap - a * gap == (b - a) * gap;
  }

  /** Pushes cause at most one frame per throttle interval, and one more. */
  lemma PushFramesAreFew(o: Options, start: int, clock: int, events: seq<Event>, t0: int, t1: int)
    requires ClockForward(o, start, clock, events) && o.throttleMs > 0 && t0 <= t1
    ensures Within(Times(Frames(o, start, clock, events), ByPush), t0, t1) <= 1 + (t1 - t0) / o.throttleMs
  {
    RunInStep(o, start, clock, events);
    WithinBound(Times(Frames(o, start, clock, events), ByPush), o.throttleMs, t0, t1);
  }

  /** All frames of a stretch of time: the pushes', the timers' and at most one of end. */
  lemma AllFramesAreFew(o: Options, start: int, clock: int, events: seq<Event>, t0: int, t1: int)
    requires ClockForward(o, start, clock, events) && Punctual(o, start, clock, events)
    requires o.throttleMs > 0 && o.tailMs > 0 && t0 <= t1
    ensures Within(At(Frames(o, start, clock, events)), t0, t1)
            <= 3 + (t1 - t0) / o.throttleMs + (t1 - t0) / if o.throttleMs <= o.tailMs then o.throttleMs else o.tailMs
  {
    var frames := Frames(o, start, clock, events);
    RunInStep(o, start, clock, events);
    WithinBound(Times(frames, ByPush), o.throttleMs, t0, t1);
    WithinBound(Times(frames, ByTimer), Delay(o), t0, t1);
    ByCause(frames, t0, t1);
    AtMostAll(Times(frames, ByEnd), t0, t1);
  }

  function At(frames: seq<Frame>): (ts: seq<int>)
    ensures |ts| == |frames|
  {
    seq(|frames|, i requires 0 <= i < |frames| => frames[i].at)
  }

  lemma {:induction false} ByCause(frames: seq<Frame>, t0: int, t1: int)
    ensures Within(At(frames), t0, t1) ==
            Within(Times(frames, ByPush), t0, t1) + Within(Times(frames, ByTimer), t0, t1) + Within(Times(frames, ByEnd), t0, t1)
  {
    if frames != [] {
      var n := |frames| - 1;
      ByCause(frames[..n], t0, t1);
      assert At(frames)[..n] == At(frames[..n]);
      WithinSnoc(Times(frames[..n], frames[n].cause), frames[n].at, t0, t1);
    }
  }

  lemma WithinSnoc(ts: seq<int>, t: int, t0: int, t1: int)
    ensures Within(ts + [t], t0, t1) == Within(ts, t0, t1) + if t0 <= t <= t1 then 1 else 0
  {
    assert (ts + [t])[..|ts|] == ts;
  }

  lemma {:induction false} AtMostAll(ts: seq<int>, t0: int, t1: int)
    ensures Within(ts, t0, t1) <= |ts|
  {
    if ts != [] {
      AtMostAll(ts[..|ts| - 1], t0, t1);
    }
  }
}
