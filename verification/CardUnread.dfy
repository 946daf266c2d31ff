// Unread accounting: only the last step of a finish can count a card as
// unread. Fault-free, every finished round counts exactly once; under faults a
// round counts once more for each card it splits off after that card had
// already been turned loud by a finish that was reported as failed. CardTwice
// says which lists of calls can get there.

module CardUnread {
  import opened Prelude
  import opened CardContent
  import opened Wire
  import opened CardSpec
  import opened CardFaults
  import opened CardFaultFree
  import ElementIds
  import CardSync

  /** From w to w' nothing was counted: no message changed its silence, and new ones are silent. */
  ghost predicate Hushed(w: World, w': World) {
    && w'.unread == w.unread
    && |w.messages| <= |w'.messages|
    && (forall m :: 0 <= m < |w.messages| ==> w'.messages[m].card.silent == w.messages[m].card.silent)
    && (forall m :: |w.messages| <= m < |w'.messages| ==> IsSilent(w'.messages[m].card))
  }

  ghost predicate Rung(s: Sys) {
    s.c.messageId.Some? && s.c.messageId.value < |s.w.messages| && IsLoud(s.w.messages[s.c.messageId.value].card)
  }

  function RungCount(b: bool): nat {
    if b then 1 else 0
  }

  lemma HushedTrans(a: World, b: World, c: World)
    requires Hushed(a, b) && Hushed(b, c)
    ensures Hushed(a, c)
  {
    forall m | |a.messages| <= m < |c.messages| ensures IsSilent(c.messages[m].card) {
      assert m < |b.messages| ==> c.messages[m].card.silent == b.messages[m].card.silent;
    }
  }

  lemma SendHushed(w: World, target: Option<nat>, r: Request)
    requires r.Replace? ==> r.card.silent.None?
    requires r.Delta? ==> !r.op.SetSilent?
    ensures Hushed(w, Send(w, target, r).w)
  {
    var x := SendShape(w, target, r);
  }

  lemma TryPatchHushed(o: Options, s: Sys, op: Op)
    requires !op.SetSilent?
    ensures Hushed(s.w, TryPatch(o, s, op).s.w)
    ensures TryPatch(o, s, op).s.c == s.c.(failures := TryPatch(o, s, op).s.c.failures)
  {
    hide Send;
    SendHushed(s.w, s.c.messageId, Delta(op));
    var first := Send(s.w, s.c.messageId, Delta(op)).w;
    var r := Replace(ShadowCard(s.c.(failures := s.c.failures + 1)));
    SendHushed(first, s.c.messageId, r);
    var healed := Send(first, s.c.messageId, r).w;
    SendHushed(healed, s.c.messageId, Delta(RetryOp(op)));
    HushedTrans(s.w, first, healed);
    HushedTrans(s.w, healed, Send(healed, s.c.messageId, Delta(RetryOp(op))).w);
  }

  /** The card object stays on its message, or moves to none or to a newer one. */
  ghost predicate MovesOn(s: Sys, s': Sys) {
    s'.c.messageId == s.c.messageId || s'.c.messageId.None? || s'.c.messageId.value >= |s.w.messages|
  }

  ghost predicate Quiet(s: Sys, s': Sys) {
    Hushed(s.w, s'.w) && MovesOn(s, s')
  }

  lemma QuietTrans(a: Sys, b: Sys, c: Sys)
    requires Quiet(a, b) && Quiet(b, c)
    ensures Quiet(a, c)
  {
    HushedTrans(a.w, b.w, c.w);
  }

  lemma CreateQuiet(s: Sys)
    ensures Quiet(s, CreateCard(s).s)
  {
  }

  lemma EnsureQuiet(s: Sys)
    ensures Quiet(s, EnsureCard(s).s)
    ensures !s.c.isSealed && s.c.messageId.Some? ==> EnsureCard(s).s == s
    ensures !s.c.isSealed ==> EnsureCard(s).s.c.isSealed == s.c.isSealed
  {
    var c := if s.c.isSealed then ResetRound(s.c) else s.c;
    CreateQuiet(s.(c := c));
  }

  lemma EnterQuiet(o: Options, s: Sys, existed: bool)
    ensures Quiet(s, EnterCard(o, s, existed).s)
    ensures EnterCard(o, s, existed).s.c.isSealed == s.c.isSealed
  {
    hide TryPatch;
    var segment := if s.c.segmentIndex == 0 then "first" else "middle";
    var s0 := s.(c := s.c.(segment := Some(segment), state := "done"));
    TryPatchHushed(o, s0, SetState("done"));
    var done := TryPatch(o, s0, SetState("done")).s;
    TryPatchHushed(o, done, SetSegment(segment));
    HushedTrans(s.w, done.w, TryPatch(o, done, SetSegment(segment)).s.w);
    var room := MakeRoom(o, s, existed);
    assert Quiet(s, room.s);
    if room.ok && room.s.c.messageId.None? {
      CreateQuiet(room.s);
      QuietTrans(s, room.s, CreateCard(room.s).s);
    }
  }

  lemma FlushQuiet(o: Options, s: Sys, elem: Elem)
    ensures Quiet(s, FlushPending(o, s, elem).s)
    ensures FlushPending(o, s, elem).s.c.isSealed == s.c.isSealed
  {
    hide TryPatch;
    if elem.id in s.c.pending {
      var merged := elem.data + s.c.pending[elem.id];
      var c := s.c.(pending := s.c.pending - {elem.id}, mirror := MirrorData(s.c.mirror, elem.id, merged));
      TryPatchHushed(o, s.(c := c), Update(elem.id, Some(merged)));
    }
  }

  lemma AppendJobQuiet(o: Options, s: Sys, elem: Elem)
    ensures Quiet(s, AppendJob(o, s, elem).s)
    ensures AppendJob(o, s, elem).s.c.isSealed == s.c.isSealed
  {
    hide TryPatch, EnterCard, FlushPending;
    var existed := HasId(s.c.mirror, elem.id);
    EnterQuiet(o, s, existed);
    var carded := EnterCard(o, s, existed);
    if carded.ok && carded.s.c.messageId.Some? {
      var s1 := carded.s.(c := Shadow(carded.s.c, elem, existed, carded.s.c.messageId.value));
      var op := if existed then Update(elem.id, Some(elem.data)) else Append(Some(elem));
      TryPatchHushed(o, s1, op);
      var sent := TryPatch(o, s1, op).s;
      FlushQuiet(o, sent, elem);
      QuietTrans(s, s1, sent);
      QuietTrans(s, sent, FlushPending(o, sent, elem).s);
    }
  }

  /** Appends and updates count nothing, whatever fails. */
  lemma AppendAndUpdateCountNothing(o: Options, s: Sys, call: Call)
    requires call.AppendOf? || call.UpdateOf?
    ensures Quiet(s, Perform(o, s, call).s)
    ensures !s.c.isSealed ==> !Perform(o, s, call).s.c.isSealed
  {
    match call
    case AppendOf(kind, data) =>
      hide AppendJob, EnsureCard;
      EnsureQuiet(s);
      var ensured := EnsureCard(s);
      if ensured.ok {
        var s1 := ensured.s.(c := TakeId(ensured.s.c, data));
        AppendJobQuiet(o, s1, NewElem(ensured.s.c, kind, data));
        QuietTrans(s, s1, AppendJob(o, s1, NewElem(ensured.s.c, kind, data)).s);
      }
    case UpdateOf(id, data) =>
      hide TryPatch, Send;
      if !s.c.isSealed && HasId(s.c.mirror, id) {
        var merged := s.c.mirror[IndexOf(s.c.mirror, id)].data + data;
        TryPatchHushed(o, s.(c := s.c.(mirror := MirrorData(s.c.mirror, id, merged))), Update(id, Some(merged)));
      } else if id in s.c.cardIds {
        SendHushed(s.w, Some(s.c.cardIds[id]), Delta(Update(id, Some(data))));
      }
  }

  // ---------------------------------------------------------------- finish

  /** Ringing: the card is counted by the first request that turns it loud and by none after it. */
  lemma SendRing(w: World, m: nat, op: Op)
    requires op == SetSilent(Some(false)) && m < |w.messages| && w.messages[m].card.silent.Some?
    ensures var w' := Send(w, Some(m), Delta(op)).w;
            && |w'.messages| == |w.messages| && w'.messages[m].card.silent.Some?
            && w'.unread - RungCount(IsLoud(w'.messages[m].card)) == w.unread - RungCount(IsLoud(w.messages[m].card))
  {
    var x := SendShape(w, Some(m), Delta(op));
  }

  lemma TryPatchRing(o: Options, s: Sys)
    requires s.c.messageId.Some? && s.c.messageId.value < |s.w.messages|
    requires s.w.messages[s.c.messageId.value].card.silent.Some?
    ensures var r := TryPatch(o, s, SetSilent(Some(false))).s;
            && r.c == s.c.(failures := r.c.failures)
            && r.w.unread - RungCount(Rung(r)) == s.w.unread - RungCount(Rung(s))
  {
    hide Send;
    var m := s.c.messageId.value;
    var op := SetSilent(Some(false));
    SendRing(s.w, m, op);
    var first := Send(s.w, Some(m), Delta(op)).w;
    var r := Replace(ShadowCard(s.c.(failures := s.c.failures + 1)));
    SendHushed(first, Some(m), r);
    SendRing(Send(first, Some(m), r).w, m, op);
  }

  lemma HushedKeepsRung(s: Sys, s': Sys)
    requires Hushed(s.w, s'.w) && s'.c.messageId == s.c.messageId
    requires s.c.messageId.Some? && s.c.messageId.value < |s.w.messages|
    ensures Rung(s') == Rung(s)
  {
  }

  lemma FinishFullRings(o: Options, s: Sys, footer: Data)
    requires Sound(s) && s.c.messageId.Some?
    ensures var r := FinishFull(o, s, footer).s;
            && r.c.messageId == s.c.messageId
            && r.w.unread - RungCount(Rung(r)) == s.w.unread - RungCount(Rung(s))
  {
    hide TryPatch;
    var k := s.c.footerSeq + 1;
    var elem := Elem("footer", ElementIds.FooterId(k), FooterData(footer));
    var s1 := s.(c := s.c.(footerSeq := k, mirror := s.c.mirror + [elem]));
    TryPatchHushed(o, s1, Append(Some(elem)));
    var added := TryPatch(o, s1, Append(Some(elem))).s;
    var s2 := added.(c := added.c.(state := "done"));
    TryPatchHushed(o, s2, SetState("done"));
    var done := TryPatch(o, s2, SetState("done")).s;
    HushedTrans(s.w, added.w, done.w);
    HushedKeepsRung(s, added);
    HushedKeepsRung(s, done);
    TryPatchRing(o, done);
  }

  /** A finish of an open round: the count moves exactly with the loudness of the current card. */
  lemma FinishCountsOnce(o: Options, s: Sys, footer: Data)
    requires Sound(s) && !s.c.isSealed
    ensures var r := FinishCall(o, s, footer).s;
            && (s.c.messageId.Some? ==> r.c.messageId == s.c.messageId)
            && r.w.unread - RungCount(Rung(r)) == s.w.unread - RungCount(Rung(s))
  {
    hide TryPatch, FinishFull, EnsureCard;
    EnsureQuiet(s);
    EnsureCardSound(s);
    var ensured := EnsureCard(s);
    assert Rung(ensured.s) == Rung(s);
    if ensured.ok && ensured.s.c.messageId.Some? {
      if RecallEmptyCard(o, ensured.s.c) {
        if o.canRecall {
          RecallTidy(ensured.s.w, ensured.s.c.messageId);
        } else {
          var s1 := ensured.s.(c := ensured.s.c.(state := "done"));
          TryPatchHushed(o, s1, SetState("done"));
          HushedKeepsRung(s1, TryPatch(o, s1, SetState("done")).s);
        }
      } else {
        FinishFullRings(o, ensured.s, footer);
      }
    }
  }

  // ------------------------------------------------- one round, any failures

  /**
   * The calls of one round: it starts on an object without a card, or with the
   * append that follows a finished round, and it is open at every later call.
   */
  ghost predicate OneRound(o: Options, t: Trace) {
    && |t.states| > 0 && IsTrace(o, t.states[0], t) && Sound(t.states[0])
    && (if t.states[0].c.isSealed then t.calls != [] && t.calls[0].AppendOf? else t.states[0].c.messageId.None?)
    && (forall i :: 0 < i < |t.calls| ==> !t.states[i].c.isSealed)
    && (forall i :: 0 <= i < |t.calls| ==> NoFooterId(t.calls[i]))
  }

  /** Between these two states the open round moved off a card that was already loud. */
  ghost predicate LoudSplit(before: Sys, after: Sys) {
    !before.c.isSealed && Rung(before) && after.c.messageId != before.c.messageId
  }

  /** How often the first n calls did that. */
  ghost function LoudSplits(t: Trace, n: nat): nat
    requires n < |t.states|
  {
    if n == 0 then 0 else LoudSplits(t, n - 1) + RungCount(LoudSplit(t.states[n - 1], t.states[n]))
  }

  lemma CallTally(o: Options, s: Sys, call: Call)
    requires Sound(s) && !s.c.isSealed
    ensures var r := Perform(o, s, call).s;
            r.w.unread == s.w.unread - RungCount(Rung(s)) + RungCount(Rung(r))
                          + RungCount(Rung(s) && r.c.messageId != s.c.messageId)
  {
    hide FinishCall, AppendCall, UpdateCall;
    match call
    case FinishOf(footer) => FinishCountsOnce(o, s, footer);
    case InterruptOf => FinishCountsOnce(o, s, INTERRUPT_FOOTER);
    case _ =>
      AppendAndUpdateCountNothing(o, s, call);
      var r := Perform(o, s, call).s;
      if r.c.messageId == s.c.messageId && s.c.messageId.Some? {
        HushedKeepsRung(s, r);
      }
  }

  /** The first append after a finished round: nothing is counted, and the card of the new round is silent. */
  lemma SealedAppendQuiet(o: Options, s: Sys, call: Call)
    requires Sound(s) && s.c.isSealed && call.AppendOf?
    ensures var r := Perform(o, s, call).s; r.w.unread == s.w.unread && !Rung(r) && !r.c.isSealed
  {
    SealedAppendLeaves(o, s, call);
    AppendAndUpdateCountNothing(o, s, call);
    AppendUnseals(o, s, call.kind, call.data);
    hide Perform;
  }

  lemma AppendUnseals(o: Options, s: Sys, kind: string, data: Data)
    ensures !AppendCall(o, s, kind, data).s.c.isSealed
  {
    hide AppendJob;
    var ensured := EnsureCard(s);
    if ensured.ok {
      AppendJobQuiet(o, ensured.s.(c := TakeId(ensured.s.c, data)), NewElem(ensured.s.c, kind, data));
    }
  }

  /** The exact number of unread increments of a round so far, under every pattern of failures. */
  lemma {:induction false} RoundUnread(o: Options, t: Trace, i: nat)
    requires OneRound(o, t) && i <= |t.calls|
    ensures Sound(t.states[i])
    ensures t.states[i].w.unread == t.states[0].w.unread + LoudSplits(t, i) + RungCount(i > 0 && Rung(t.states[i]))
  {
    hide Perform, Sound, Rung, NoFooterId;
    if i > 0 {
      RoundUnread(o, t, i - 1);
      assert StepAt(o, t, i - 1);
      PerformSound(o, t.states[i - 1], t.calls[i - 1]);
      if t.states[i - 1].c.isSealed {
        SealedAppendQuiet(o, t.states[0], t.calls[0]);
      } else {
        NoneNotRung(t.states[0]);
        CallTally(o, t.states[i - 1], t.calls[i - 1]);
      }
    }
  }

  lemma NoneNotRung(s: Sys)
    ensures s.c.messageId.None? ==> !Rung(s)
  {
  }

  lemma UpdateStays(o: Options, s: Sys, id: string, data: Data)
    ensures var r := UpdateCall(o, s, id, data).s.c;
            r.messageId == s.c.messageId && r.isSealed == s.c.isSealed
  {
    hide Send;
  }

  /** Only an append can leave a card, and only a finish can ring one. */
  lemma CallMoves(o: Options, s: Sys, call: Call)
    requires Sound(s) && !s.c.isSealed
    ensures var r := Perform(o, s, call).s;
            && (!call.AppendOf? && s.c.messageId.Some? ==> r.c.messageId == s.c.messageId)
            && (!Finishes(call) && Rung(r) ==> Rung(s))
  {
    hide Perform, AppendCall, UpdateCall, FinishCall, Sound;
    match call {
      case AppendOf(_, _) =>
        AppendAndUpdateCountNothing(o, s, call);
      case UpdateOf(id, data) =>
        AppendAndUpdateCountNothing(o, s, call);
        PerformUpdate(o, s, id, data);
      case FinishOf(footer) =>
        PerformFinish(o, s);
        FinishCountsOnce(o, s, footer);
      case InterruptOf =>
        PerformFinish(o, s);
        FinishCountsOnce(o, s, INTERRUPT_FOOTER);
    }
  }

  lemma PerformUpdate(o: Options, s: Sys, id: string, data: Data)
    ensures var r := Perform(o, s, UpdateOf(id, data)).s.c;
            r.messageId == s.c.messageId && r.isSealed == s.c.isSealed
  {
    UpdateStays(o, s, id, data);
  }

  lemma PerformFinish(o: Options, s: Sys)
    ensures forall footer :: Perform(o, s, FinishOf(footer)) == FinishCall(o, s, footer)
    ensures Perform(o, s, InterruptOf) == FinishCall(o, s, INTERRUPT_FOOTER)
  {
  }

  // ------------------------------------------------------------- fault-free

  /** The open round's card has not been turned loud yet. */
  ghost predicate OpenIsSilent(s: Sys) {
    !s.c.isSealed && s.c.messageId.Some? && s.c.messageId.value < |s.w.messages| ==> !Rung(s)
  }

  /** A finish that has something to finish. */
  ghost predicate Completes(o: Options, s: Sys, call: Call) {
    (call.FinishOf? || call.InterruptOf?) && !s.c.isSealed && !RecallEmptyCard(o, EnsureCard(s).s.c)
  }

  lemma FinishFullLoud(o: Options, s: Sys, footer: Data)
    requires Clean(s) && !s.c.isSealed && s.c.messageId.Some?
    ensures var r := FinishFull(o, s, footer).s; Rung(r) && r.c.isSealed
  {
    hide TryPatch;
    var k := s.c.footerSeq + 1;
    var elem := Elem("footer", ElementIds.FooterId(k), FooterData(footer));
    var s1 := s.(c := s.c.(footerSeq := k, mirror := s.c.mirror + [elem]));
    PatchCalm(o, s1, Append(Some(elem)), s.c.cardIds);
    var added := TryPatch(o, s1, Append(Some(elem))).s;
    var s2 := added.(c := added.c.(state := "done"));
    PatchCalm(o, s2, SetState("done"), s.c.cardIds);
    var done := TryPatch(o, s2, SetState("done")).s;
    PatchCalm(o, done, SetSilent(Some(false)), s.c.cardIds);
  }

  lemma FinishCounts(o: Options, s: Sys, footer: Data)
    requires Clean(s) && OpenIsSilent(s)
    ensures var r := FinishCall(o, s, footer).s;
            && r.c.isSealed
            && r.w.unread == s.w.unread + RungCount(!s.c.isSealed && !RecallEmptyCard(o, EnsureCard(s).s.c))
  {
    hide TryPatch, FinishFull, EnsureCard;
    if !s.c.isSealed {
      EnsureQuiet(s);
      EnsureClean(s);
      FinishCountsOnce(o, s, footer);
      var ensured := EnsureCard(s).s;
      assert !Rung(ensured);
      if RecallEmptyCard(o, ensured.c) {
        FinishEmptyCalm(o, ensured);
        if !o.canRecall {
          TryPatchHushed(o, ensured.(c := ensured.c.(state := "done")), SetState("done"));
        }
      } else {
        FinishFullLoud(o, ensured, footer);
      }
    }
  }

  lemma CallCounts(o: Options, s: Sys, call: Call)
    requires Clean(s) && OpenIsSilent(s) && NoFooterId(call) && Guard(s, call)
    ensures var r := Perform(o, s, call).s;
            && OpenIsSilent(r)
            && r.w.unread == s.w.unread + RungCount(Completes(o, s, call))
  {
    hide FinishCall, AppendCall, UpdateCall;
    match call
    case FinishOf(footer) => FinishCounts(o, s, footer);
    case InterruptOf => FinishCounts(o, s, INTERRUPT_FOOTER);
    case UpdateOf(id, data) =>
      AppendAndUpdateCountNothing(o, s, call);
      CallRefines(o, s, call);
      PerformUpdate(o, s, id, data);
    case AppendOf(_, _) =>
      AppendAndUpdateCountNothing(o, s, call);
      CallRefines(o, s, call);
      if s.c.isSealed {
        SealedAppendLeaves(o, s, call);
      }
  }

  /** An append after a finish goes to a new message. */
  lemma SealedAppendLeaves(o: Options, s: Sys, call: Call)
    requires Sound(s) && s.c.isSealed && call.AppendOf?
    ensures var r := Perform(o, s, call).s; r.c.messageId.None? || r.c.messageId.value >= |s.w.messages|
  {
    hide AppendJob;
    var ensured := EnsureCard(s);
    if ensured.ok {
      var s1 := ensured.s.(c := TakeId(ensured.s.c, call.data));
      AppendJobQuiet(o, s1, NewElem(ensured.s.c, call.kind, call.data));
    }
  }

  /** How many of the first n calls finished a round. */
  ghost function Completed(o: Options, t: Trace, n: nat): nat
    requires n <= |t.calls| < |t.states|
  {
    if n == 0 then 0 else Completed(o, t, n - 1) + RungCount(Completes(o, t.states[n - 1], t.calls[n - 1]))
  }

  /** Fault-free, unread is the number of finished rounds, however many cards each was split into. */
  lemma {:induction false} OneUnreadPerRound(o: Options, t: Trace, i: nat)
    requires IsTrace(o, NewSys([]), t) && i <= |t.calls| && Guarded(t, i)
    ensures t.states[i].w.unread == Completed(o, t, i)
    ensures OpenIsSilent(t.states[i])
  {
    hide Perform, OpenIsSilent, Completes, Guard, NoFooterId, Clean;
    if i == 0 {
      NewOpenIsSilent();
    } else {
      OneUnreadPerRound(o, t, i - 1);
      FaultFreeRun(o, t, i - 1);
      assert StepAt(o, t, i - 1);
      CallCounts(o, t.states[i - 1], t.calls[i - 1]);
    }
  }

  lemma NewOpenIsSilent()
    ensures OpenIsSilent(NewSys([]))
  {
  }
}
