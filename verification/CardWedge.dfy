// Two ways a card object stops working for good: a card creation that
// ensureCard waits for failed, or a recall took effect but was reported as a
// failure. For both: when exactly it happens, and that it never passes.

module CardWedge {
  import opened Prelude
  import opened CardContent
  import opened Wire
  import opened CardSpec
  import opened CardFields
  import CardFaults
  import CardSync
  import ElementIds

  // ------------------------------------------------------ rejected creation

  /** The creation that every later call waits for has been rejected. */
  predicate Wedged(s: Sys) {
    !s.c.isSealed && s.c.messageId.None? && s.c.inflight.Crashed?
  }

  /** The call makes ensureCard issue a sendCard: a new round's first append, or the first start without a card. */
  predicate Opens(s: Sys, call: Call) {
    if s.c.isSealed then call.AppendOf?
    else Starts(call) && s.c.messageId.None? && s.c.inflight.NoFlight?
  }

  predicate BadOpening(s: Sys, call: Call) {
    Opens(s, call) && !NextOutcome(s.w).Delivered?
  }

  /** What ensureCard leaves, and when it throws. */
  lemma EnsureOutcome(s: Sys)
    ensures var r := EnsureCard(s);
            && !r.s.c.isSealed
            && (r.ok ==> r.s.c.messageId.Some? || !r.s.c.inflight.Crashed?)
            && (!r.ok ==> Wedged(r.s))
            && (!r.ok <==> Wedged(s) || ((s.c.isSealed || (s.c.messageId.None? && s.c.inflight.NoFlight?)) && !NextOutcome(s.w).Delivered?))
  {
  }

  /** For every state and call: the object is wedged afterwards exactly if it was, or its ensureCard got no acknowledgement. */
  lemma WedgedIff(o: Options, s: Sys, call: Call)
    ensures Wedged(Perform(o, s, call).s) <==> Wedged(s) || BadOpening(s, call)
  {
    hide AppendJob, FinishEmpty, FinishFull, UpdateCall, EnsureCard, EnterCard;
    EnsureOutcome(s);
    var ensured := EnsureCard(s);
    match call
    case AppendOf(kind, data) =>
      if ensured.ok {
        var s1 := ensured.s.(c := TakeId(ensured.s.c, data));
        var elem := NewElem(ensured.s.c, kind, data);
        JobFields(o, s1, elem);
        EnterFields(o, s1, HasId(s1.c.mirror, elem.id));
      }
    case UpdateOf(id, data) => UpdateFields(o, s, id, data);
    case FinishOf(footer) => FinishFields(o, ensured.s, footer);
    case InterruptOf => FinishFields(o, ensured.s, INTERRUPT_FOOTER);
  }

  /** At every point of every run: wedged exactly if some call so far opened without an acknowledgement. */
  lemma {:induction false} WedgedIffBadOpening(o: Options, s: Sys, t: Trace, i: nat)
    requires IsTrace(o, s, t) && i <= |t.calls| && !Wedged(s)
    ensures Wedged(t.states[i]) <==> exists j :: 0 <= j < i && BadOpening(t.states[j], t.calls[j])
  {
    hide Perform, Wedged, BadOpening;
    if i > 0 {
      WedgedIffBadOpening(o, s, t, i - 1);
      assert StepAt(o, t, i - 1);
      WedgedIff(o, t.states[i - 1], t.calls[i - 1]);
    }
  }

  lemma WedgedCall(o: Options, s: Sys, call: Call)
    requires Wedged(s)
    ensures var r := Perform(o, s, call);
            Wedged(r.s) && |r.s.w.messages| == |s.w.messages| && (Starts(call) ==> !r.ok && r.s == s)
  {
    hide TryPatch, Send;
    if call.UpdateOf? {
      UpdateFields(o, s, call.id, call.patch);
      if HasId(s.c.mirror, call.id) {
        var merged := s.c.mirror[IndexOf(s.c.mirror, call.id)].data + call.patch;
        CardSync.DeadPatch(o, s.(c := s.c.(mirror := MirrorData(s.c.mirror, call.id, merged))), Update(call.id, Some(merged)));
        PatchedFields(o, s, s.c.(mirror := MirrorData(s.c.mirror, call.id, merged)), Update(call.id, Some(merged)));
      } else if call.id in s.c.cardIds {
        var x := CardFaults.SendShape(s.w, Some(s.c.cardIds[call.id]), Delta(Update(call.id, Some(call.patch))));
      }
    }
  }

  /** A wedged object never gets a card again, and no append or finish ever returns. */
  lemma {:induction false} WedgedForever(o: Options, s: Sys, t: Trace, i: nat)
    requires Wedged(s) && IsTrace(o, s, t) && i <= |t.calls|
    ensures Wedged(t.states[i]) && |t.states[i].w.messages| == |s.w.messages|
    ensures i < |t.calls| && Starts(t.calls[i]) ==> !t.oks[i]
  {
    hide Perform, Wedged;
    if i > 0 {
      WedgedForever(o, s, t, i - 1);
      assert StepAt(o, t, i - 1);
      WedgedCall(o, t.states[i - 1], t.calls[i - 1]);
    }
    if i < |t.calls| {
      assert StepAt(o, t, i);
      WedgedCall(o, t.states[i], t.calls[i]);
    }
  }

  // --------------------------------------------------------- recalled card

  /** The current message is gone but the object does not know its round is over. */
  predicate Gone(s: Sys) {
    !s.c.isSealed && s.c.messageId.Some? && !Live(s.w, s.c.messageId)
  }

  /** The call recalls an empty card, and the recall is applied but not acknowledged. */
  predicate BadRecall(o: Options, s: Sys, call: Call) {
    && Finishes(call) && !s.c.isSealed
    && var e := EnsureCard(s);
       e.ok && Live(e.s.w, e.s.c.messageId) && RecallEmptyCard(o, e.s.c) && o.canRecall && NextOutcome(e.s.w).Unacked?
  }

  lemma GonePatch(o: Options, s: Sys, op: Op)
    requires Gone(s)
    ensures var r := TryPatch(o, s, op); !r.ok && Gone(r.s) && r.s.c == s.c.(failures := r.s.c.failures)
  {
    CardSync.DeadPatch(o, s, op);
    TryPatchFields(o, s, op);
    hide TryPatch;
  }

  lemma GoneSend(s: Sys, target: Option<nat>, r: Request)
    requires Gone(s)
    ensures Gone(s.(w := Send(s.w, target, r).w))
  {
    var x := CardFaults.SendShape(s.w, target, r);
  }

  lemma GoneAppend(o: Options, s: Sys, elem: Elem)
    requires Gone(s)
    ensures var r := AppendJob(o, s, elem); !r.ok && Gone(r.s)
  {
    hide TryPatch;
    var existed := HasId(s.c.mirror, elem.id);
    var segment := if s.c.segmentIndex == 0 then "first" else "middle";
    GonePatch(o, s.(c := s.c.(segment := Some(segment), state := "done")), SetState("done"));
    GonePatch(o, s.(c := Shadow(s.c, elem, existed, s.c.messageId.value)),
              if existed then Update(elem.id, Some(elem.data)) else Append(Some(elem)));
  }

  lemma GoneFinish(o: Options, s: Sys, footer: Data)
    requires Gone(s)
    ensures var r := FinishCall(o, s, footer); !r.ok && Gone(r.s)
  {
    hide TryPatch;
    GonePatch(o, s.(c := s.c.(state := "done")), SetState("done"));
    var k := s.c.footerSeq + 1;
    var elem := Elem("footer", ElementIds.FooterId(k), FooterData(footer));
    GonePatch(o, s.(c := s.c.(footerSeq := k, mirror := s.c.mirror + [elem])), Append(Some(elem)));
  }

  lemma GoneStays(o: Options, s: Sys, call: Call)
    requires Gone(s)
    ensures var r := Perform(o, s, call); Gone(r.s) && (Starts(call) ==> !r.ok)
  {
    hide AppendJob, FinishCall, TryPatch, Send;
    match call
    case AppendOf(kind, data) =>
      GoneAppend(o, s.(c := TakeId(s.c, data)), NewElem(s.c, kind, data));
    case FinishOf(footer) => GoneFinish(o, s, footer);
    case InterruptOf => GoneFinish(o, s, INTERRUPT_FOOTER);
    case UpdateOf(id, data) =>
      if HasId(s.c.mirror, id) {
        var merged := s.c.mirror[IndexOf(s.c.mirror, id)].data + data;
        GonePatch(o, s.(c := s.c.(mirror := MirrorData(s.c.mirror, id, merged))), Update(id, Some(merged)));
      } else if id in s.c.cardIds {
        GoneSend(s, Some(s.c.cardIds[id]), Delta(Update(id, Some(data))));
      }
  }

  /** The card the object is on, if it is on one, is in the store. */
  predicate Present(s: Sys) {
    s.c.messageId.Some? ==> Live(s.w, s.c.messageId)
  }

  lemma EnsurePresent(s: Sys)
    requires s.c.isSealed || Present(s)
    ensures Present(EnsureCard(s).s) && !EnsureCard(s).s.c.isSealed
    ensures !s.c.isSealed && s.c.messageId.Some? ==> EnsureCard(s) == Run(s, true)
  {
  }

  lemma AppendPresent(o: Options, s: Sys, elem: Elem)
    requires Present(s)
    ensures Present(AppendJob(o, s, elem).s)
  {
    hide TryPatch, EnterCard;
    var existed := HasId(s.c.mirror, elem.id);
    EnterPresent(o, s, existed);
    var e := EnterCard(o, s, existed).s;
    if e.c.messageId.Some? {
      var s1 := e.(c := Shadow(e.c, elem, existed, e.c.messageId.value));
      var op := if existed then Update(elem.id, Some(elem.data)) else Append(Some(elem));
      CardSync.TryPatchLive(o, s1, op);
      var sent := TryPatch(o, s1, op).s;
      if elem.id in sent.c.pending {
        var merged := elem.data + sent.c.pending[elem.id];
        var c := sent.c.(pending := sent.c.pending - {elem.id}, mirror := MirrorData(sent.c.mirror, elem.id, merged));
        CardSync.TryPatchLive(o, sent.(c := c), Update(elem.id, Some(merged)));
      }
    }
  }

  lemma EnterPresent(o: Options, s: Sys, existed: bool)
    requires Present(s)
    ensures Present(EnterCard(o, s, existed).s)
  {
    hide TryPatch;
    if s.c.messageId.Some? {
      var segment := if s.c.segmentIndex == 0 then "first" else "middle";
      var s0 := s.(c := s.c.(segment := Some(segment), state := "done"));
      CardSync.TryPatchLive(o, s0, SetState("done"));
      CardSync.TryPatchLive(o, TryPatch(o, s0, SetState("done")).s, SetSegment(segment));
    }
  }

  lemma UpdatePresent(o: Options, s: Sys, id: string, data: Data)
    requires Present(s)
    ensures Present(UpdateCall(o, s, id, data).s)
  {
    hide TryPatch, Send;
    if s.c.messageId.Some? && !s.c.isSealed {
      if HasId(s.c.mirror, id) {
        var merged := s.c.mirror[IndexOf(s.c.mirror, id)].data + data;
        CardSync.TryPatchLive(o, s.(c := s.c.(mirror := MirrorData(s.c.mirror, id, merged))), Update(id, Some(merged)));
      } else if id in s.c.cardIds {
        var x := CardFaults.SendShape(s.w, Some(s.c.cardIds[id]), Delta(Update(id, Some(data))));
      }
    } else if s.c.messageId.None? && HasId(s.c.mirror, id) {
      var merged := s.c.mirror[IndexOf(s.c.mirror, id)].data + data;
      TryPatchFields(o, s.(c := s.c.(mirror := MirrorData(s.c.mirror, id, merged))), Update(id, Some(merged)));
    }
  }

  lemma FinishFullPresent(o: Options, s: Sys, footer: Data)
    requires Live(s.w, s.c.messageId)
    ensures Present(FinishFull(o, s, footer).s)
  {
    hide TryPatch;
    var elem := Elem("footer", ElementIds.FooterId(s.c.footerSeq + 1), FooterData(footer));
    var s2 := s.(c := s.c.(footerSeq := s.c.footerSeq + 1, mirror := s.c.mirror + [elem]));
    CardSync.TryPatchLive(o, s2, Append(Some(elem)));
    var added := TryPatch(o, s2, Append(Some(elem))).s;
    var s3 := added.(c := added.c.(state := "done"));
    CardSync.TryPatchLive(o, s3, SetState("done"));
    CardSync.TryPatchLive(o, TryPatch(o, s3, SetState("done")).s, SetSilent(Some(false)));
  }

  lemma FinishEmptyGone(o: Options, s: Sys)
    requires Live(s.w, s.c.messageId) && !s.c.isSealed
    ensures Gone(FinishEmpty(o, s).s) <==> o.canRecall && NextOutcome(s.w).Unacked?
  {
    if !o.canRecall {
      hide TryPatch;
      CardSync.TryPatchLive(o, s.(c := s.c.(state := "done")), SetState("done"));
    }
  }

  /** For every state and call: the card is gone afterwards exactly if it was, or its recall took effect unacknowledged. */
  lemma GoneIff(o: Options, s: Sys, call: Call)
    ensures Gone(Perform(o, s, call).s) <==> Gone(s) || BadRecall(o, s, call)
  {
    hide AppendJob, FinishEmpty, FinishFull, UpdateCall, EnsureCard, Live;
    if Gone(s) {
      GoneStays(o, s, call);
    } else {
      EnsurePresent(s);
      var ensured := EnsureCard(s);
      match call {
        case AppendOf(kind, data) =>
          if ensured.ok {
            AppendPresent(o, ensured.s.(c := TakeId(ensured.s.c, data)), NewElem(ensured.s.c, kind, data));
          }
        case UpdateOf(id, data) =>
          UpdateFields(o, s, id, data);
          if !s.c.isSealed {
            UpdatePresent(o, s, id, data);
          }
        case FinishOf(footer) => FinishGone(o, s, footer);
        case InterruptOf => FinishGone(o, s, INTERRUPT_FOOTER);
      }
    }
  }

  lemma FinishGone(o: Options, s: Sys, footer: Data)
    requires !Gone(s)
    ensures Gone(FinishCall(o, s, footer).s) <==> BadRecall(o, s, FinishOf(footer))
  {
    hide FinishEmpty, FinishFull, EnsureCard;
    if !s.c.isSealed {
      EnsurePresent(s);
      var ensured := EnsureCard(s);
      if ensured.ok && ensured.s.c.messageId.Some? {
        if RecallEmptyCard(o, ensured.s.c) {
          FinishEmptyGone(o, ensured.s);
        } else {
          FinishFullPresent(o, ensured.s, footer);
        }
      }
    }
  }

  /** At every point of every run: gone exactly if some finish so far recalled without an acknowledgement. */
  lemma {:induction false} GoneIffBadRecall(o: Options, s: Sys, t: Trace, i: nat)
    requires IsTrace(o, s, t) && i <= |t.calls| && !Gone(s)
    ensures Gone(t.states[i]) <==> exists j :: 0 <= j < i && BadRecall(o, t.states[j], t.calls[j])
  {
    hide Perform, Gone, BadRecall;
    if i > 0 {
      GoneIffBadRecall(o, s, t, i - 1);
      assert StepAt(o, t, i - 1);
      GoneIff(o, t.states[i - 1], t.calls[i - 1]);
    }
  }

  /** From then on no append or finish ever returns, whatever the network does. */
  lemma {:induction false} GoneForever(o: Options, s: Sys, t: Trace, i: nat)
    requires Gone(s) && IsTrace(o, s, t) && i <= |t.calls|
    ensures Gone(t.states[i])
    ensures i < |t.calls| && Starts(t.calls[i]) ==> !t.oks[i]
  {
    hide Perform, Gone;
    if i > 0 {
      GoneForever(o, s, t, i - 1);
      assert StepAt(o, t, i - 1);
      GoneStays(o, t.states[i - 1], t.calls[i - 1]);
    }
    if i < |t.calls| {
      assert StepAt(o, t, i);
      GoneStays(o, t.states[i], t.calls[i]);
    }
  }
}
