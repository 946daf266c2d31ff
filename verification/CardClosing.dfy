// What closing a round leaves in the store when nothing fails: the footer's
// data key by key, an interrupt, and a round that never took an element.

module CardClosing {
  import opened Prelude
  import opened CardContent
  import opened Wire
  import opened CardSpec
  import opened CardFaults
  import opened CardFaultFree
  import CardSplit
  import ElementIds

  /** stored is the footer a caller asked for: finished, with durationMs under the name duration, all else as given. */
  ghost predicate FooterFor(stored: Data, footer: Data) {
    && "finished" in stored && stored["finished"] == Bool(true)
    && "durationMs" !in stored
    && ("durationMs" in footer ==> "duration" in stored && stored["duration"] == footer["durationMs"])
    && ("durationMs" !in footer ==> ("duration" in stored <==> "duration" in footer))
    && ("durationMs" !in footer && "duration" in footer ==> stored["duration"] == footer["duration"])
    && forall key :: key != "finished" && key != "durationMs" && key != "duration" ==>
         (key in stored <==> key in footer) && (key in footer ==> stored[key] == footer[key])
  }

  lemma FooterDataFor(footer: Data)
    ensures FooterFor(FooterData(footer), footer)
  {
    assert "finished" != "durationMs" && "finished" != "duration" && "duration" != "durationMs" by {
      assert |"finished"| == 8 && |"durationMs"| == 10 && "finished"[0] == 'f' && "duration"[0] == 'd';
    }
  }

  /** The card has got a footer with this data at its end, and is done and loud. */
  ghost predicate ClosedWith(before: Card, after: Card, footer: Data) {
    && |after.elements| == |before.elements| + 1
    && after.elements[..|before.elements|] == before.elements
    && after.elements[|before.elements|].kind == "footer"
    && FooterFor(after.elements[|before.elements|].data, footer)
    && after.state == "done" && after.segment == before.segment && IsLoud(after)
  }

  /** w' is w with message m closed, counted once. */
  ghost predicate Closes(w: World, w': World, m: nat, footer: Data) {
    && m < |w.messages| == |w'.messages|
    && (forall k :: 0 <= k < |w.messages| && k != m ==> w'.messages[k] == w.messages[k])
    && ClosedWith(w.messages[m].card, w'.messages[m].card, footer)
    && !w'.messages[m].recalled
    && w'.unread == w.unread + 1
  }

  lemma FullCloses(o: Options, s: Sys, m: nat, footer: Data)
    requires s.w.faults == [] && s.c.messageId == Some(m) && Live(s.w, Some(m)) && IsSilent(s.w.messages[m].card)
    ensures var r := FinishFull(o, s, footer); r.ok && r.s.c.isSealed && Closes(s.w, r.s.w, m, footer)
  {
    hide FinishFull, FooterFor, ElementIds.FooterId;
    CardSplit.FinishEffect(o, s, m, footer);
    FooterDataFor(footer);
  }

  /** The footer of a finish, or of an interrupt. */
  function FooterSent(call: Call): Data
    requires Finishes(call)
  {
    if call.FinishOf? then call.footer else map["reason" := Text("interrupt")]
  }

  /**
   * A finish, or an interrupt, of an open round that has taken an element: the
   * current card gets the footer, is done and loud and counted once, and every
   * other message stays as it is.
   */
  lemma FinishCloses(o: Options, s: Sys, call: Call)
    requires Clean(s) && !s.c.isSealed && s.c.messageId.Some? && s.c.cardIds != map[] && Finishes(call)
    requires IsSilent(s.w.messages[s.c.messageId.value].card)
    ensures var r := Perform(o, s, call); r.ok && r.s.c.isSealed && Closes(s.w, r.s.w, s.c.messageId.value, FooterSent(call))
  {
    hide FinishFull, Closes, Sound;
    FullCloses(o, s, s.c.messageId.value, FooterSent(call));
  }

  /** Once finished, a second finish does nothing. */
  lemma FinishOnce(o: Options, s: Sys, call: Call)
    requires s.c.isSealed && Finishes(call)
    ensures Perform(o, s, call) == Run(s, true)
  {
  }

  /**
   * A finish before any element: its card is recalled if the options say so
   * and the io can, or settled silently without a footer if it cannot; without
   * the option it is closed like any other card.
   */
  lemma EmptyRoundCloses(o: Options, s: Sys, call: Call)
    requires s.w.faults == [] && s.c == NewClient && Finishes(call)
    ensures var r := Perform(o, s, call);
            var m := |s.w.messages|;
            && r.ok && r.s.c.isSealed && |r.s.w.messages| == m + 1
            && (forall k :: 0 <= k < m ==> r.s.w.messages[k] == s.w.messages[k])
            && (o.recallEmpty && o.canRecall ==> r.s.w.messages[m].recalled && r.s.w.unread == s.w.unread)
            && (o.recallEmpty && !o.canRecall ==>
                  r.s.w.messages[m] == Message(Card([], "done", None, Some(true)), false) && r.s.w.unread == s.w.unread)
            && (!o.recallEmpty ==>
                  && ClosedWith(Card([], "generating", None, Some(true)), r.s.w.messages[m].card, FooterSent(call))
                  && !r.s.w.messages[m].recalled && r.s.w.unread == s.w.unread + 1)
  {
    var m := |s.w.messages|;
    var c := NewClient.(messageId := Some(m), inflight := Landed);
    var w := s.w.(messages := s.w.messages + [Message(EmptyCard(None), false)]);
    assert EnsureCard(s) == Run(Sys(c, w), true);
    hide FinishFull, EnsureCard, FooterFor, TryPatch;
    if !o.recallEmpty {
      FullCloses(o, Sys(c, w), m, FooterSent(call));
    } else if !o.canRecall {
      TryPatchTaken(o, Sys(c.(state := "done"), w), m, SetState("done"));
    }
  }
}
