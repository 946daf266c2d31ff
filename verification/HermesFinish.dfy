// Closing the plugin's card: what finish leaves in the store, and what it does
// not settle any more.

module HermesFinish {
  import opened Prelude
  import opened CardContent
  import opened ElementIds
  import opened Wire
  import opened CardSpec
  import opened HermesSpec
  import opened HermesMirror
  import opened HermesSettle
  import CardFaultFree

  function FooterElem(s: Sys, footer: Data): Elem {
    Elem("footer", FooterId(s.c.footerSeq + 1), FooterData(footer))
  }

  /** The SDK's finish on an open card that has taken an element. */
  lemma FinishEffect(s: Sys, m: nat, footer: Data)
    requires OnCard(s, m)
    ensures var r := FinishCall(OPTIONS, s, footer).s;
            var card := s.w.messages[m].card;
            && r.c.isSealed && r.w.faults == []
            && r.w.messages == s.w.messages[m := Message(Card(card.elements + [FooterElem(s, footer)], "done", card.segment, Some(false)), false)]
            && r.w.unread == s.w.unread + if IsSilent(card) then 1 else 0
  {
    hide TryPatch, SplitsSettled, FooterData, FooterId;
    var k := s.c.footerSeq + 1;
    var elem := FooterElem(s, footer);
    var s1 := s.(c := s.c.(footerSeq := k, mirror := s.c.mirror + [elem]));
    CardFaultFree.TryPatchTaken(OPTIONS, s1, m, Append(Some(elem)));
    var added := TryPatch(OPTIONS, s1, Append(Some(elem))).s;
    var s2 := added.(c := added.c.(state := "done"));
    CardFaultFree.TryPatchTaken(OPTIONS, s2, m, SetState("done"));
    CardFaultFree.TryPatchTaken(OPTIONS, TryPatch(OPTIONS, s2, SetState("done")).s, m, SetSilent(Some(false)));
  }

  /** finish opens and recalls a card if the session never had one. */
  lemma FinishFresh(s: Sys, footer: Data)
    requires s.c == NewClient && s.w.faults == []
    ensures var r := FinishCall(OPTIONS, s, footer).s;
            r.c.isSealed && r.w.faults == [] && r.w.messages == s.w.messages + [Message(EmptyCard(None), true)]
  {
    var w := s.w.(messages := s.w.messages + [Message(EmptyCard(None), false)]);
    assert EnsureCard(s).s.w == w;
    assert w.messages[|s.w.messages| := Message(EmptyCard(None), true)] == s.w.messages + [Message(EmptyCard(None), true)];
  }

  lemma ClosingKeeps(h: Session, m: nat, footer: Data)
    requires Attached(h, m)
    ensures var h' := RecallIfEmpty(CloseCard(h, footer));
            var card := h.s.w.messages[m].card;
            var closed := Message(Card(h.elements + [FooterElem(h.s, footer)], "done", card.segment, Some(false)), OnlyFooters(h.elements));
            && h'.s.c.isSealed && h'.s.w.faults == []
            && h' == h.(s := h'.s) && h'.s.w.messages == h.s.w.messages[m := closed]
            && h'.s.w.unread == h.s.w.unread + if IsSilent(card) then 1 else 0
  {
    hide FinishCall, SplitsSettled, Mirrors, Filed, FooterElem;
    FinishEffect(h.s, m, footer);
    var card := h.s.w.messages[m].card;
    var done := Message(Card(h.elements + [FooterElem(h.s, footer)], "done", card.segment, Some(false)), false);
    assert h.s.w.messages[m := done][m := done.(recalled := true)] == h.s.w.messages[m := done.(recalled := true)];
  }

  /** Finishing an open card: only removals still work, so whatever else was loose stays on the card. */
  lemma FinishOpen(h: Session, m: nat, footer: Data)
    requires Open(h, m)
    ensures var h' := Finish(h, footer);
            var left := SettledAll(h.elements, false);
            && Done(h') && m < |h'.s.w.messages|
            && var message := h'.s.w.messages[m];
               message.card.elements == left + [FooterElem(h.s, footer)] && message.card.state == "done"
               && IsLoud(message.card) && message.recalled == OnlyFooters(left)
  {
    hide SettleAll, SettledAll, RecallIfEmpty, CloseCard, Mirrors, Filed, SplitsSettled, FooterId, FooterData;
    var h1 := h.(finalized := true);
    var es := h.elements;
    SettleKeeps(h1, m, |es|);
    assert es[..|es|] == es && SettledAll(es, false) + es[|es|..] == SettledAll(es, false);
    var h2 := Settle(h1);
    ClosingKeeps(h2, m, footer);
    var h3 := RecallIfEmpty(CloseCard(h2, footer));
    CloseSplits(h2.s.w, m, h3.s.w);
  }

  lemma CloseSplits(w: World, m: nat, w': World)
    requires SplitsSettled(w) && m < |w.messages| && !IsSplitOff(w.messages[m].card)
    requires exists x: Message :: w'.messages == w.messages[m := x] && x.card.segment == w.messages[m].card.segment
    ensures SplitsSettled(w')
  {
  }

  lemma FinishIdle(h: Session, footer: Data)
    requires Idle(h)
    ensures Done(Finish(h, footer))
  {
    hide FinishCall, SettleAll;
    if h.cardMsgId.None? {
      var h1 := h.(finalized := true);
      assert SettleAll(h1, []) == h1 by { NothingToSettle(h1); }
      FinishFresh(h.s, footer);
      SplitsGrow(h.s.w, Message(EmptyCard(None), true));
      var w' := FinishCall(OPTIONS, h.s, footer).s.w;
      SameSplits(h.s.w.(messages := h.s.w.messages + [Message(EmptyCard(None), true)]), w');
    }
  }

  lemma NothingToSettle(h: Session)
    ensures SettleAll(h, []) == h
  {
  }

  /** Finishing always ends with a finished card, and a reset session is between cards again. */
  lemma FinishKeeps(h: Session, footer: Data)
    requires Ready(h)
    ensures var h' := Finish(h, footer); Done(h') && Idle(ResetForNewCard(h'))
  {
    hide Finish, SplitsSettled;
    if h.elements == [] {
      FinishIdle(h, footer);
    } else {
      FinishOpen(h, h.cardMsgId.value, footer);
    }
  }
}
