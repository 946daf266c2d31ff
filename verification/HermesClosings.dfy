// How the plugin's cards end: what a finished round, an interrupt and a new
// turn leave in the store, footer, settled elements and the unread count
// included.

module HermesClosings {
  import opened Prelude
  import opened CardContent
  import opened ElementIds
  import opened Wire
  import opened CardSpec
  import opened HermesSpec
  import opened HermesMirror
  import opened HermesSettle
  import opened HermesFinish
  import opened HermesShadow
  import opened HermesEvents
  import opened HermesRun
  import opened HermesMoves
  import opened HermesDesk
  import opened HermesLists
  import opened HermesApprovals
  import CardClosing
  import CardUnread

  // ------------------------------------------------------------- what is left

  predicate BlankThought(e: Elem) {
    Thinks(e) && Strip(TextOf(e.data)) == ""
  }

  predicate NotBlankThought(e: Elem) {
    !BlankThought(e)
  }

  lemma {:induction false} LeftByFinish(es: seq<Elem>)
    ensures SettledAll(es, false) == Filter(es, NotBlankThought)
  {
    hide Strip, TextOf;
    if es != [] {
      LeftByFinish(es[..|es| - 1]);
    }
  }

  /** What an interrupt does to an element: a running tool has failed, with the rest of its data kept. */
  function Interrupted(e: Elem): Elem {
    if e.kind == "tool_card" && "status" in e.data && e.data["status"] == Text("running")
    then e.(data := e.data["status" := Text("error")]["error" := Text("interrupted")])
    else e
  }

  function InterruptedAll(es: seq<Elem>): (r: seq<Elem>)
    ensures |r| == |es|
    ensures forall i :: 0 <= i < |es| ==> r[i] == Interrupted(es[i])
  {
    seq(|es|, i requires 0 <= i < |es| => Interrupted(es[i]))
  }

  lemma FailedIs(es: seq<Elem>)
    ensures FailedAll(es) == InterruptedAll(es)
  {
    forall i | 0 <= i < |es| ensures Failed(es[i]) == Interrupted(es[i]) {
      InterruptedData(es[i].data);
    }
  }

  lemma InterruptedData(data: Data)
    ensures data + INTERRUPTED == data["status" := Text("error")]["error" := Text("interrupted")]
  {
    assert |"error"| == 5 && |"status"| == 6;
  }

  /**
   * Message m of w has become a closed card in w': these elements and a
   * footer, done and loud, counted unless it was loud already, and recalled
   * exactly if nothing but footers was left.
   */
  ghost predicate Ends(w: World, w': World, m: nat, left: seq<Elem>, footer: Data) {
    && m < |w.messages| == |w'.messages|
    && var before, after := w.messages[m].card, w'.messages[m];
       && |after.card.elements| == |left| + 1 && after.card.elements[..|left|] == left
       && after.card.elements[|left|].kind == "footer"
       && CardClosing.FooterFor(after.card.elements[|left|].data, footer)
       && after.card.state == "done" && IsLoud(after.card)
       && after.recalled == (forall e <- left :: e.kind == "footer")
       && w'.unread == w.unread + if IsSilent(before) then 1 else 0
  }

  lemma FinishEnds(h: Session, m: nat, footer: Data)
    requires Open(h, m)
    ensures Ends(h.s.w, Finish(h, footer).s.w, m, Filter(h.elements, NotBlankThought), footer)
  {
    hide SettleAll, SettledAll, RecallIfEmpty, CloseCard, Mirrors, Filed, SplitsSettled, FooterId, FooterData, CardClosing.FooterFor;
    var h1 := h.(finalized := true);
    var es := h.elements;
    SettleKeeps(h1, m, |es|);
    SettleHushed(h1, es);
    assert es[..|es|] == es && SettledAll(es, false) + es[|es|..] == SettledAll(es, false);
    var h2 := Settle(h1);
    ClosingKeeps(h2, m, footer);
    LeftByFinish(es);
    CardClosing.FooterDataFor(footer);
    FooterParts(h2.s, footer);
  }

  lemma FooterParts(s: Sys, footer: Data)
    ensures FooterElem(s, footer).kind == "footer" && FooterElem(s, footer).data == FooterData(footer)
  {
  }

  lemma {:induction false} FailHushed(h: Session, es: seq<Elem>)
    ensures Hushed(h.s.w, FailTools(h, es).s.w)
  {
    if es != [] {
      var n := |es| - 1;
      FailHushed(h, es[..n]);
      UpdateHushed(FailTools(h, es[..n]), es[n].id, es[n].data + INTERRUPTED);
      hide Hushed, UpdateElement;
      HushedTrans(h.s.w, FailTools(h, es[..n]).s.w, FailTools(h, es).s.w);
    }
  }

  lemma InterruptEnds(h: Session, m: nat)
    requires Open(h, m)
    ensures Ends(h.s.w, OnInterrupt(h).s.w, m, Filter(InterruptedAll(h.elements), NotBlankThought),
                 map["reason" := Text("interrupt"), "finished" := Bool(true)])
  {
    hide Attached, Finish, FailTools, Tidy, CardClosing.FooterFor, Filter;
    AttachedCard(h, m);
    assert h.elements[..|h.elements|] == h.elements;
    FailToolsKeeps(h, |h.elements|);
    FailHushed(h, h.elements);
    FailOnly(h, m, |h.elements|);
    var h1 := FailTools(h, h.elements);
    assert h1.elements == FailedAll(h.elements);
    FailedIs(h.elements);
    CardOf(h, m);
    FinishEnds(h1, m, INTERRUPT);
  }

  // --------------------------------------------------------------- at a split

  /** What a split does to an element that stays: it is over. */
  function Over(e: Elem): Elem {
    if Thinks(e) then e.(data := e.data["finished" := Bool(true)]) else Interrupted(e)
  }

  function OverAll(es: seq<Elem>): (r: seq<Elem>)
    ensures |r| == |es|
    ensures forall i :: 0 <= i < |es| ==> r[i] == Over(es[i])
  {
    seq(|es|, i requires 0 <= i < |es| => Over(es[i]))
  }

  lemma OverIs(e: Elem)
    ensures Settled(e, true) == if BlankThought(e) then [] else [Over(e)]
  {
    hide Strip, TextOf;
    InterruptedData(e.data);
  }

  lemma {:induction false} LeftBySplit(es: seq<Elem>)
    ensures SettledAll(es, true) == OverAll(Filter(es, NotBlankThought))
  {
    hide Settled, BlankThought, Over;
    if es != [] {
      var n := |es| - 1;
      LeftBySplit(es[..n]);
      OverIs(es[n]);
    }
  }

  /** A new element on a full card: that card keeps all but its blank thoughts, everything on it is over, and it is done and as silent as it was. */
  lemma SplitEnds(h: Session, m: nat, kind: string, data: Data)
    requires Open(h, m) && |h.elements| >= MAX_ELEMENTS && Plain(data)
    ensures var h' := AppendNew(h, kind, data);
            && m < |h.s.w.messages| < |h'.s.w.messages|
            && var card := h'.s.w.messages[m].card;
               && card.elements == OverAll(Filter(h.elements, NotBlankThought))
               && card.state == "done" && (card.segment == Some("first") || card.segment == Some("middle"))
               && card.silent == h.s.w.messages[m].card.silent
    ensures AppendNew(h, kind, data).s.w.unread == h.s.w.unread
  {
    hide AppendElement, Attached, SettledAll, OverAll, Filter, HasId, NextId, Plain, IsNamed;
    var h1 := h.(seqNo := h.seqNo + 1);
    var elem := Elem(kind, NextId(kind, h1.seqNo), data);
    AttachedCard(h, m);
    ReadyOpen(h, m);
    Renumbered(h, kind);
    AppendHushed(h, kind, data);
    CardOf(h, m);
    LeftBySplit(h.elements);
    SplitKeeps(h1, m, elem);
    SplitStores(h1, m, elem);
  }

  lemma ReadyOpen(h: Session, m: nat)
    requires Open(h, m)
    ensures Ready(h)
  {
    hide Mirrors, Filed, SplitsSettled;
  }

  // --------------------------------------------------------------- whole runs

  /** What the footer of a finished round says: the reason, and the rest only if it was reported. */
  ghost predicate Tells(footer: Data, e: Event)
    requires e.RoundEnd?
  {
    && (forall key <- footer :: key in {"reason", "finished", "stopped", "model", "mode", "tokens", "duration"})
    && "reason" in footer && footer["reason"] == Text(e.reason)
    && "finished" in footer && footer["finished"] == Bool(true)
    && Carries(footer, "stopped", if e.stopped then Some(Bool(true)) else None)
    && Carries(footer, "model", e.model) && Carries(footer, "mode", e.mode)
    && Carries(footer, "tokens", e.tokens) && Carries(footer, "duration", e.duration)
  }

  lemma FooterKeysDiffer()
    ensures Distinct(["reason", "finished", "stopped", "model", "mode", "tokens", "duration"])
  {
    assert |"reason"| == 6 && |"finished"| == 8 && |"stopped"| == 7 && |"model"| == 5 && |"mode"| == 4 && |"tokens"| == 6 && |"duration"| == 8;
    assert "reason"[0] == 'r' && "tokens"[0] == 't' && "finished"[0] == 'f' && "duration"[0] == 'd';
  }

  lemma FooterTells(e: Event)
    requires e.RoundEnd?
    ensures Tells(FooterOf(e), e)
  {
    hide FooterOf, Carries;
    FooterKeys(e);
    FooterFixed(e);
    FooterModel(e);
    FooterCost(e);
  }

  lemma FooterKeys(e: Event)
    requires e.RoundEnd?
    ensures forall key <- FooterOf(e) :: key in {"reason", "finished", "stopped", "model", "mode", "tokens", "duration"}
  {
  }

  lemma FooterFixed(e: Event)
    requires e.RoundEnd?
    ensures var f := FooterOf(e);
            && "reason" in f && f["reason"] == Text(e.reason) && "finished" in f && f["finished"] == Bool(true)
            && Carries(f, "stopped", if e.stopped then Some(Bool(true)) else None)
  {
    FooterKeysDiffer();
  }

  lemma FooterModel(e: Event)
    requires e.RoundEnd?
    ensures Carries(FooterOf(e), "model", e.model) && Carries(FooterOf(e), "mode", e.mode)
  {
    FooterKeysDiffer();
  }

  lemma FooterCost(e: Event)
    requires e.RoundEnd?
    ensures Carries(FooterOf(e), "tokens", e.tokens) && Carries(FooterOf(e), "duration", e.duration)
  {
    FooterKeysDiffer();
  }

  lemma InUseIsOpen(d: Desk)
    requires Orderly(d) && InUse(d).Some?
    ensures d.session.Some? && Open(d.session.value, InUse(d).value) && d.w == d.session.value.s.w
  {
    OrderlyParts(d);
    ProperReady(d.session.value);
    InUseIsStored(d.session.value);
  }

  /** The end of a round closes its card with the footer it reports. */
  lemma RoundEndCloses(signals: seq<Signal>, desks: seq<Desk>, i: nat)
    requires IsRun(signals, desks) && i < |signals| && signals[i].Round? && signals[i].event.RoundEnd?
    requires !OpensTurn(desks[i], signals[i].turn) && InUse(desks[i]).Some?
    ensures InUse(desks[i + 1]).None?
    ensures exists footer :: Tells(footer, signals[i].event)
              && Ends(desks[i].w, desks[i + 1].w, InUse(desks[i]).value,
                      Filter(Elements(desks[i]), NotBlankThought), footer)
  {
    RunOrderly(signals, desks, i);
    assert HermesDesk.StepAt(signals, desks, i);
    hide Orderly, Finish, Ends, Tells, Open, FooterOf, Dispatch, Filter;
    InUseIsOpen(desks[i]);
    RoundEnds(desks[i], signals[i].turn, signals[i].event);
    FinishEnds(desks[i].session.value, InUse(desks[i]).value, FooterOf(signals[i].event));
    FooterTells(signals[i].event);
  }

  lemma RoundEnds(d: Desk, turn: string, e: Event)
    requires e.RoundEnd? && !OpensTurn(d, turn) && d.session.Some?
    ensures var d' := Dispatch(d, Round(turn, e)); d'.session.None? && d'.w == Finish(d.session.value, FooterOf(e)).s.w
  {
    hide Finish, FooterOf;
  }

  /** An interrupt closes it too: running tools have failed, and the footer says why. */
  lemma InterruptCloses(signals: seq<Signal>, desks: seq<Desk>, i: nat)
    requires IsRun(signals, desks) && i < |signals| && signals[i].Interrupt? && InUse(desks[i]).Some?
    ensures InUse(desks[i + 1]).None?
    ensures Ends(desks[i].w, desks[i + 1].w, InUse(desks[i]).value,
                 Filter(InterruptedAll(Elements(desks[i])), NotBlankThought),
                 map["reason" := Text("interrupt"), "finished" := Bool(true)])
  {
    RunOrderly(signals, desks, i);
    assert HermesDesk.StepAt(signals, desks, i);
    OrderlyParts(desks[i]);
    hide Orderly, Proper, OnInterrupt, Ends, Open;
    InUseIsOpen(desks[i]);
    InterruptEnds(desks[i].session.value, InUse(desks[i]).value);
    InterruptEmpties(desks[i].session.value);
  }

  /**
   * A new turn that finds a card in use closes it as interrupted before its
   * first event, which no longer touches that card.
   */
  lemma NewTurnCloses(signals: seq<Signal>, desks: seq<Desk>, i: nat) returns (mid: World)
    requires IsRun(signals, desks) && i < |signals| && signals[i].Round?
    requires OpensTurn(desks[i], signals[i].turn) && InUse(desks[i]).Some?
    ensures var m := InUse(desks[i]).value;
            && Ends(desks[i].w, mid, m, Filter(Elements(desks[i]), NotBlankThought),
                    map["reason" := Text("interrupt"), "finished" := Bool(true)])
            && InUse(desks[i + 1]) != Some(m)
            && |mid.messages| <= |desks[i + 1].w.messages| && desks[i + 1].w.messages[..|mid.messages|] == mid.messages
  {
    hide Orderly, Ends, Dispatch, EnterTurn, Filter;
    RunOrderly(signals, desks, i);
    assert HermesDesk.StepAt(signals, desks, i);
    mid := EnterTurn(desks[i], signals[i].turn).w;
    TurnCloses(desks[i], signals[i].turn);
    TurnMovesOn(desks[i], signals[i].turn, signals[i].event);
    EndsFits(desks[i].w, mid, InUse(desks[i]).value, Filter(Elements(desks[i]), NotBlankThought), INTERRUPT);
  }

  lemma TurnCloses(d: Desk, turn: string)
    requires Orderly(d) && OpensTurn(d, turn) && InUse(d).Some?
    ensures Ends(d.w, EnterTurn(d, turn).w, InUse(d).value, Filter(Elements(d), NotBlankThought), INTERRUPT)
    ensures EnterTurn(d, turn).session.None?
  {
    hide Finish, Ends, Open, Filter, Orderly;
    InUseIsOpen(d);
    FinishEnds(d.session.value, InUse(d).value, INTERRUPT);
  }

  lemma TurnMovesOn(d: Desk, turn: string, e: Event)
    requires Orderly(d) && EnterTurn(d, turn).session.None?
    ensures var d' := Dispatch(d, Round(turn, e)); Moves(EnterTurn(d, turn).w, None, d'.w, InUse(d'))
  {
    hide EnterTurn, OnEvent, Moves, Proper;
    var d1 := EnterTurn(d, turn);
    OrderlyParts(d);
    EnterTurnSteps(d, turn);
    CurrentProper(d1);
    RoundKeeps(Current(d1), e);
  }

  lemma EndsFits(w: World, w': World, m: nat, left: seq<Elem>, footer: Data)
    requires Ends(w, w', m, left, footer)
    ensures m < |w'.messages|
  {
  }
}
