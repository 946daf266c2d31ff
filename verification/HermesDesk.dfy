// The registry of one conversation, signal by signal: the session in use, and
// the approvals that wait somewhere. Delivered calls, any signals.

module HermesDesk {
  import opened Prelude
  import opened CardContent
  import opened ElementIds
  import opened Wire
  import opened CardSpec
  import opened HermesSpec
  import opened HermesMirror
  import opened HermesSettle
  import opened HermesFinish
  import opened HermesShadow
  import opened HermesEvents
  import opened HermesRun
  import opened HermesMoves
  import CardFaults
  import CardFaultFree

  // ----------------------------------------------------------------- invariant

  function InUse(d: Desk): Option<nat> {
    if d.session.Some? then CardInUse(d.session.value) else None
  }

  /** The elements of the card in use. */
  function Elements(d: Desk): seq<Elem> {
    if d.session.Some? then d.session.value.elements else []
  }

  /** The session works on the store, and the store on nothing else. */
  ghost predicate Working(d: Desk) {
    if d.session.Some? then Proper(d.session.value) && d.w == d.session.value.s.w else d.w.faults == [] && SplitsSettled(d.w)
  }

  /** The approval is where it was put, and waits there if that is the card in use. */
  ghost predicate Waits(d: Desk, request: string, place: Place) {
    && request != "" && place.id != "" && HeldAt(d.w, place.card, place.id)
    && (InUse(d) == Some(place.card) ==> exists e <- Elements(d) :: e.id == place.id && IsPending(e, request))
  }

  ghost predicate Orderly(d: Desk) {
    Working(d) && forall request <- d.asked :: Waits(d, request, d.asked[request])
  }

  /** From one desk to the next only the card in use has changed, and no approval on it got lost. */
  ghost predicate Steps(d: Desk, d': Desk) {
    && Moves(d.w, InUse(d), d'.w, InUse(d'))
    && Keeps(InUse(d), Elements(d), d'.w, InUse(d'), Elements(d'))
  }

  lemma StepsTrans(a: Desk, b: Desk, c: Desk)
    requires Working(a) && Steps(a, b) && Steps(b, c)
    ensures Steps(a, c)
  {
    WorkingParts(a);
    KeepsTrans(a.w, InUse(a), Elements(a), b.w, InUse(b), Elements(b), c.w, InUse(c), Elements(c));
    MovesTrans(a.w, InUse(a), b.w, InUse(b), c.w, InUse(c));
    hide Moves, Keeps, Working;
  }

  lemma StepsRefl(d: Desk)
    ensures Steps(d, d)
  {
  }

  lemma WorkingParts(d: Desk)
    requires Working(d)
    ensures d.session.Some? ==> Proper(d.session.value) && d.w == d.session.value.s.w && !d.session.value.finalized
    ensures InUse(d).Some? ==>
              Live(d.w, InUse(d)) && d.w.messages[InUse(d).value].card.elements == Elements(d)
  {
    hide Tidy, Mirrors, Filed, SplitsSettled;
    if d.session.Some? {
      InUseIsStored(d.session.value);
    }
  }

  lemma OrderlyParts(d: Desk)
    requires Orderly(d)
    ensures Working(d) && d.w.faults == [] && SplitsSettled(d.w)
    ensures InUse(d).Some? ==> InUse(d).value < |d.w.messages|
    ensures d.session.Some? ==> Proper(d.session.value) && d.w == d.session.value.s.w && !d.session.value.finalized
  {
    hide Waits;
    WorkingParts(d);
  }

  /** What waits goes on waiting. */
  lemma WaitsOn(d: Desk, d': Desk, request: string, place: Place)
    requires Working(d) && Working(d') && Steps(d, d') && Waits(d, request, place)
    ensures Waits(d', request, place)
  {
    WorkingParts(d);
    WorkingParts(d');
    hide Working;
    if InUse(d) == Some(place.card) {
      WaitsHere(d, d', request, place);
    } else {
      hide Keeps, IsPending;
      assert place.card < |d.w.messages|;
    }
  }

  lemma WaitsHere(d: Desk, d': Desk, request: string, place: Place)
    requires Steps(d, d') && Waits(d, request, place) && InUse(d) == Some(place.card)
    requires InUse(d').Some? ==> Live(d'.w, InUse(d')) && d'.w.messages[InUse(d').value].card.elements == Elements(d')
    ensures Waits(d', request, place)
  {
    hide Moves, InUse, Elements;
    var e :| e in Elements(d) && e.id == place.id && IsPending(e, request);
    assert IsQuestion(e);
    if InUse(d') == InUse(d) {
      var k :| 0 <= k < |Elements(d')| && Elements(d')[k] == e;
      HasIdAt(Elements(d'), k);
    }
  }

  // ------------------------------------------------------------ a round's event

  lemma FinishKeepsQuestions(h: Session, footer: Data)
    requires Ready(h)
    ensures Keeps(CardInUse(h), h.elements, Finish(h, footer).s.w, None, [])
  {
    hide SettleAll, SettledAll, Finish, Mirrors, Filed, SplitsSettled, FooterElem;
    if h.elements != [] {
      var m := h.cardMsgId.value;
      FinishOpen(h, m, footer);
      SettledQuestions(h.elements, false);
      forall e | e in h.elements && IsQuestion(e) ensures HeldAt(Finish(h, footer).s.w, m, e.id) {
        var left := SettledAll(h.elements, false);
        assert e in left && e.kind != "footer";
        var card := Finish(h, footer).s.w.messages[m].card;
        var k :| 0 <= k < |left| && left[k] == e;
        assert card.elements[k] == e;
        HasIdAt(card.elements, k);
      }
    }
  }

  lemma RoundKeeps(h: Session, e: Event)
    requires Proper(h)
    ensures var h' := OnEvent(h, e);
            var over := e.RoundEnd?;
            && Moves(h.s.w, CardInUse(h), h'.s.w, if over then None else CardInUse(h'))
            && Keeps(CardInUse(h), h.elements, h'.s.w, if over then None else CardInUse(h'), if over then [] else h'.elements)
  {
    hide Proper, Ready, Moves, Keeps, Finish;
    if e.RoundEnd? {
      ProperReady(h);
      FinishMoves(h, FooterOf(e));
      FinishKeepsQuestions(h, FooterOf(e));
    } else {
      hide OnEvent;
      EventFollows(h, e);
    }
  }

  lemma EnterTurnSteps(d: Desk, turn: string)
    requires Working(d)
    ensures var d' := EnterTurn(d, turn); Working(d') && Steps(d, d') && d'.asked == d.asked
  {
    WorkingParts(d);
    hide Finish, Proper, Moves, Keeps;
    StepsRefl(d);
    if IsNewTurn(d, turn) && d.session.Some? {
      ProperReady(d.session.value);
      FinishKeeps(d.session.value, INTERRUPT);
      DoneLeaves(d.session.value);
      FinishMoves(d.session.value, INTERRUPT);
      FinishKeepsQuestions(d.session.value, INTERRUPT);
    }
  }

  lemma DoneLeaves(h: Session)
    requires Ready(h)
    ensures Finish(h, INTERRUPT).s.w.faults == [] && SplitsSettled(Finish(h, INTERRUPT).s.w)
  {
    FinishKeeps(h, INTERRUPT);
  }

  lemma CurrentProper(d: Desk)
    requires Working(d)
    ensures Proper(Current(d)) && Current(d).s.w == d.w && CardInUse(Current(d)) == InUse(d) && Current(d).elements == Elements(d)
  {
    TidyEmpty();
  }

  lemma RoundSteps(d: Desk, turn: string, e: Event)
    requires Working(d)
    ensures var d' := Dispatch(d, Round(turn, e)); Working(d') && Steps(d, d') && d'.asked == d.asked
  {
    hide Proper, OnEvent, EnterTurn, Moves, Keeps;
    EnterTurnSteps(d, turn);
    var d1 := EnterTurn(d, turn);
    CurrentProper(d1);
    EventProper(Current(d1), e);
    RoundKeeps(Current(d1), e);
    RoundWorking(d1, e);
    StepsTrans(d, d1, Dispatch(d, Round(turn, e)));
  }

  lemma RoundWorking(d1: Desk, e: Event)
    requires Working(d1) && Proper(Current(d1))
    ensures e.RoundEnd? ==> OnEvent(Current(d1), e).s.w.faults == [] && SplitsSettled(OnEvent(Current(d1), e).s.w)
    ensures !e.RoundEnd? ==> Proper(OnEvent(Current(d1), e))
  {
    EventProper(Current(d1), e);
    hide OnEvent, Proper;
  }

  // ------------------------------------------------------------------ interrupt

  lemma InterruptKeeps(h: Session)
    requires Proper(h)
    ensures Keeps(CardInUse(h), h.elements, OnInterrupt(h).s.w, None, [])
  {
    hide Attached, Finish, FailTools, Tidy;
    assert h.elements[..|h.elements|] == h.elements;
    FailToolsKeeps(h, |h.elements|);
    var h1 := FailTools(h, h.elements);
    FinishKeepsQuestions(h1, INTERRUPT);
    forall e | e in h.elements && IsQuestion(e) ensures e in h1.elements {
      var k :| 0 <= k < |h.elements| && h.elements[k] == e;
      assert h1.elements[k] == Failed(e) == e;
    }
  }

  lemma InterruptSteps(d: Desk)
    requires Working(d)
    ensures var d' := Dispatch(d, Interrupt); Working(d') && Steps(d, d') && d'.asked == d.asked
  {
    WorkingParts(d);
    hide Proper, OnInterrupt, Moves, Keeps;
    StepsRefl(d);
    if Active(d) {
      InterruptProper(d.session.value);
      InterruptMoves(d.session.value);
      InterruptKeeps(d.session.value);
      InterruptEmpties(d.session.value);
    }
  }

  lemma InterruptEmpties(h: Session)
    ensures OnInterrupt(h).elements == []
  {
    hide Finish, FailTools;
  }

  // -------------------------------------------------------------------- asking

  lemma AskDispatch(d: Desk, request: string, action: Json, resources: Json, title: Json)
    ensures var d' := Dispatch(d, PermissionCard(request, action, resources, title));
            if d.session.None? || d.session.value.finalized then d' == d
            else
              var h := OnPermissionCard(d.session.value, request, action, resources, title);
              && d' == d.(session := Some(h), w := h.s.w, asked := d'.asked)
              && d'.asked == if request == "" || h.cardMsgId.None? then d.asked
                             else d.asked[request := Place(h.cardMsgId.value, NextId("permission_card", d.session.value.seqNo + 1))]
  {
    hide OnPermissionCard, NextId;
  }

  lemma AskSteps(d: Desk, request: string, action: Json, resources: Json, title: Json)
    requires Working(d)
    ensures var d' := Dispatch(d, PermissionCard(request, action, resources, title)); Working(d') && Steps(d, d')
  {
    hide Proper, OnPermissionCard, Moves, Keeps, NextId, Dispatch;
    WorkingParts(d);
    AskDispatch(d, request, action, resources, title);
    StepsRefl(d);
    if Active(d) {
      PermissionCardProper(d.session.value, request, action, resources, title);
      PermissionCardFollows(d.session.value, request, action, resources, title);
    }
  }

  /** The new approval is on the card in use, and waits. */
  lemma AskedThere(h: Session, request: string, action: Json, resources: Json, title: Json)
    requires Proper(h)
    ensures var h' := OnPermissionCard(h, request, action, resources, title);
            var id := NextId("permission_card", h.seqNo + 1);
            && id != "" && h'.cardMsgId.Some? && CardInUse(h') == h'.cardMsgId
            && exists e <- h'.elements :: e.id == id && IsPending(e, request)
  {
    hide AppendNew, DirectPatch, Tidy, Attached, NextId;
    var data := PermissionData(request, action, resources, title);
    var id := NextId("permission_card", h.seqNo + 1);
    assert Plain(data);
    AppendOther(h, "permission_card", data);
    AppendNewKeeps(h, "permission_card", data);
    var asked := AppendNew(h, "permission_card", data);
    SilenceReady(asked, false);
    DirectKeepsCard(asked, SetSilent(Some(false)));
    PendingData(id, request, action, resources, title);
    NamedIds("permission_card", h.seqNo + 1);
    assert asked.elements[|asked.elements| - 1] == Elem("permission_card", id, data);
  }

  lemma PendingData(id: string, request: string, action: Json, resources: Json, title: Json)
    ensures IsPending(Elem("permission_card", id, PermissionData(request, action, resources, title)), request)
  {
    assert |"status"| == 6 && |"title"| == 5 && |"oc_request_id"| == 13 && |"action"| == 6 && |"resources"| == 9;
  }

  lemma NamedIds(kind: string, n: nat)
    ensures NextId(kind, n) != ""
  {
  }

  lemma AskOrderly(d: Desk, request: string, action: Json, resources: Json, title: Json)
    requires Orderly(d)
    ensures Orderly(Dispatch(d, PermissionCard(request, action, resources, title)))
  {
    hide Proper, OnPermissionCard, Steps, NextId, Waits, Dispatch, Working;
    var d' := Dispatch(d, PermissionCard(request, action, resources, title));
    AskSteps(d, request, action, resources, title);
    AskDispatch(d, request, action, resources, title);
    forall r | r in d.asked ensures Waits(d', r, d.asked[r]) {
      WaitsOn(d, d', r, d.asked[r]);
    }
    if d.session.Some? {
      WorkingParts(d);
      AskedThere(d.session.value, request, action, resources, title);
      NewWaits(d', request, d'.session.value.cardMsgId.value, NextId("permission_card", d.session.value.seqNo + 1));
    }
  }

  lemma NewWaits(d: Desk, request: string, m: nat, id: string)
    requires Working(d) && InUse(d) == Some(m) && id != ""
    requires exists e <- Elements(d) :: e.id == id && IsPending(e, request)
    ensures request != "" ==> Waits(d, request, Place(m, id))
  {
    WorkingParts(d);
    hide Working;
    var e :| e in Elements(d) && e.id == id && IsPending(e, request);
    var k :| 0 <= k < |Elements(d)| && Elements(d)[k] == e;
    HasIdAt(Elements(d), k);
  }

  // ---------------------------------------------- deciding on the card in use

  /** On an open card the update and the silencing of a decision get through. */
  lemma DecisionGetsThrough(h: Session, request: string, decision: string)
    requires Proper(h) && HasQuestion(h, request)
    ensures DecisionLands(h, request, decision)
  {
    hide UpdateElement, UpdateCall, Tidy, Attached, DecisionData;
    var k := LastWhereAt(h.elements, e => IsPending(e, request));
    var data := DecisionData(request, decision);
    UpdateAt(h, k, data);
    var h1 := UpdateElement(h, h.elements[k].id, data);
    OwnerOf(h1, h1.cardMsgId.value, h1.elements[k]);
    SilenceTaken(h1, true);
  }

  lemma SilenceTaken(h: Session, silent: bool)
    requires Ready(h) && CardInUse(h).Some?
    ensures h.cardMsgId.Some? && Send(h.s.w, h.cardMsgId, Delta(SetSilent(Some(silent)))).ok
  {
    hide Mirrors, Filed, SplitsSettled;
    CardFaultFree.SendTaken(h.s.w, h.cardMsgId.value, SetSilent(Some(silent)));
  }

  /** Other approvals on the card go on waiting. */
  lemma OthersWait(h: Session, request: string, decision: string, other: string, id: string)
    requires Proper(h) && HasQuestion(h, request) && other != request
    requires exists e <- h.elements :: e.id == id && IsPending(e, other)
    ensures exists e <- OnPermissionDecided(h, request, decision).elements :: e.id == id && IsPending(e, other)
  {
    hide UpdateElement, UpdateCall, DirectPatch, Tidy, Attached, DecisionData;
    var p := (e: Elem) => IsPending(e, request);
    var k := LastWhereAt(h.elements, p);
    var data := DecisionData(request, decision);
    DecisionParts(h.elements[k], request, decision);
    UpdateProper(h, k, data);
    UpdateAt(h, k, data);
    var h1 := UpdateElement(h, h.elements[k].id, data);
    OwnerOf(h1, h1.cardMsgId.value, h1.elements[k]);
    SilenceReady(h1, true);
    var e :| e in h.elements && e.id == id && IsPending(e, other);
    var i :| 0 <= i < |h.elements| && h.elements[i] == e;
    assert i != k;
    assert h1.elements[i] == e;
  }

  lemma DecisionParts(e: Elem, request: string, decision: string)
    requires e.kind == "permission_card"
    ensures var e' := e.(data := e.data + DecisionData(request, decision)); WellFormed(e') && !IsMarkdown(e') && !IsOpenReasoning(e')
  {
  }

  lemma DecideHereDispatch(d: Desk, request: string, decision: string)
    requires d.session.Some? && !d.session.value.finalized && HasQuestion(d.session.value, request)
    requires DecisionLands(d.session.value, request, decision)
    ensures var h := OnPermissionDecided(d.session.value, request, decision);
            Dispatch(d, PermissionDecided(request, decision)) == d.(session := Some(h), w := h.s.w, asked := d.asked - {request})
  {
    hide OnPermissionDecided, DecisionLands;
  }

  lemma DecideHereOrderly(d: Desk, request: string, decision: string)
    requires Orderly(d) && d.session.Some? && HasQuestion(d.session.value, request)
    ensures Orderly(Dispatch(d, PermissionDecided(request, decision)))
    ensures Moves(d.w, InUse(d), Dispatch(d, PermissionDecided(request, decision)).w, InUse(d))
    ensures InUse(Dispatch(d, PermissionDecided(request, decision))) == InUse(d)
  {
    hide Proper, OnPermissionDecided, Moves, Dispatch, HasQuestion, Working;
    WorkingParts(d);
    var h := d.session.value;
    var d' := Dispatch(d, PermissionDecided(request, decision));
    DecisionGetsThrough(h, request, decision);
    DecideHereDispatch(d, request, decision);
    PermissionDecidedProper(h, request, decision);
    PermissionDecidedMoves(h, request, decision);
    SessionWorks(d', OnPermissionDecided(h, request, decision));
    WorkingParts(d');
    forall r | r in d'.asked ensures Waits(d', r, d'.asked[r]) {
      assert Waits(d, r, d.asked[r]);
      if InUse(d) == Some(d.asked[r].card) {
        OthersWait(h, request, decision, r, d.asked[r].id);
        StillWaits(d', r, d.asked[r]);
      } else {
        Untouched(d, d', d.asked[r].card);
      }
    }
  }

  lemma SessionWorks(d: Desk, h: Session)
    requires Proper(h) && d.session == Some(h) && d.w == h.s.w
    ensures Working(d)
  {
  }

  lemma StillWaits(d: Desk, request: string, place: Place)
    requires Working(d) && InUse(d) == Some(place.card) && request != "" && place.id != ""
    requires exists e <- Elements(d) :: e.id == place.id && IsPending(e, request)
    ensures Waits(d, request, place)
  {
    NewWaits(d, request, place.card, place.id);
  }

  lemma Untouched(d: Desk, d': Desk, m: nat)
    requires Moves(d.w, InUse(d), d'.w, InUse(d')) && Live(d.w, Some(m)) && InUse(d) != Some(m)
    ensures Live(d'.w, Some(m)) && d'.w.messages[m] == d.w.messages[m] && InUse(d') != Some(m)
  {
  }

  // ------------------------------------------------- deciding on another card

  /** The message with the decision on its element, which has lost all it said before, and silent. */
  function DecidedAt(message: Message, id: string, request: string, decision: string): Message {
    message.(card := message.card.(elements := SetData(message.card.elements, id, DecisionData(request, decision)), silent := Some(true)))
  }

  lemma DecideThereEffect(d: Desk, request: string, decision: string)
    requires d.w.faults == [] && request in d.asked
    requires d.asked[request].id != "" && HeldAt(d.w, d.asked[request].card, d.asked[request].id)
    ensures var place := d.asked[request];
            var d' := DecideThere(d, request, decision);
            && d' == OverStore(d, d'.w).(asked := d.asked - {request}) && d'.w.faults == [] && d'.w.unread == d.w.unread
            && d'.w.messages == d.w.messages[place.card := DecidedAt(d.w.messages[place.card], place.id, request, decision)]
  {
    hide DecisionData, SetData;
    var place := d.asked[request];
    var op := Update(place.id, Some(DecisionData(request, decision)));
    CardFaultFree.SendTaken(d.w, place.card, op);
    var w1 := Send(d.w, Some(place.card), Delta(op)).w;
    CardFaultFree.SendTaken(w1, place.card, SetSilent(Some(true)));
    hide Send;
  }

  /** The question is asked on the card in use, and waits there, exactly if it is decided there. */
  lemma WaitsIsQuestion(d: Desk, request: string, place: Place)
    requires Working(d) && Waits(d, request, place) && InUse(d) == Some(place.card)
    ensures d.session.Some? && HasQuestion(d.session.value, request)
  {
    WorkingParts(d);
    hide Working, Proper;
    var h := d.session.value;
    var e :| e in h.elements && e.id == place.id && IsPending(e, request);
    var k := LastWhereAt(h.elements, x => IsPending(x, request));
    QuestionNamed(h, k);
  }

  lemma QuestionNamed(h: Session, k: nat)
    requires Proper(h) && k < |h.elements|
    ensures h.elements[k].id != ""
  {
    hide Tidy, Attached;
    ShadowNamed(h, h.cardMsgId.value, h.elements[k]);
  }

  /** A change to a message that is not in use leaves the session as it is. */
  lemma OverStoreWorks(d: Desk, w: World, m: nat)
    requires Working(d) && InUse(d) != Some(m) && m < |d.w.messages|
    requires w.faults == [] && OnlyAt(d.w, w, m) && SplitsSettled(w)
    ensures Working(OverStore(d, w)) && InUse(OverStore(d, w)) == InUse(d) && Elements(OverStore(d, w)) == Elements(d)
  {
    hide Mirrors, Filed, Tidy, SplitsSettled;
    WorkingParts(d);
  }

  lemma DecidedSettled(w: World, m: nat, id: string, request: string, decision: string, w': World)
    requires SplitsSettled(w) && m < |w.messages|
    requires w'.messages == w.messages[m := DecidedAt(w.messages[m], id, request, decision)]
    ensures SplitsSettled(w')
  {
    var es := w.messages[m].card.elements;
    var es' := SetData(es, id, DecisionData(request, decision));
    forall e | e in es' ensures e in es || !Loose(e) {
      var k :| 0 <= k < |es'| && es'[k] == e;
      if k != IndexOf(es, id) {
        assert es[k] == e;
      } else {
        NotLoose(e, request, decision);
      }
    }
  }

  lemma NotLoose(e: Elem, request: string, decision: string)
    requires e.data == DecisionData(request, decision)
    ensures !Loose(e)
  {
    assert |"oc_request_id"| == 13 && |"status"| == 6 && |"result"| == 6 && |"finished"| == 8;
    assert "status"[0] == 's' && "result"[0] == 'r';
    assert Text("approved") != Text("running") && Text("denied") != Text("running");
  }

  lemma DecidedHolds(w: World, m: nat, id: string, request: string, decision: string, w': World, place: Place)
    requires m < |w.messages| && HeldAt(w, place.card, place.id)
    requires w'.messages == w.messages[m := DecidedAt(w.messages[m], id, request, decision)]
    ensures HeldAt(w', place.card, place.id)
  {
    var es := w.messages[m].card.elements;
    HasIdIffInIds(es, place.id);
    HasIdIffInIds(SetData(es, id, DecisionData(request, decision)), place.id);
  }

  lemma DecideThereOrderly(d: Desk, request: string, decision: string)
    requires Orderly(d) && (d.session.None? || !HasQuestion(d.session.value, request))
    ensures Orderly(DecideThere(d, request, decision))
    ensures InUse(DecideThere(d, request, decision)) == InUse(d) && Elements(DecideThere(d, request, decision)) == Elements(d)
    ensures request in d.asked ==> InUse(d) != Some(d.asked[request].card) && HeldAt(d.w, d.asked[request].card, d.asked[request].id)
  {
    if request in d.asked {
      var place := d.asked[request];
      var d' := DecideThere(d, request, decision);
      assert Waits(d, request, place);
      StoreCalm(d);
      hide Working, HasQuestion, DecideThere, DecidedAt, OverStore;
      if InUse(d) == Some(place.card) {
        WaitsIsQuestion(d, request, place);
        assert false;
      } else {
        DecideThereEffect(d, request, decision);
        DecidedSettled(d.w, place.card, place.id, request, decision, d'.w);
        OverStoreWorks(d, d'.w, place.card);
        AskedAside(OverStore(d, d'.w), d.asked - {request});
        forall r | r in d'.asked ensures Waits(d', r, d'.asked[r]) {
          assert Waits(d, r, d.asked[r]);
          DecidedHolds(d.w, place.card, place.id, request, decision, d'.w, d.asked[r]);
        }
      }
    }
  }

  lemma StoreCalm(d: Desk)
    requires Working(d)
    ensures d.w.faults == [] && SplitsSettled(d.w)
  {
  }

  lemma AskedAside(d: Desk, asked: map<string, Place>)
    requires Working(d)
    ensures var d' := d.(asked := asked); Working(d') && InUse(d') == InUse(d) && Elements(d') == Elements(d) && d'.w == d.w
  {
  }

  // ------------------------------------------------------------------ dispatch

  /** The signal decides an approval that was put on message m. */
  predicate DecidesOn(d: Desk, signal: Signal, m: nat) {
    signal.PermissionDecided? && signal.request in d.asked && d.asked[signal.request].card == m
  }

  /** All of a message but the data of its elements and its silence. */
  ghost predicate SameShape(before: Message, after: Message) {
    && after.recalled == before.recalled && after.card.state == before.card.state && after.card.segment == before.card.segment
    && Ids(after.card.elements) == Ids(before.card.elements)
  }

  /** What a signal can do to the messages. */
  ghost predicate Signals(d: Desk, signal: Signal, d': Desk) {
    && |d.w.messages| <= |d'.w.messages|
    && (forall m :: 0 <= m < |d.w.messages| && InUse(d) != Some(m) ==>
          d'.w.messages[m] == d.w.messages[m] || (DecidesOn(d, signal, m) && SameShape(d.w.messages[m], d'.w.messages[m])))
    && (InUse(d') == InUse(d) || InUse(d').None? || InUse(d').value >= |d.w.messages|)
    && (forall m :: 0 <= m < |d'.w.messages| && (InUse(d) == Some(m) || m >= |d.w.messages|) && InUse(d') != Some(m) ==>
          Closed(d'.w.messages[m]))
  }

  lemma MovesSignals(d: Desk, signal: Signal, d': Desk)
    requires Moves(d.w, InUse(d), d'.w, InUse(d'))
    ensures Signals(d, signal, d')
  {
  }

  lemma DispatchOrderly(d: Desk, signal: Signal)
    requires Orderly(d)
    ensures Orderly(Dispatch(d, signal)) && Signals(d, signal, Dispatch(d, signal))
  {
    var d' := Dispatch(d, signal);
    hide Working, Waits, Signals, Moves, Keeps;
    match signal {
      case Round(turn, event) =>
        RoundSteps(d, turn, event);
        StepsOrderly(d, d', signal);
      case Interrupt =>
        InterruptSteps(d);
        StepsOrderly(d, d', signal);
      case PermissionCard(request, action, resources, title) =>
        AskSteps(d, request, action, resources, title);
        AskOrderly(d, request, action, resources, title);
        MovesSignals(d, signal, d');
      case PermissionDecided(request, decision) => DecideOrderly(d, request, decision);
    }
  }

  lemma StepsOrderly(d: Desk, d': Desk, signal: Signal)
    requires Orderly(d) && Working(d') && Steps(d, d') && d'.asked == d.asked
    ensures Orderly(d') && Signals(d, signal, d')
  {
    MovesSignals(d, signal, d');
    hide Working, Steps, Waits, Signals;
    forall r | r in d.asked ensures Waits(d', r, d.asked[r]) {
      WaitsOn(d, d', r, d.asked[r]);
    }
  }

  lemma DecideOrderly(d: Desk, request: string, decision: string)
    requires Orderly(d)
    ensures var d' := Dispatch(d, PermissionDecided(request, decision));
            Orderly(d') && Signals(d, PermissionDecided(request, decision), d')
  {
    hide Orderly, Dispatch, Signals, HasQuestion;
    DecideDispatch(d, request, decision);
    if request == "" {
      SameSignals(d, PermissionDecided(request, decision));
    } else if d.session.Some? && HasQuestion(d.session.value, request) {
      DecideHereOrderly(d, request, decision);
      MovesSignals(d, PermissionDecided(request, decision), Dispatch(d, PermissionDecided(request, decision)));
    } else {
      DecideThereOrderly(d, request, decision);
      DecideThereSignals(d, request, decision);
    }
  }

  lemma SameSignals(d: Desk, signal: Signal)
    ensures Signals(d, signal, d)
  {
  }

  lemma DecideDispatch(d: Desk, request: string, decision: string)
    requires Orderly(d)
    ensures var d' := Dispatch(d, PermissionDecided(request, decision));
            && (request == "" ==> d' == d)
            && (request != "" && (d.session.None? || !HasQuestion(d.session.value, request)) ==> d' == DecideThere(d, request, decision))
  {
    WorkingParts(d);
    hide Working, Waits, HasQuestion, OnPermissionDecided, DecideThere, DecisionLands;
  }

  lemma DecideThereSignals(d: Desk, request: string, decision: string)
    requires Orderly(d) && (d.session.None? || !HasQuestion(d.session.value, request))
    ensures Signals(d, PermissionDecided(request, decision), DecideThere(d, request, decision))
  {
    hide Working, HasQuestion, DecideThere;
    DecideThereOrderly(d, request, decision);
    StoreCalm(d);
    if request in d.asked {
      assert Waits(d, request, d.asked[request]);
      DecideThereEffect(d, request, decision);
      ThereIsThere(d, request, decision);
    } else {
      ThereIsThere(d, request, decision);
      SameSignals(d, PermissionDecided(request, decision));
    }
  }

  lemma ThereIsThere(d: Desk, request: string, decision: string)
    ensures request !in d.asked ==> DecideThere(d, request, decision) == d
  {
    hide Send;
  }

  // ---------------------------------------------------------------- whole runs

  /** A run written down: desks[i + 1] is what signal i makes of desks[i]. */
  ghost predicate StepAt(signals: seq<Signal>, desks: seq<Desk>, i: nat)
    requires i < |signals| && |desks| == |signals| + 1
  {
    desks[i + 1] == Dispatch(desks[i], signals[i])
  }

  ghost predicate IsRun(signals: seq<Signal>, desks: seq<Desk>) {
    && |desks| == |signals| + 1 && desks[0] == NewDesk
    && forall i: nat :: i < |signals| ==> StepAt(signals, desks, i)
  }

  lemma {:induction false} RunOf(signals: seq<Signal>) returns (desks: seq<Desk>)
    ensures IsRun(signals, desks) && desks[|signals|] == RunSignals(NewDesk, signals)
  {
    hide Dispatch;
    if signals == [] {
      desks := [NewDesk];
    } else {
      var n := |signals| - 1;
      var before := RunOf(signals[..n]);
      desks := before + [Dispatch(before[n], signals[n])];
      forall i: nat | i < |signals| ensures StepAt(signals, desks, i) {
        assert i < n ==> StepAt(signals[..n], before, i);
      }
    }
  }

  lemma {:induction false} RunOrderly(signals: seq<Signal>, desks: seq<Desk>, i: nat)
    requires IsRun(signals, desks) && i <= |signals|
    ensures Orderly(desks[i])
  {
    hide Dispatch, Orderly;
    if i == 0 {
      NewIsOrderly();
    } else {
      RunOrderly(signals, desks, i - 1);
      assert StepAt(signals, desks, i - 1);
      DispatchOrderly(desks[i - 1], signals[i - 1]);
    }
  }

  lemma NewIsOrderly()
    ensures Orderly(NewDesk)
  {
  }

  /** Card m is not in use at any point from i to j, and unless an approval on it is decided it stays exactly as it is. */
  lemma {:induction false} NotBack(signals: seq<Signal>, desks: seq<Desk>, i: nat, j: nat, m: nat)
    requires IsRun(signals, desks) && i <= j <= |signals|
    requires m < |desks[i].w.messages| && InUse(desks[i]) != Some(m)
    ensures m < |desks[j].w.messages| && InUse(desks[j]) != Some(m) && SameShape(desks[i].w.messages[m], desks[j].w.messages[m])
    ensures (forall k :: i <= k < j ==> !DecidesOn(desks[k], signals[k], m)) ==> desks[j].w.messages[m] == desks[i].w.messages[m]
  {
    hide Dispatch, Orderly, DecidesOn;
    if i < j {
      NotBack(signals, desks, i, j - 1, m);
      RunOrderly(signals, desks, j - 1);
      assert StepAt(signals, desks, j - 1);
      DispatchOrderly(desks[j - 1], signals[j - 1]);
    }
  }

  /**
   * A card that is not in use is not touched by splits, finishes, interrupts,
   * new turns or other cards' approvals: as long as no approval on it is
   * decided it stays exactly as it is.
   */
  lemma LeftCardsAreFrozen(signals: seq<Signal>, desks: seq<Desk>, i: nat, j: nat, m: nat)
    requires IsRun(signals, desks) && i <= j <= |signals|
    requires m < |desks[i].w.messages| && InUse(desks[i]) != Some(m)
    requires forall k :: i <= k < j ==> !DecidesOn(desks[k], signals[k], m)
    ensures m < |desks[j].w.messages| && desks[j].w.messages[m] == desks[i].w.messages[m]
  {
    NotBack(signals, desks, i, j, m);
  }

  /** At every point of every run at most one card is open, and it is the one in use: any other is done or recalled. */
  lemma {:induction false} NoCardLeftOpen(signals: seq<Signal>, desks: seq<Desk>, i: nat, m: nat)
    requires IsRun(signals, desks) && i <= |signals|
    requires m < |desks[i].w.messages| && InUse(desks[i]) != Some(m)
    ensures desks[i].w.messages[m].recalled || desks[i].w.messages[m].card.state == "done"
  {
    hide Dispatch, Orderly, DecidesOn;
    if i > 0 {
      RunOrderly(signals, desks, i - 1);
      assert StepAt(signals, desks, i - 1);
      DispatchOrderly(desks[i - 1], signals[i - 1]);
      if m < |desks[i - 1].w.messages| && InUse(desks[i - 1]) != Some(m) {
        NoCardLeftOpen(signals, desks, i - 1, m);
      }
    }
  }

  // ----------------------------------------------------------------------- ids

  lemma {:induction false} SettleNumber(h: Session, es: seq<Elem>)
    ensures SettleAll(h, es).seqNo == h.seqNo
  {
    if es != [] {
      SettleNumber(h, es[..|es| - 1]);
      hide UpdateCall, Send, Blank, Without;
    }
  }

  lemma {:induction false} FailNumber(h: Session, es: seq<Elem>)
    ensures FailTools(h, es).seqNo == h.seqNo
  {
    if es != [] {
      FailNumber(h, es[..|es| - 1]);
      hide UpdateCall;
    }
  }

  /** An interrupt keeps the numbering: the session goes on with the next card. */
  lemma InterruptNumber(h: Session)
    ensures OnInterrupt(h).seqNo == h.seqNo && OnInterrupt(h).elements == []
  {
    FailNumber(h, h.elements);
    var h1 := FailTools(h, h.elements);
    SettleNumber(h1.(finalized := true), h1.elements);
    hide FailTools, SettleAll, FinishCall, Recall;
  }

  /** The signal leaves the session in use in use. */
  predicate Stays(d: Desk, signal: Signal) {
    d.session.Some? && (signal.Round? ==> !IsNewTurn(d, signal.turn) && !signal.event.RoundEnd?)
  }

  lemma DispatchNumbers(d: Desk, signal: Signal)
    requires Orderly(d) && Stays(d, signal)
    ensures Dispatch(d, signal).session.Some? && Numbered(d.session.value, Dispatch(d, signal).session.value)
  {
    WorkingParts(d);
    hide Proper, Orderly, OnEvent, OnInterrupt, OnPermissionCard, OnPermissionDecided, Moves, Numbered, Keeps;
    var h := d.session.value;
    SameFollows(h);
    match signal {
      case Round(turn, event) => EventFollows(h, event);
      case Interrupt =>
        InterruptNumber(h);
        NothingNumbered(h, OnInterrupt(h));
      case PermissionCard(request, action, resources, title) =>
        hide Dispatch;
        AskDispatch(d, request, action, resources, title);
        PermissionCardFollows(h, request, action, resources, title);
      case PermissionDecided(request, decision) => DecideNumbers(d, request, decision);
    }
  }

  lemma DecideNumbers(d: Desk, request: string, decision: string)
    requires Orderly(d) && d.session.Some?
    ensures var d' := Dispatch(d, PermissionDecided(request, decision));
            d'.session.Some? && Numbered(d.session.value, d'.session.value)
  {
    WorkingParts(d);
    DecideDispatch(d, request, decision);
    hide Proper, Working, Waits, OnPermissionDecided, Numbered, Moves, HasQuestion, Dispatch;
    var h := d.session.value;
    SameFollows(h);
    FollowsMoves(h, h);
    if request != "" && HasQuestion(h, request) {
      DecisionGetsThrough(h, request, decision);
      DecideHereDispatch(d, request, decision);
      PermissionDecidedMoves(h, request, decision);
    } else {
      ThereStores(d, request, decision);
      StoreOnly(d, DecideThere(d, request, decision).w);
    }
  }

  lemma ThereStores(d: Desk, request: string, decision: string)
    ensures var d' := DecideThere(d, request, decision); d'.session == OverStore(d, d'.w).session || d' == d
  {
    hide Send;
  }

  lemma StoreOnly(d: Desk, w: World)
    requires d.session.Some?
    ensures Numbered(d.session.value, OverStore(d, w).session.value)
  {
    IdsOf(d.session.value.elements);
    SameIdsNumbered(d.session.value, OverStore(d, w).session.value);
  }

  lemma NothingNumbered(h: Session, h': Session)
    requires h'.seqNo == h.seqNo && h'.elements == []
    ensures Numbered(h, h')
  {
  }

  /** One session is in use at every point from i to j. */
  ghost predicate OneSession(signals: seq<Signal>, desks: seq<Desk>, i: nat, j: nat)
    requires i <= j <= |signals| < |desks|
  {
    desks[i].session.Some? && forall k :: i <= k < j ==> Stays(desks[k], signals[k])
  }

  lemma {:induction false} RunNumbers(signals: seq<Signal>, desks: seq<Desk>, i: nat, j: nat)
    requires IsRun(signals, desks) && i <= j <= |signals| && OneSession(signals, desks, i, j)
    ensures desks[j].session.Some? && Numbered(desks[i].session.value, desks[j].session.value)
  {
    hide Dispatch, Orderly, Numbered, Stays;
    if i == j {
      IdsOf(desks[i].session.value.elements);
      SameIdsNumbered(desks[i].session.value, desks[i].session.value);
    } else {
      RunNumbers(signals, desks, i, j - 1);
      RunOrderly(signals, desks, j - 1);
      assert StepAt(signals, desks, j - 1);
      DispatchNumbers(desks[j - 1], signals[j - 1]);
      NumberedTrans(desks[i].session.value, desks[j - 1].session.value, desks[j].session.value);
    }
  }

  /**
   * The cards of one session share no ids, across splits and interrupts: an
   * element of a later card never goes by the id of one of an earlier card.
   */
  lemma CardsShareNoIds(signals: seq<Signal>, desks: seq<Desk>, i: nat, j: nat, x: Elem, y: Elem)
    requires IsRun(signals, desks) && i <= j <= |signals| && OneSession(signals, desks, i, j)
    requires x in desks[i].session.value.elements
    requires desks[j].session.Some? && y in desks[j].session.value.elements
    requires InUse(desks[j]) != InUse(desks[i])
    ensures x.id != y.id
  {
    hide Dispatch, Orderly, NextId;
    RunNumbers(signals, desks, i, j);
    RunOrderly(signals, desks, i);
    var h := desks[i].session.value;
    OldNumber(desks[i], x);
    assert KnownOrNew(h, desks[j].session.value, y.id);
    var kind: string, k: nat :| h.seqNo < k && y.id == NextId(kind, k);
    var kind', n: nat :| n <= h.seqNo && x.id == NextId(kind', n);
    if x.id == y.id {
      SameNumber(kind', n, kind, k);
      assert false;
    }
  }

  lemma SameNumber(kind: string, n: nat, kind': string, n': nat)
    requires NextId(kind, n) == NextId(kind', n')
    ensures n == n'
  {
    SuffixDecides(kind, kind', n, n');
  }

  lemma OldNumber(d: Desk, x: Elem)
    requires Orderly(d) && d.session.Some? && x in d.session.value.elements
    ensures IsNamed(x.id, d.session.value.seqNo)
  {
    hide NextId, SplitsSettled, Waits;
    var h := d.session.value;
    assert x in h.s.c.mirror;
  }
}
