// Approvals: asking puts a pending element on the card and rings, deciding
// settles that element and silences the card again.

module HermesApprovals {
  import opened Prelude
  import opened CardContent
  import opened ElementIds
  import opened Wire
  import opened CardSpec
  import opened HermesSpec
  import opened HermesMirror
  import opened HermesSettle
  import opened HermesShadow
  import opened HermesEvents
  import opened HermesRun
  import opened HermesMoves
  import opened HermesDesk
  import CardFaultFree
  import CardUnread

  // ------------------------------------------------------------------- silence

  /** Nothing has been counted, and no message has changed its silence; new ones are silent. */
  ghost predicate Hushed(w: World, w': World) {
    CardUnread.Hushed(w, w')
  }

  lemma HushedTrans(a: World, b: World, c: World)
    requires Hushed(a, b) && Hushed(b, c)
    ensures Hushed(a, c)
  {
    CardUnread.HushedTrans(a, b, c);
  }

  lemma UpdateHushed(h: Session, id: string, data: Data)
    ensures Hushed(h.s.w, UpdateElement(h, id, data).s.w)
  {
    CardUnread.AppendAndUpdateCountNothing(OPTIONS, h.s, UpdateOf(id, data));
    hide UpdateCall;
  }

  lemma DirectHushed(h: Session, target: Option<nat>, op: Op)
    requires !op.SetSilent?
    ensures Hushed(h.s.w, DirectPatch(h, target, op).s.w)
  {
    CardUnread.SendHushed(h.s.w, target, Delta(op));
    hide Send;
  }

  lemma {:induction false} SettleHushed(h: Session, es: seq<Elem>)
    ensures Hushed(h.s.w, SettleAll(h, es).s.w)
  {
    if es != [] {
      var n := |es| - 1;
      SettleHushed(h, es[..n]);
      var before, e := SettleAll(h, es[..n]), es[n];
      UpdateHushed(before, e.id, e.data["finished" := Bool(true)]);
      UpdateHushed(before, e.id, e.data + INTERRUPTED);
      DirectHushed(before, if e.id in before.elementCards then Some(before.elementCards[e.id]) else before.cardMsgId, Remove(e.id));
      hide Hushed, UpdateElement, DirectPatch, Blank, Without;
      HushedTrans(h.s.w, before.s.w, SettleOne(before, e).s.w);
    }
  }

  /** A new element, with the settling and the split before it, rings nothing. */
  lemma AppendHushed(h: Session, kind: string, data: Data)
    ensures Hushed(h.s.w, AppendNew(h, kind, data).s.w)
  {
    var id := NextId(kind, h.seqNo + 1);
    var h1 := h.(seqNo := h.seqNo + 1);
    SettleHushed(h1, h1.elements);
    var ready := if !HasId(h1.elements, id) && |h1.elements| >= MAX_ELEMENTS then Settle(h1) else h1;
    CardUnread.AppendAndUpdateCountNothing(OPTIONS, ready.s, AppendOf(kind, data["element_id" := Text(id)]));
    hide AppendCall, SettleAll, NextId, HasId;
    HushedTrans(h.s.w, ready.s.w, PlaceElement(ready, Elem(kind, id, data)).s.w);
  }

  // -------------------------------------------------------------------- asking

  /** The element that asks. */
  function Question(id: string, request: string, action: Json, resources: Json, title: Json): Elem {
    Elem("permission_card", id,
         map["oc_request_id" := Text(request), "action" := action, "resources" := resources,
             "status" := Text("pending"), "title" := title])
  }

  /** The card a new element goes to: the one in use if it has room, otherwise the next message. */
  function NextCard(d: Desk): nat {
    if InUse(d).Some? && |Elements(d)| < 20 then InUse(d).value else |d.w.messages|
  }

  ghost predicate Asked(d: Desk, d': Desk, request: string, action: Json, resources: Json, title: Json) {
    var m := NextCard(d);
    && d'.session.Some? && InUse(d') == Some(m) && m < |d'.w.messages| && d'.turn == d.turn
    && |Elements(d')| > 0
    && Elements(d') == (if m < |d.w.messages| then Elements(d) else [])
                     + [Question(Elements(d')[|Elements(d')| - 1].id, request, action, resources, title)]
    && !d'.w.messages[m].recalled
    && d'.w.messages[m].card.elements == Elements(d') && d'.w.messages[m].card.silent == Some(false)
    && d'.w.unread == d.w.unread + (if m < |d.w.messages| && !IsSilent(d.w.messages[m].card) then 0 else 1)
    && d'.asked == if request == "" then d.asked else d.asked[request := Place(m, Elements(d')[|Elements(d')| - 1].id)]
  }

  /** The request that turns a card's silence, on an open card. */
  lemma SilenceSet(h: Session, silent: bool)
    requires Proper(h) && CardInUse(h).Some?
    ensures var m := CardInUse(h).value;
            var h' := DirectPatch(h, h.cardMsgId, SetSilent(Some(silent)));
            && Proper(h') && h'.elements == h.elements && h' == h.(s := h'.s) && m < |h.s.w.messages|
            && h'.s.w.messages == h.s.w.messages[m := h.s.w.messages[m].(card := h.s.w.messages[m].card.(silent := Some(silent)))]
            && h'.s.w.unread == h.s.w.unread + if IsSilent(h.s.w.messages[m].card) && !silent then 1 else 0
  {
    hide Mirrors, Filed, SplitsSettled, Tidy;
    SilenceReady(h, silent);
    CardFaultFree.SendTaken(h.s.w, h.cardMsgId.value, SetSilent(Some(silent)));
  }

  lemma AskedSession(h: Session, request: string, action: Json, resources: Json, title: Json)
    requires Proper(h)
    ensures var h' := OnPermissionCard(h, request, action, resources, title);
            var m := if h.elements == [] || |h.elements| >= 20 then |h.s.w.messages| else CardInUse(h).value;
            && Proper(h') && CardInUse(h') == Some(m) && m < |h'.s.w.messages|
            && h'.elements == (if |h.elements| >= 20 then [] else h.elements)
                              + [Question(NextId("permission_card", h.seqNo + 1), request, action, resources, title)]
            && h'.s.w.messages[m].card.elements == h'.elements && h'.s.w.messages[m].card.silent == Some(false)
            && !h'.s.w.messages[m].recalled
            && h'.s.w.unread == h.s.w.unread + (if m < |h.s.w.messages| && !IsSilent(h.s.w.messages[m].card) then 0 else 1)
  {
    hide AppendNew, DirectPatch, Tidy, Attached, NextId, Moves;
    var data := PermissionData(request, action, resources, title);
    assert Plain(data);
    AppendOther(h, "permission_card", data);
    AppendNewKeeps(h, "permission_card", data);
    AppendNewLands(h, "permission_card", data);
    AppendHushed(h, "permission_card", data);
    var asked := AppendNew(h, "permission_card", data);
    SilenceSet(asked, false);
    InUseIsStored(h);
    InUseStores(asked);
  }

  lemma InUseStores(h: Session)
    requires Ready(h) && CardInUse(h).Some?
    ensures var m := CardInUse(h).value;
            m < |h.s.w.messages| && h.s.w.messages[m].card.elements == h.elements && !h.s.w.messages[m].recalled
  {
    hide Mirrors, Filed, SplitsSettled;
  }

  lemma AskedDesk(d: Desk, request: string, action: Json, resources: Json, title: Json)
    requires Orderly(d) && d.session.Some?
    ensures Asked(d, Dispatch(d, PermissionCard(request, action, resources, title)), request, action, resources, title)
  {
    hide Proper, Ready, Orderly, OnPermissionCard, NextId, Dispatch;
    OrderlyParts(d);
    AskDispatch(d, request, action, resources, title);
    ProperReady(d.session.value);
    InUseIsStored(d.session.value);
    AskedSession(d.session.value, request, action, resources, title);
  }

  /**
   * At any point of any run, an approval asked for while a session is there is
   * the last element of its card, pending, with the request as given; the card
   * is loud, and counted once more unless it was loud before, and the place is
   * remembered under the request.
   */
  lemma AskingRings(signals: seq<Signal>, desks: seq<Desk>, i: nat)
    requires IsRun(signals, desks) && i < |signals| && signals[i].PermissionCard? && desks[i].session.Some?
    ensures var s := signals[i]; Asked(desks[i], desks[i + 1], s.request, s.action, s.resources, s.title)
  {
    hide Dispatch, Orderly, Asked;
    RunOrderly(signals, desks, i);
    assert HermesDesk.StepAt(signals, desks, i);
    var s := signals[i];
    AskedDesk(desks[i], s.request, s.action, s.resources, s.title);
  }

  // ------------------------------------------------------------------ deciding

  /** The element waits for a decision on the request. */
  predicate AsksFor(e: Elem, request: string) {
    && e.kind == "permission_card"
    && "oc_request_id" in e.data && e.data["oc_request_id"] == Text(request)
    && "status" in e.data && e.data["status"] == Text("pending")
  }

  /** Element k is the last one that waits for it. */
  ghost predicate LastWaiting(es: seq<Elem>, k: nat, request: string) {
    k < |es| && AsksFor(es[k], request) && forall j :: k < j < |es| ==> !AsksFor(es[j], request)
  }

  /** The decisions that let the agent go on. */
  const ALLOWING: set<string> := {"allow_once", "allow_always", "once", "always"}

  /** The element with the decision on it. */
  function Answered(e: Elem, request: string, decision: string): Elem {
    e.(data := e.data["oc_request_id" := Text(request)]
                     ["status" := Text(if decision in ALLOWING then "approved" else "denied")]
                     ["result" := Text(decision)])
  }

  /** Only element k of the card in use and that card's silence have changed. */
  ghost predicate Decided(d: Desk, d': Desk, k: nat, request: string, decision: string)
    requires k < |Elements(d)|
  {
    var es := Elements(d);
    && InUse(d).Some? && InUse(d') == InUse(d) && InUse(d).value < |d.w.messages| && d'.turn == d.turn
    && Elements(d') == es[k := Answered(es[k], request, decision)]
    && d'.w.unread == d.w.unread && d'.asked == d.asked - {request}
    && var m := InUse(d).value;
       d'.w.messages == d.w.messages[m := d.w.messages[m].(card := d.w.messages[m].card.(
         elements := Elements(d'), silent := Some(true)))]
  }

  lemma AnsweredData(e: Elem, request: string, decision: string)
    ensures e.(data := e.data + DecisionData(request, decision)) == Answered(e, request, decision)
  {
  }

  /** An update of element k of the shadow, as the store sees it. */
  lemma UpdateStored(h: Session, k: nat, data: Data)
    requires Proper(h) && k < |h.elements|
    ensures var h' := UpdateElement(h, h.elements[k].id, data);
            && CardInUse(h).Some? && CardInUse(h).value < |h.s.w.messages|
            && h' == h.(s := h'.s, elements := h'.elements) && h'.s.w.unread == h.s.w.unread
            && var m := CardInUse(h).value;
               h'.s.w.messages == h.s.w.messages[m := h.s.w.messages[m].(card := h.s.w.messages[m].card.(elements := h'.elements))]
  {
    hide Mirrors, Filed, SplitsSettled, Tidy, UpdateCall, HasId, SetData;
    var m := h.cardMsgId.value;
    var id := h.elements[k].id;
    InShadow(h.elements, k);
    UpdateAt(h, k, data);
    SameUnder(h.elements, h.s.c.mirror, h.seqNo, id);
    UpdateEffect(h.s, m, id, data);
    UpdateKeeps(h, m, id, data);
  }

  lemma DecidedSession(h: Session, k: nat, request: string, decision: string)
    requires Proper(h) && LastWaiting(h.elements, k, request) && request != ""
    ensures var h' := OnPermissionDecided(h, request, decision);
            && CardInUse(h).Some? && CardInUse(h').Some? && CardInUse(h').value == CardInUse(h).value < |h.s.w.messages|
            && h'.elements == h.elements[k := Answered(h.elements[k], request, decision)]
            && h'.s.w.unread == h.s.w.unread
            && var m := CardInUse(h).value;
               h'.s.w.messages == h.s.w.messages[m := h.s.w.messages[m].(card := h.s.w.messages[m].card.(
                 elements := h'.elements, silent := Some(true)))]
  {
    hide UpdateElement, UpdateCall, DirectPatch, Tidy, Attached, DecisionData, Answered;
    var p := (e: Elem) => IsPending(e, request);
    assert p(h.elements[k]) && h.elements[k] in h.elements;
    var last := LastWhereAt(h.elements, p);
    assert last == k by {
      assert p(h.elements[last]) && AsksFor(h.elements[last], request);
    }
    var data := DecisionData(request, decision);
    DecidedWellFormed(h.elements[k], request, decision);
    UpdateProper(h, k, data);
    UpdateAt(h, k, data);
    UpdateStored(h, k, data);
    AnsweredData(h.elements[k], request, decision);
    var h1 := UpdateElement(h, h.elements[k].id, data);
    OwnerOf(h1, h1.cardMsgId.value, h1.elements[k]);
    SilenceSet(h1, true);
    InUseStores(h1);
  }

  lemma DecidedWellFormed(e: Elem, request: string, decision: string)
    requires e.kind == "permission_card"
    ensures var e' := e.(data := e.data + DecisionData(request, decision)); WellFormed(e') && !IsMarkdown(e') && !IsOpenReasoning(e')
  {
  }

  lemma DecidedDesk(d: Desk, k: nat, request: string, decision: string)
    requires Orderly(d) && LastWaiting(Elements(d), k, request) && request != ""
    ensures Decided(d, Dispatch(d, PermissionDecided(request, decision)), k, request, decision)
  {
    hide Proper, Orderly, OnPermissionDecided, Answered, Dispatch, HasQuestion, DecisionLands;
    OrderlyParts(d);
    WaitingIsQuestion(d.session.value, k, request);
    DecisionGetsThrough(d.session.value, request, decision);
    DecideHereDispatch(d, request, decision);
    DecidedSession(d.session.value, k, request, decision);
  }

  lemma WaitingIsQuestion(h: Session, k: nat, request: string)
    requires Proper(h) && LastWaiting(h.elements, k, request) && request != ""
    ensures HasQuestion(h, request)
  {
    hide Proper;
    var p := (e: Elem) => IsPending(e, request);
    assert p(h.elements[k]) && h.elements[k] in h.elements;
    var last := LastWhereAt(h.elements, p);
    QuestionNamed(h, last);
  }

  lemma QuestionIsWaiting(h: Session, request: string) returns (k: nat)
    requires HasQuestion(h, request)
    ensures LastWaiting(h.elements, k, request)
  {
    var p := (e: Elem) => IsPending(e, request);
    k := LastWhereAt(h.elements, p);
    forall j | k < j < |h.elements| ensures !AsksFor(h.elements[j], request) {
      assert !p(h.elements[j]);
    }
  }

  /**
   * At any point of any run, a decision settles the last pending element of
   * its request on the card in use: approved exactly for the four allowing
   * decisions, otherwise denied. The card is silent again, nothing is counted
   * and nothing else changes.
   */
  lemma DecidingSettles(signals: seq<Signal>, desks: seq<Desk>, i: nat, k: nat)
    requires IsRun(signals, desks) && i < |signals| && signals[i].PermissionDecided?
    requires signals[i].request != "" && LastWaiting(Elements(desks[i]), k, signals[i].request)
    ensures Decided(desks[i], desks[i + 1], k, signals[i].request, signals[i].decision)
  {
    hide Dispatch, Orderly, Decided;
    RunOrderly(signals, desks, i);
    assert HermesDesk.StepAt(signals, desks, i);
    DecidedDesk(desks[i], k, signals[i].request, signals[i].decision);
  }

  /**
   * The decision has gone to the remembered place, on another card than the
   * one in use: the element there has the decision and no longer anything
   * else, its card is silent, the place is forgotten, and nothing else has
   * changed.
   */
  ghost predicate DecidedElsewhere(d: Desk, d': Desk, request: string, decision: string)
    requires request in d.asked
  {
    var m, id := d.asked[request].card, d.asked[request].id;
    && InUse(d) != Some(m) && InUse(d') == InUse(d) && Elements(d') == Elements(d) && d'.turn == d.turn
    && d'.asked == d.asked - {request} && d'.w.unread == d.w.unread
    && m < |d.w.messages|
    && var card := d.w.messages[m].card;
       var k := IndexOf(card.elements, id);
       && k < |card.elements|
       && d'.w.messages == d.w.messages[m := d.w.messages[m].(card := card.(
            elements := card.elements[k := card.elements[k].(data := Verdict(request, decision))], silent := Some(true)))]
  }

  /** The decision alone. */
  function Verdict(request: string, decision: string): Data {
    map["oc_request_id" := Text(request),
        "status" := Text(if decision in ALLOWING then "approved" else "denied"),
        "result" := Text(decision)]
  }

  lemma VerdictData(request: string, decision: string)
    ensures DecisionData(request, decision) == Verdict(request, decision)
  {
  }

  lemma ElsewhereDesk(d: Desk, request: string, decision: string)
    requires Orderly(d) && request in d.asked && (d.session.None? || !HasQuestion(d.session.value, request))
    ensures DecidedElsewhere(d, Dispatch(d, PermissionDecided(request, decision)), request, decision)
  {
    hide Working, HasQuestion, DecideThere, Dispatch, Verdict, DecisionData;
    assert Waits(d, request, d.asked[request]);
    OrderlyParts(d);
    DecideDispatch(d, request, decision);
    DecideThereOrderly(d, request, decision);
    DecideThereEffect(d, request, decision);
    VerdictData(request, decision);
  }

  /** Nothing on the card in use asks for it, and no place is remembered. */
  ghost predicate Stray(d: Desk, request: string) {
    request == "" || ((forall e <- Elements(d) :: !AsksFor(e, request)) && request !in d.asked)
  }

  /** A decision on nothing changes nothing. */
  lemma StrayDecision(signals: seq<Signal>, desks: seq<Desk>, i: nat)
    requires IsRun(signals, desks) && i < |signals| && signals[i].PermissionDecided? && Stray(desks[i], signals[i].request)
    ensures desks[i + 1] == desks[i]
  {
    hide Orderly, DecideThere, Dispatch;
    RunOrderly(signals, desks, i);
    assert HermesDesk.StepAt(signals, desks, i);
    var d, request, decision := desks[i], signals[i].request, signals[i].decision;
    DecideDispatch(d, request, decision);
    if request != "" {
      NobodyAsks(d, request);
      ThereIsThere(d, request, decision);
    }
  }

  // --------------------------------------------------------- asked and decided

  /** Signal i asks for an approval of the request, and somebody is there to put it on a card. */
  ghost predicate AsksAt(signals: seq<Signal>, desks: seq<Desk>, i: nat, request: string)
    requires i < |signals| < |desks|
  {
    signals[i].PermissionCard? && signals[i].request == request != "" && desks[i].session.Some?
  }

  predicate DecidesRequest(signal: Signal, request: string) {
    signal.PermissionDecided? && signal.request == request
  }

  lemma AskedStep(d: Desk, signal: Signal, request: string)
    requires Orderly(d)
    ensures request in Dispatch(d, signal).asked <==>
              if signal.PermissionCard? && signal.request == request && d.session.Some? then request != ""
              else request in d.asked && !DecidesRequest(signal, request)
  {
    hide Orderly, Working, Dispatch, Asked;
    OrderlyParts(d);
    match signal {
      case Round(turn, event) => RoundSteps(d, turn, event);
      case Interrupt => InterruptSteps(d);
      case PermissionCard(r, action, resources, title) =>
        AskDispatch(d, r, action, resources, title);
        if d.session.Some? {
          AskedDesk(d, r, action, resources, title);
          AskedIs(d, Dispatch(d, signal), r, action, resources, title);
          NoEmptyRequest(d);
        }
      case PermissionDecided(r, decision) => DecidedStep(d, r, decision, request);
    }
  }

  lemma AskedIs(d: Desk, d': Desk, request: string, action: Json, resources: Json, title: Json)
    requires Asked(d, d', request, action, resources, title)
    ensures forall r :: r in d'.asked <==> r in d.asked || (r == request && request != "")
  {
  }

  lemma DecidedStep(d: Desk, request: string, decision: string, other: string)
    requires Orderly(d)
    ensures other in Dispatch(d, PermissionDecided(request, decision)).asked <==> other in d.asked && other != request
  {
    hide Orderly, Dispatch, HasQuestion, Decided, DecidedElsewhere, DecideThere;
    DecideDispatch(d, request, decision);
    NoEmptyRequest(d);
    if request != "" {
      if d.session.Some? && HasQuestion(d.session.value, request) {
        var k := QuestionIsWaiting(d.session.value, request);
        DecidedDesk(d, k, request, decision);
        DecidedAsked(d, Dispatch(d, PermissionDecided(request, decision)), k, request, decision);
      } else if request in d.asked {
        ElsewhereDesk(d, request, decision);
        ElsewhereAsked(d, Dispatch(d, PermissionDecided(request, decision)), request, decision);
      } else {
        ThereIsThere(d, request, decision);
      }
    }
  }

  lemma NoEmptyRequest(d: Desk)
    requires Orderly(d)
    ensures "" !in d.asked
  {
    hide Working;
    assert forall r :: r in d.asked ==> Waits(d, r, d.asked[r]) && r != "";
  }

  lemma DecidedAsked(d: Desk, d': Desk, k: nat, request: string, decision: string)
    requires k < |Elements(d)| && Decided(d, d', k, request, decision)
    ensures d'.asked == d.asked - {request}
  {
  }

  lemma ElsewhereAsked(d: Desk, d': Desk, request: string, decision: string)
    requires request in d.asked && DecidedElsewhere(d, d', request, decision)
    ensures d'.asked == d.asked - {request}
  {
  }

  /** Asked for at i and not decided from then on until j. */
  ghost predicate OpenSince(signals: seq<Signal>, desks: seq<Desk>, i: nat, j: nat, request: string)
    requires i < j <= |signals| < |desks|
  {
    AsksAt(signals, desks, i, request) && forall k :: i < k < j ==> !DecidesRequest(signals[k], request)
  }

  /** An approval is remembered exactly from when it is asked for until it is decided, whatever becomes of its card, turn and session. */
  lemma {:induction false} RememberedUntilDecided(signals: seq<Signal>, desks: seq<Desk>, j: nat, request: string)
    requires IsRun(signals, desks) && j <= |signals|
    ensures request in desks[j].asked <==> exists i :: 0 <= i < j && OpenSince(signals, desks, i, j, request)
  {
    hide Dispatch, Orderly, AsksAt, DecidesRequest;
    if j > 0 {
      RememberedUntilDecided(signals, desks, j - 1, request);
      RunOrderly(signals, desks, j - 1);
      assert HermesDesk.StepAt(signals, desks, j - 1);
      AskedStep(desks[j - 1], signals[j - 1], request);
      AsksIs(signals, desks, j - 1, request);
      if AsksAt(signals, desks, j - 1, request) {
        assert OpenSince(signals, desks, j - 1, j, request);
      } else if !DecidesRequest(signals[j - 1], request) {
        if request in desks[j - 1].asked {
          var i :| 0 <= i < j - 1 && OpenSince(signals, desks, i, j - 1, request);
          assert OpenSince(signals, desks, i, j, request);
        }
        if i :| 0 <= i < j && OpenSince(signals, desks, i, j, request) {
          assert i < j - 1 && OpenSince(signals, desks, i, j - 1, request);
          AsksIs(signals, desks, i, request);
        }
      }
    }
  }

  lemma AsksIs(signals: seq<Signal>, desks: seq<Desk>, i: nat, request: string)
    requires i < |signals| < |desks|
    ensures AsksAt(signals, desks, i, request) <==>
              signals[i].PermissionCard? && signals[i].request == request && desks[i].session.Some? && request != ""
    ensures DecidesRequest(signals[i], request) ==> !AsksAt(signals, desks, i, request)
  {
  }

  /**
   * A decision on an approval that was asked for and not decided since always
   * lands: on the last element that waits for it on the card in use, or, if
   * that has none, on the remembered element, wherever that is, even on a
   * finished card or after its turn.
   */
  lemma DecisionsLand(signals: seq<Signal>, desks: seq<Desk>, i: nat, j: nat) returns (k: nat)
    requires IsRun(signals, desks) && i < j < |signals|
    requires signals[i].PermissionCard? && DecidesRequest(signals[j], signals[i].request)
    requires OpenSince(signals, desks, i, j, signals[i].request)
    ensures var d, d', request, decision := desks[j], desks[j + 1], signals[i].request, signals[j].decision;
            && request in d.asked && request !in d'.asked
            && if exists e <- Elements(d) :: AsksFor(e, request)
               then LastWaiting(Elements(d), k, request) && Decided(d, d', k, request, decision)
               else DecidedElsewhere(d, d', request, decision)
  {
    hide Dispatch, Orderly, Decided, DecidedElsewhere;
    var d, request, decision := desks[j], signals[i].request, signals[j].decision;
    RememberedUntilDecided(signals, desks, j, request);
    RunOrderly(signals, desks, j);
    assert HermesDesk.StepAt(signals, desks, j);
    DecidedStep(d, request, decision, request);
    if exists e <- Elements(d) :: AsksFor(e, request) {
      k := LastAsking(Elements(d), request);
      DecidedDesk(d, k, request, decision);
    } else {
      k := 0;
      NobodyAsks(d, request);
      ElsewhereDesk(d, request, decision);
    }
  }

  lemma {:induction false} LastAsking(es: seq<Elem>, request: string) returns (k: nat)
    requires exists e <- es :: AsksFor(e, request)
    ensures LastWaiting(es, k, request)
  {
    var n := |es| - 1;
    if AsksFor(es[n], request) {
      k := n;
    } else {
      var e :| e in es && AsksFor(e, request);
      assert e in es[..n];
      k := LastAsking(es[..n], request);
    }
  }

  lemma NobodyAsks(d: Desk, request: string)
    requires forall e <- Elements(d) :: !AsksFor(e, request)
    ensures d.session.None? || !HasQuestion(d.session.value, request)
  {
    assert forall e: Elem :: IsPending(e, request) <==> AsksFor(e, request);
  }

  /** Asked and decided in a row: one settled element, a silent card, counted once unless the card was loud. */
  lemma ApprovalRoundTrip(signals: seq<Signal>, desks: seq<Desk>, i: nat)
    requires IsRun(signals, desks) && i + 1 < |signals| && desks[i].session.Some?
    requires signals[i].PermissionCard? && signals[i].request != ""
    requires signals[i + 1].PermissionDecided? && signals[i + 1].request == signals[i].request
    ensures var s, decision := signals[i], signals[i + 1].decision;
            var m := NextCard(desks[i]);
            var d := desks[i + 2];
            var es := Elements(d);
            && |es| > 0 && InUse(d) == Some(m) && m < |d.w.messages| && IsSilent(d.w.messages[m].card)
            && es == (if m < |desks[i].w.messages| then Elements(desks[i]) else [])
                     + [Answered(Question(es[|es| - 1].id, s.request, s.action, s.resources, s.title), s.request, decision)]
            && !AsksFor(es[|es| - 1], s.request)
            && d.w.unread == desks[i].w.unread
                             + (if m < |desks[i].w.messages| && !IsSilent(desks[i].w.messages[m].card) then 0 else 1)
  {
    AskingRings(signals, desks, i);
    var mid := Elements(desks[i + 1]);
    DecidingSettles(signals, desks, i + 1, |mid| - 1);
    hide IsRun;
  }
}
