// The plugin's AggregateSession object and the consumer that feeds it events.

module HermesSession {
  import opened Prelude
  import opened CardContent
  import opened ElementIds
  import opened Wire
  import opened CardSpec
  import opened Transport
  import opened AggregateCards
  import opened Reorder
  import Spec = HermesSpec
  import HermesSettle
  import HermesShadow

  class AggregateSession {
    const card: AggregateCard

    var elements: seq<Elem>
    var seqNo: nat
    var finalized: bool
    var finishedCard: Option<nat>
    var cardMsgId: Option<nat>
    var elementCards: map<string, nat>

    ghost function View(): Spec.Session
      reads this, card, card.io
    {
      Spec.Session(card.View(), elements, seqNo, finalized, finishedCard, cardMsgId, elementCards)
    }

    ghost predicate Wired()
    {
      card.opts == Spec.OPTIONS
    }

    constructor (io: CardIo)
      ensures Wired() && fresh(card) && card.io == io
      ensures View() == Spec.NewSession(io.View())
    {
      card := new AggregateCard(io, Spec.OPTIONS);
      elements, seqNo, finalized, finishedCard, cardMsgId, elementCards := [], 0, false, None, None, map[];
    }

    // --------------------------------------------------------------- elements

    method DirectPatch(target: Option<nat>, op: Op) returns (ok: bool)
      modifies card.io
      ensures View() == Spec.DirectPatch(old(View()), target, op)
      ensures ok == (target.Some? && Send(old(card.io.View()), target, Delta(op)).ok)
    {
      if target.None? {
        return false;
      }
      ok := card.io.Send(target, Delta(op));
    }

    method AppendElement(kind: string, data: Data, id: string)
      requires Wired()
      modifies this, card, card.io
      ensures View() == Spec.AppendElement(old(View()), kind, data, id)
    {
      hide Spec.PlaceElement, Spec.Settle;
      if finalized {
        return;
      }
      if !HasId(elements, id) && |elements| >= MAX_ELEMENTS {
        SettleUnfinishedElements();
      }
      PlaceElement(kind, data, id);
    }

    method PlaceElement(kind: string, data: Data, id: string)
      requires Wired()
      modifies this, card, card.io
      ensures View() == Spec.PlaceElement(old(View()), Elem(kind, id, data))
    {
      hide AppendCall;
      var before := |card.io.messages|;
      var sent := card.Append(kind, data["element_id" := Text(id)]);
      if |card.io.messages| > before {
        cardMsgId := Some(|card.io.messages| - 1);
      }
      if |card.io.messages| != before {
        elements := [];
      }
      var element := Elem(kind, id, data);
      if HasId(elements, id) {
        elements := MirrorElem(elements, element);
      } else {
        elements := elements + [element];
        if cardMsgId.Some? {
          elementCards := elementCards[id := cardMsgId.value];
        }
      }
    }

    method NextElementId(kind: string) returns (id: string)
      modifies this`seqNo
      ensures View() == old(View()).(seqNo := old(seqNo) + 1) && id == Spec.NextId(kind, seqNo)
    {
      seqNo := seqNo + 1;
      id := Spec.NextId(kind, seqNo);
    }

    method AppendNew(kind: string, data: Data) returns (id: string)
      requires Wired()
      modifies this, card, card.io
      ensures View() == Spec.AppendNew(old(View()), kind, data) && id == Spec.NextId(kind, old(seqNo) + 1)
    {
      hide Spec.AppendElement, Spec.NextId;
      id := NextElementId(kind);
      AppendElement(kind, data, id);
    }

    method UpdateElement(id: string, data: Data) returns (ok: bool)
      requires Wired()
      modifies this, card, card.io
      ensures View() == Spec.UpdateElement(old(View()), id, data)
      ensures ok == (!old(finalized) && UpdateCall(Spec.OPTIONS, old(card.View()), id, data).ok)
    {
      hide UpdateCall;
      if finalized {
        return false;
      }
      ok := card.Update(id, data);
      if ok {
        elements := Spec.MergeData(elements, id, data);
      }
    }

    method AppendOrMergeMarkdown(raw: string)
      requires Wired()
      modifies this, card, card.io
      ensures View() == Spec.AppendOrMergeMarkdown(old(View()), raw)
    {
      hide Spec.AppendElement, Spec.AppendNew, Spec.Strip, Spec.TextOf;
      var text := Spec.Strip(raw);
      if finalized || text == "" {
        return;
      }
      var last := FindLast(elements, Spec.IsMarkdown);
      var lastId := if last.Some? then last.value.id else "";
      var lastText := if last.Some? then Spec.Strip(Spec.TextOf(last.value.data)) else "";
      if lastId != "" && lastText != "" {
        if lastText <= text && text != lastText {
          AppendElement("markdown", Spec.MarkdownData(text), lastId);
          return;
        }
        if text <= lastText {
          return;
        }
      }
      var id := AppendNew("markdown", Spec.MarkdownData(text));
    }

    /** Searches from the end and stops at the first hit. */
    method FindLast(es: seq<Elem>, p: Elem -> bool) returns (r: Option<Elem>)
      ensures r == Spec.LastWhere(es, p)
    {
      var k := |es|;
      assert es[..k] == es;
      while k > 0
        invariant 0 <= k <= |es|
        invariant Spec.LastWhere(es, p) == Spec.LastWhere(es[..k], p)
      {
        assert es[..k][..k - 1] == es[..k - 1];
        k := k - 1;
        if p(es[k]) {
          return Some(es[k]);
        }
      }
      return None;
    }

    // ---------------------------------------------------------------- reorder

    method ReorderMarkdownToEnd()
      modifies this, card.io
      ensures View() == Spec.ReorderMarkdownToEnd(old(View()))
    {
      hide SortByRank, Spec.DirectPatch;
      if finalized || elements == [] {
        return;
      }
      var ordered, markdownIds := SplitIds(None);
      if markdownIds == [] {
        return;
      }
      ordered := ordered + markdownIds;
      assert ordered == Ids(Spec.MarkdownLast(elements));
      if ordered == Ids(elements) {
        return;
      }
      var sent := DirectPatch(cardMsgId, Op.Reorder(ordered));
      ReorderShadow(ordered);
    }

    method ReorderReasoningBeforeMarkdown(id: string)
      modifies this, card.io
      ensures View() == Spec.ReorderReasoning(old(View()), id)
    {
      hide SortByRank, Spec.DirectPatch, Spec.Filter, Without;
      if finalized || !HasId(elements, id) {
        return;
      }
      var others, markdownIds := SplitIds(Some(id));
      var ordered := others + [id] + markdownIds;
      var sent := DirectPatch(cardMsgId, Op.Reorder(ordered));
      ReorderShadow(ordered);
    }

    method ReorderShadow(ordered: seq<string>)
      modifies this`elements
      ensures elements == SortByRank(old(elements), ordered)
    {
      elements := SortByRank(elements, ordered);
    }

    static function Others(es: seq<Elem>, skip: Option<string>): seq<Elem> {
      if skip.Some? then Without(es, skip.value) else es
    }

    /** The ids of the elements that are no markdown and of those that are, in order, skip left out. */
    method SplitIds(skip: Option<string>) returns (others: seq<string>, markdown: seq<string>)
      ensures others == Ids(Spec.Filter(Others(elements, skip), Spec.NotMarkdown))
      ensures markdown == Ids(Spec.Filter(Others(elements, skip), Spec.IsMarkdown))
    {
      hide Spec.Filter, Others;
      others, markdown := [], [];
      OthersStart(skip);
      for i := 0 to |elements|
        invariant others == Ids(Spec.Filter(Others(elements[..i], skip), Spec.NotMarkdown))
        invariant markdown == Ids(Spec.Filter(Others(elements[..i], skip), Spec.IsMarkdown))
      {
        var e := elements[i];
        assert elements[..i + 1] == elements[..i] + [e];
        OthersSnoc(elements[..i], e, skip);
        if skip == Some(e.id) {
          continue;
        }
        if Spec.IsMarkdown(e) {
          markdown := markdown + [e.id];
        } else {
          others := others + [e.id];
        }
      }
      assert elements[..|elements|] == elements;
    }

    static lemma OthersStart(skip: Option<string>)
      ensures Spec.Filter(Others([], skip), Spec.NotMarkdown) == [] == Spec.Filter(Others([], skip), Spec.IsMarkdown)
    {
    }

    static lemma OthersSnoc(es: seq<Elem>, e: Elem, skip: Option<string>)
      ensures var before, after := Others(es, skip), Others(es + [e], skip);
              && Spec.Filter(after, Spec.NotMarkdown) ==
                 Spec.Filter(before, Spec.NotMarkdown) + (if skip == Some(e.id) || Spec.IsMarkdown(e) then [] else [e])
              && Spec.Filter(after, Spec.IsMarkdown) ==
                 Spec.Filter(before, Spec.IsMarkdown) + (if skip != Some(e.id) && Spec.IsMarkdown(e) then [e] else [])
    {
      var before := Others(es, skip);
      if skip.Some? {
        HermesSettle.WithoutConcat(es, [e], skip.value);
        assert [e][1..] == [];
        assert Without([e], skip.value) == if e.id == skip.value then [] else [e];
      }
      HermesShadow.FilterSnoc(before, e, Spec.NotMarkdown);
      HermesShadow.FilterSnoc(before, e, Spec.IsMarkdown);
      assert before + [] == before;
    }

    // ----------------------------------------------------------------- finish

    method SettleUnfinishedElements()
      requires Wired()
      modifies this, card, card.io
      ensures View() == Spec.Settle(old(View()))
    {
      hide Spec.SettleOne;
      var todo := elements;
      for i := 0 to |todo|
        invariant View() == Spec.SettleAll(old(View()), todo[..i])
      {
        assert todo[..i + 1][..i] == todo[..i];
        SettleOne(todo[i]);
      }
      assert todo[..|todo|] == todo;
    }

    method SettleOne(e: Elem)
      requires Wired()
      modifies this, card, card.io
      ensures View() == Spec.SettleOne(old(View()), e)
    {
      hide Spec.UpdateElement, Spec.DirectPatch, Spec.Blank, Without;
      if Spec.IsOpenReasoning(e) {
        if Spec.Blank(e.data) {
          var owner := if e.id in elementCards then Some(elementCards[e.id]) else cardMsgId;
          var sent := DirectPatch(owner, Op.Remove(e.id));
          elements := Without(elements, e.id);
        } else {
          var sent := UpdateElement(e.id, e.data["finished" := Bool(true)]);
        }
      } else if Spec.IsRunningTool(e) {
        var sent := UpdateElement(e.id, e.data + Spec.INTERRUPTED);
      }
    }

    method Finish(footer: Data)
      requires Wired()
      modifies this, card, card.io
      ensures View() == Spec.Finish(old(View()), footer)
    {
      hide Spec.Settle, FinishCall, Wire.Recall, Spec.OnlyFooters;
      if finalized {
        return;
      }
      finalized := true;
      if cardMsgId.Some? && finishedCard == cardMsgId {
        return;
      }
      SettleUnfinishedElements();
      CloseCard(footer);
      if cardMsgId.Some? && Spec.OnlyFooters(elements) {
        var gone := card.io.Recall(cardMsgId);
      }
      if cardMsgId.Some? {
        finishedCard := cardMsgId;
      }
    }

    method CloseCard(footer: Data)
      requires Wired()
      modifies this`cardMsgId, card, card.io
      ensures View() == Spec.CloseCard(old(View()), footer)
    {
      hide FinishCall;
      var before := |card.io.messages|;
      var sent := card.Finish(footer);
      if |card.io.messages| > before {
        cardMsgId := Some(|card.io.messages| - 1);
      }
    }

    method ResetForNewCard()
      modifies this`finalized, this`elements
      ensures View() == Spec.ResetForNewCard(old(View()))
    {
      finalized, elements := false, [];
    }

    // ----------------------------------------------------------------- events

    method AppendReasoning(data: Data)
      requires Wired()
      modifies this, card, card.io
      ensures View() == Spec.AppendReasoning(old(View()), data)
    {
      hide Spec.AppendNew, Spec.ReorderReasoning, Spec.NextId;
      var id := AppendNew("reasoning", data);
      ReorderReasoningBeforeMarkdown(id);
    }

    method OnToolEnd(e: Spec.Event)
      requires Wired() && e.ToolEnd?
      modifies this, card, card.io
      ensures View() == Spec.OnToolEnd(old(View()), e)
    {
      hide Spec.UpdateElement, Spec.ToolResult;
      var tool := FindLast(elements, x => Spec.IsRunningTool(x) && Spec.Says(x.data, "name", e.name));
      if tool.None? || tool.value.id == "" {
        return;
      }
      var sent := UpdateElement(tool.value.id, Spec.ToolResult(e));
    }

    method OnReasoning(text: string)
      requires Wired()
      modifies this, card, card.io
      ensures View() == Spec.OnReasoning(old(View()), text)
    {
      hide Spec.UpdateElement, Spec.AppendReasoning, Spec.Strip;
      if Spec.Strip(text) == "" {
        return;
      }
      var current := FindLast(elements, Spec.IsOpenReasoning);
      if current.Some? && current.value.id != "" {
        var sent := UpdateElement(current.value.id, Spec.ThinkingData(text, true));
      } else {
        AppendReasoning(Spec.ThinkingData(text, true));
      }
    }

    method OnReasoningDelta(text: string)
      requires Wired()
      modifies this, card, card.io
      ensures View() == Spec.OnReasoningDelta(old(View()), text)
    {
      hide Spec.UpdateElement, Spec.AppendReasoning, Spec.Strip, Spec.TextOf, Spec.Finished;
      if Spec.Strip(text) == "" {
        return;
      }
      var last := FindLast(elements, Spec.IsReasoning);
      if last.Some? && last.value.id != "" && !Spec.Finished(last.value.data) {
        var lastText := Spec.Strip(Spec.TextOf(last.value.data));
        if lastText == "" {
          var sent := UpdateElement(last.value.id, Spec.ThinkingData(text, false));
          return;
        }
        var sent := UpdateElement(last.value.id, Spec.ThinkingData(lastText, true));
      }
      AppendReasoning(Spec.ThinkingData(text, false));
    }

    method OnEvent(e: Spec.Event)
      requires Wired()
      modifies this, card, card.io
      ensures View() == Spec.OnEvent(old(View()), e)
    {
      hide Spec.AppendNew, Spec.OnToolEnd, Spec.OnReasoning, Spec.OnReasoningDelta, Spec.AppendOrMergeMarkdown,
           Spec.ReorderMarkdownToEnd, Spec.Finish, Spec.FooterOf;
      match e {
        case PreLlmCall =>
          if elements == [] {
            var id := AppendNew("reasoning", Spec.ThinkingData("", false));
          }
        case ToolStart(name, args) => var id := AppendNew("tool_card", Spec.ToolData(name, args));
        case ToolEnd(_, _, _, _, _, _) => OnToolEnd(e);
        case Reasoning(text) => OnReasoning(text);
        case ReasoningDelta(text) => OnReasoningDelta(text);
        case Markdown(text) =>
          AppendOrMergeMarkdown(text);
          ReorderMarkdownToEnd();
        case MarkdownUpdate(text) => AppendOrMergeMarkdown(text);
        case RoundEnd(_, _, _, _, _, _) => Finish(Spec.FooterOf(e));
      }
    }

    method OnInterrupt()
      requires Wired()
      modifies this, card, card.io
      ensures View() == Spec.OnInterrupt(old(View()))
    {
      hide Spec.UpdateElement, Spec.Finish;
      var todo := elements;
      for i := 0 to |todo|
        invariant View() == Spec.FailTools(old(View()), todo[..i])
      {
        assert todo[..i + 1][..i] == todo[..i];
        if Spec.IsRunningTool(todo[i]) {
          var sent := UpdateElement(todo[i].id, todo[i].data + Spec.INTERRUPTED);
        }
      }
      assert todo[..|todo|] == todo;
      Finish(Spec.INTERRUPT);
      ResetForNewCard();
    }

    method OnPermissionCard(request: string, action: Json, resources: Json, title: Json) returns (id: string)
      requires Wired()
      modifies this, card, card.io
      ensures View() == Spec.OnPermissionCard(old(View()), request, action, resources, title)
      ensures id == Spec.NextId("permission_card", old(seqNo) + 1)
    {
      hide Spec.AppendNew, Spec.DirectPatch, Spec.PermissionData;
      id := AppendNew("permission_card", Spec.PermissionData(request, action, resources, title));
      var sent := DirectPatch(cardMsgId, SetSilent(Some(false)));
    }

    /** found: the current card has the question; landed: both requests were accepted. */
    method OnPermissionDecided(request: string, decision: string) returns (found: bool, landed: bool)
      requires Wired()
      modifies this, card, card.io
      ensures View() == Spec.OnPermissionDecided(old(View()), request, decision)
      ensures found == Spec.HasQuestion(old(View()), request) && landed == Spec.DecisionLands(old(View()), request, decision)
    {
      hide Spec.UpdateElement, Spec.DirectPatch, UpdateCall, Spec.DecisionData;
      if request == "" {
        return false, false;
      }
      var asked := FindLast(elements, e => Spec.IsPending(e, request));
      if asked.None? || asked.value.id == "" {
        return false, false;
      }
      found, landed := true, false;
      var id := asked.value.id;
      var ok := UpdateElement(id, Spec.DecisionData(request, decision));
      if ok {
        var owner := if id in elementCards then Some(elementCards[id]) else cardMsgId;
        landed := DirectPatch(owner, SetSilent(Some(true)));
      }
    }
  }

  lemma StrayLeaves(h: Spec.Session, request: string, decision: string)
    ensures !Spec.HasQuestion(h, request) ==> Spec.OnPermissionDecided(h, request, decision) == h
  {
  }

  /** The event consumer of one conversation: the registered session and the last turn seen. */
  class EventConsumer {
    const io: CardIo
    var session: AggregateSession?
    var turn: Option<string>
    var permissionCards: map<string, Spec.Place>

    ghost predicate Valid()
      reads this, session
    {
      session != null ==> session.Wired() && session.card.io == io
    }

    ghost function View(): Spec.Desk
      reads this, session, if session != null then {session.card, session.card.io} else {}, io
    {
      Spec.Desk(if session != null then Some(session.View()) else None, turn, io.View(), permissionCards)
    }

    constructor (io: CardIo)
      ensures Valid() && this.io == io && session == null
      ensures View() == Spec.Desk(None, None, io.View(), map[])
    {
      this.io := io;
      session, turn, permissionCards := null, None, map[];
    }

    method IsNewTurn(id: string) returns (changed: bool)
      requires Valid()
      modifies this`turn
      ensures changed == Spec.IsNewTurn(old(View()), id)
      ensures turn == (if id == "" then old(turn) else Some(id)) && Valid()
    {
      if id == "" {
        return false;
      }
      changed := turn.Some? && turn.value != id;
      turn := Some(id);
    }

    method EnterTurn(id: string)
      requires Valid()
      modifies this, io, if session != null then {session, session.card} else {}
      ensures Valid() && View() == Spec.EnterTurn(old(View()), id)
      ensures session == null || session == old(session)
    {
      hide Spec.Finish;
      var changed := IsNewTurn(id);
      if changed && session != null {
        session.Finish(Spec.INTERRUPT);
        session := null;
      }
    }

    method RememberPermissionCard(request: string, card: Option<nat>, id: string)
      requires Valid()
      modifies this`permissionCards
      ensures Valid() && View() == Spec.Remembered(old(View()), request, card, id)
    {
      if request == "" || card.None? {
        return;
      }
      permissionCards := permissionCards[request := Spec.Place(card.value, id)];
    }

    method DropPermissionCard(request: string)
      requires Valid()
      modifies this`permissionCards
      ensures Valid() && View() == Spec.Forgotten(old(View()), request, true)
    {
      permissionCards := permissionCards - {request};
    }

    /** The decision goes to the message by itself: both requests, the second one in any case. */
    method DecideThere(request: string, decision: string)
      requires Valid()
      modifies this`permissionCards, io
      ensures Valid() && View() == Spec.DecideThere(old(View()), request, decision)
    {
      hide Send, Spec.DecisionData;
      if request !in permissionCards {
        return;
      }
      var place := permissionCards[request];
      var updated := io.Send(Some(place.card), Delta(Update(place.id, Some(Spec.DecisionData(request, decision)))));
      var silenced := io.Send(Some(place.card), Delta(SetSilent(Some(true))));
      if updated && silenced {
        DropPermissionCard(request);
      }
    }

    method Dispatch(signal: Spec.Signal)
      requires Valid()
      modifies this, io, if session != null then {session, session.card} else {}
      ensures Valid() && View() == Spec.Dispatch(old(View()), signal)
    {
      hide Spec.OnEvent, Spec.OnInterrupt, Spec.OnPermissionCard, Spec.OnPermissionDecided, Spec.EnterTurn, Spec.DecideThere, Spec.HasQuestion,
           Spec.DecisionLands;
      match signal {
        case Round(turn, event) =>
          EnterTurn(turn);
          if session == null {
            session := new AggregateSession(io);
          }
          session.OnEvent(event);
          if event.RoundEnd? {
            session := null;
          }
        case Interrupt =>
          if session != null && !session.finalized {
            session.OnInterrupt();
          }
        case PermissionCard(request, action, resources, title) =>
          if session != null && !session.finalized {
            var id := session.OnPermissionCard(request, action, resources, title);
            RememberPermissionCard(request, session.cardMsgId, id);
          }
        case PermissionDecided(request, decision) => OnDecided(request, decision);
      }
    }

    /** On the card in use if the question is there, otherwise where it was put. */
    method OnDecided(request: string, decision: string)
      requires Valid()
      modifies this`permissionCards, io, if session != null then {session, session.card} else {}
      ensures Valid() && View() == Spec.Dispatch(old(View()), Spec.PermissionDecided(request, decision))
    {
      hide Spec.OnPermissionDecided, Spec.HasQuestion, Spec.DecisionLands, Spec.DecideThere;
      if request == "" {
        return;
      }
      var found, landed := false, false;
      if session != null && !session.finalized {
        found, landed := session.OnPermissionDecided(request, decision);
        assert !found ==> View() == old(View()) by { StrayLeaves(old(session.View()), request, decision); }
      }
      if !found {
        DecideThere(request, decision);
      } else if landed {
        DropPermissionCard(request);
      }
    }
  }
}
