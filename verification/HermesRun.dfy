// Every signal of the plugin but a decision on an earlier card, on delivered
// calls: the server's card stays a tidy shadow.

module HermesRun {
  import opened Prelude
  import opened CardContent
  import opened ElementIds
  import opened Wire
  import opened CardSpec
  import opened HermesSpec
  import opened HermesMirror
  import opened HermesSettle
  import opened HermesFinish
  import opened HermesShadow
  import opened HermesEvents
  import CardFaultFree

  // ---------------------------------------------------------------- thinking

  lemma NewThinking(h: Session, text: string, finished: bool)
    requires Proper(h) && forall e <- h.elements :: !IsOpenReasoning(e)
    ensures Proper(AppendReasoning(h, ThinkingData(text, finished)))
  {
    hide AppendReasoning, Tidy, Attached, NextId, Placed;
    var data := ThinkingData(text, finished);
    AppendReasoningReady(h, data);
    TidyRoom(h.elements);
    TidyPlaced(RoomIn(h.elements), Elem("reasoning", NextId("reasoning", h.seqNo + 1), data));
  }

  /** The final thought closes the open block, or is one itself. */
  lemma ReasoningProper(h: Session, text: string)
    requires Proper(h)
    ensures Proper(OnReasoning(h, text))
  {
    hide UpdateElement, AppendReasoning, Tidy, Attached, Strip;
    if Strip(text) != "" {
      if LastWhere(h.elements, IsOpenReasoning).Some? {
        var k := LastWhereAt(h.elements, IsOpenReasoning);
        UpdateProper(h, k, ThinkingData(text, true));
      } else {
        NewThinking(h, text, true);
      }
    }
  }

  /** In a tidy shadow an unfinished block can only be the last one. */
  lemma OpenIsLast(es: seq<Elem>)
    requires Tidy(es)
    ensures var last := LastWhere(es, IsReasoning);
            && (last.None? || Finished(last.value.data) ==> forall e <- es :: !IsOpenReasoning(e))
            && (last.Some? ==> (Finished(last.value.data) <==> !Unfinished(last.value.data)))
  {
    var last := LastWhere(es, IsReasoning);
    if last.Some? {
      var k := LastWhereAt(es, IsReasoning);
      assert WellFormed(es[k]);
      forall i | 0 <= i < |es| && i != k ensures !IsOpenReasoning(es[i]) {
        if i < k && IsReasoning(es[i]) {
          OneOpenReasoning(es, i, k);
        }
      }
    }
  }

  /** Ending the last block leaves none open. */
  lemma EndedLeavesNone(es: seq<Elem>, k: nat, e: Elem)
    requires Tidy(es) && k < |es| && IsReasoning(es[k]) && !IsOpenReasoning(e)
    requires forall j :: k < j < |es| ==> !IsReasoning(es[j])
    ensures forall x <- es[k := e] :: !IsOpenReasoning(x)
  {
    forall i | 0 <= i < |es| && i != k ensures !IsOpenReasoning(es[i]) {
      if i < k && IsReasoning(es[i]) {
        OneOpenReasoning(es, i, k);
      }
    }
  }

  /** A new thought fills the blank block, or ends the open one and starts its own. */
  lemma ReasoningDeltaProper(h: Session, text: string)
    requires Proper(h)
    ensures Proper(OnReasoningDelta(h, text))
  {
    hide UpdateElement, AppendReasoning, Tidy, Attached, Strip, Finished, Blank;
    if Strip(text) != "" {
      OpenIsLast(h.elements);
      var last := LastWhere(h.elements, IsReasoning);
      if last.Some? && !Finished(last.value.data) {
        var k := LastWhereAt(h.elements, IsReasoning);
        var e := h.elements[k];
        UpdateAt(h, k, ThinkingData(text, false));
        if Blank(e.data) {
          UpdateProper(h, k, ThinkingData(text, false));
        } else {
          var data := ThinkingData(Strip(TextOf(e.data)), true);
          UpdateAt(h, k, data);
          UpdateProper(h, k, data);
          EndedLeavesNone(h.elements, k, e.(data := e.data + data));
          NewThinking(UpdateElement(h, e.id, data), text, false);
        }
      } else {
        NewThinking(h, text, false);
      }
    }
  }

  // -------------------------------------------------------------- each event

  /** One event of a round keeps the server's card equal to a tidy shadow; the last one finishes the card. */
  lemma EventProper(h: Session, e: Event)
    requires Proper(h)
    ensures !e.RoundEnd? ==> Proper(OnEvent(h, e))
    ensures e.RoundEnd? ==> Done(OnEvent(h, e))
  {
    hide Proper;
    match e {
      case PreLlmCall => PreLlmProper(h);
      case ToolStart(name, args) =>
        PlainParts("", false, name, args);
        AppendOther(h, "tool_card", ToolData(name, args));
      case ToolEnd(_, _, _, _, _, _) => ToolEndProper(h, e);
      case Reasoning(text) => ReasoningProper(h, text);
      case ReasoningDelta(text) => ReasoningDeltaProper(h, text);
      case Markdown(text) => FinalMarkdown(h, text);
      case MarkdownUpdate(text) => MarkdownProper(h, text);
      case RoundEnd(_, _, _, _, _, _) =>
        ProperReady(h);
        FinishKeeps(h, FooterOf(e));
    }
  }

  lemma ProperReady(h: Session)
    requires Proper(h)
    ensures Ready(h) && Tidy(h.elements)
  {
  }

  // --------------------------------------------------- interrupt, permission

  /** A running tool marked as interrupted, anything else as it is. */
  function Failed(e: Elem): Elem {
    if IsRunningTool(e) then e.(data := e.data + INTERRUPTED) else e
  }

  function FailedAll(es: seq<Elem>): (r: seq<Elem>)
    ensures |r| == |es|
    ensures forall i :: 0 <= i < |es| ==> r[i] == Failed(es[i])
  {
    seq(|es|, i requires 0 <= i < |es| => Failed(es[i]))
  }

  lemma {:induction false} FailToolsKeeps(h: Session, i: nat)
    requires Ready(h) && i <= |h.elements|
    ensures var h' := FailTools(h, h.elements[..i]);
            Ready(h') && h'.elements == FailedAll(h.elements[..i]) + h.elements[i..] && h'.cardMsgId == h.cardMsgId
  {
    hide Attached, UpdateElement, Idle, FailTools;
    var es := h.elements;
    FailUnfolds(h, i);
    if i > 0 {
      FailToolsKeeps(h, i - 1);
      var before := FailTools(h, es[..i - 1]);
      var e := es[i - 1];
      assert before.elements[i - 1] == e;
      assert before.elements == FailedAll(es[..i - 1]) + [e] + es[i..];
      assert FailedAll(es[..i]) == FailedAll(es[..i - 1]) + [Failed(e)];
      if IsRunningTool(e) {
        UpdateAt(before, i - 1, e.data + INTERRUPTED);
        assert e.data + (e.data + INTERRUPTED) == e.data + INTERRUPTED;
      }
    } else {
      assert FailedAll(es[..0]) + es[0..] == es;
    }
  }

  lemma FailUnfolds(h: Session, i: nat)
    requires i <= |h.elements|
    ensures var es := h.elements;
            FailTools(h, es[..i]) ==
            if i == 0 then h
            else
              var before := FailTools(h, es[..i - 1]);
              if IsRunningTool(es[i - 1]) then UpdateElement(before, es[i - 1].id, es[i - 1].data + INTERRUPTED) else before
  {
    hide UpdateElement;
    var es := h.elements;
    if i > 0 {
      assert es[..i][..i - 1] == es[..i - 1] && es[..i][i - 1] == es[i - 1];
    }
  }

  lemma InterruptProper(h: Session)
    requires Proper(h)
    ensures Proper(OnInterrupt(h))
  {
    hide Attached, Finish, FailTools, Done;
    assert h.elements[..|h.elements|] == h.elements;
    FailToolsKeeps(h, |h.elements|);
    FinishKeeps(FailTools(h, h.elements), INTERRUPT);
    TidyEmpty();
  }

  /** Changing only the current card's silence. */
  lemma SilenceReady(h: Session, silent: bool)
    requires Proper(h) && h.elements != []
    ensures var h' := DirectPatch(h, h.cardMsgId, SetSilent(Some(silent)));
            Proper(h') && h'.elements == h.elements && h'.s.c == h.s.c
  {
    hide Mirrors, Filed, SplitsSettled, Tidy;
    var m := h.cardMsgId.value;
    CardFaultFree.SendTaken(h.s.w, m, SetSilent(Some(silent)));
    OnCardTaken(h.s, m, Delta(SetSilent(Some(silent))), h.s.w.messages[m].card.(silent := Some(silent)));
  }

  lemma PermissionCardProper(h: Session, request: string, action: Json, resources: Json, title: Json)
    requires Proper(h)
    ensures Proper(OnPermissionCard(h, request, action, resources, title))
  {
    hide AppendNew, DirectPatch, Tidy, Attached;
    var data := PermissionData(request, action, resources, title);
    assert Plain(data);
    AppendOther(h, "permission_card", data);
    AppendNewKeeps(h, "permission_card", data);
    SilenceReady(AppendNew(h, "permission_card", data), false);
  }

  lemma PermissionDecidedProper(h: Session, request: string, decision: string)
    requires Proper(h)
    ensures Proper(OnPermissionDecided(h, request, decision))
  {
    hide UpdateElement, UpdateCall, DirectPatch, Tidy, Attached, DecisionData, PermissionData;
    var p := (e: Elem) => IsPending(e, request);
    if LastWhere(h.elements, p).Some? && request != "" {
      var k := LastWhereAt(h.elements, p);
      var data := DecisionData(request, decision);
      UpdateProper(h, k, data);
      UpdateAt(h, k, data);
      var h1 := UpdateElement(h, h.elements[k].id, data);
      OwnerOf(h1, h1.cardMsgId.value, h1.elements[k]);
      SilenceReady(h1, true);
    }
  }
}
