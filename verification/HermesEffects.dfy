// What pairs and single events of the plugin leave on the card.

module HermesEffects {
  import opened Prelude
  import opened CardContent
  import opened CardSpec
  import opened HermesSpec
  import opened HermesMirror
  import opened HermesSettle
  import opened HermesShadow
  import opened HermesEvents
  import opened HermesRun

  // -------------------------------------------------------------------- tools

  lemma ToolStarted(h: Session, name: string, args: Json)
    requires Proper(h)
    ensures var h' := OnEvent(h, ToolStart(name, args));
            Proper(h') && h'.elements == RoomIn(h.elements) + [Elem("tool_card", NextId("tool_card", h.seqNo + 1), ToolData(name, args))]
  {
    hide AppendNew, Tidy, Attached, NextId;
    PlainParts("", false, name, args);
    AppendNewKeeps(h, "tool_card", ToolData(name, args));
    AppendOther(h, "tool_card", ToolData(name, args));
  }

  lemma LastIsLast(es: seq<Elem>, e: Elem, p: Elem -> bool)
    requires p(e)
    ensures LastWhere(es + [e], p) == Some(e)
  {
  }

  /** The result overwrites all a running tool had said. */
  lemma ResultCoversStart(name: string, args: Json, e: Event)
    requires e.ToolEnd?
    ensures ToolData(name, args) + ToolResult(e) == ToolResult(e)
    ensures !Says(ToolResult(e), "status", "running") && Says(ToolResult(e), "name", e.name)
    ensures Says(ToolResult(e), "status", "error") <==> e.failed
  {
    hide Opt;
    OptKeys("output", e.output);
    OptKeys("error", e.error);
    OptKeys("duration", e.duration);
    var r := ToolResult(e);
    assert r["status"] == Text(if e.failed then "error" else "completed");
    assert "name" in r && "input" in r && "status" in r;
  }

  lemma OptKeys(key: string, v: Option<Json>)
    ensures forall k <- Opt(key, v) :: k == key
  {
  }

  /**
   * A tool that starts and ends leaves one settled element with its result,
   * even when an older tool of the same name is still running; nothing else on
   * the card changes.
   */
  lemma ToolRoundTrip(h: Session, name: string, args: Json, e: Event)
    requires Proper(h) && e.ToolEnd? && e.name == name
    ensures var h' := OnEvent(OnEvent(h, ToolStart(name, args)), e);
            var tool := Elem("tool_card", NextId("tool_card", h.seqNo + 1), ToolResult(e));
            Proper(h') && h'.elements == RoomIn(h.elements) + [tool] && !IsRunningTool(tool)
  {
    hide UpdateElement, AppendNew, Tidy, Attached, ToolResult, NextId;
    ToolStarted(h, name, args);
    var h1 := OnEvent(h, ToolStart(name, args));
    var x := RoomIn(h.elements);
    var started := Elem("tool_card", NextId("tool_card", h.seqNo + 1), ToolData(name, args));
    var p := (t: Elem) => IsRunningTool(t) && Says(t.data, "name", e.name);
    LastIsLast(x, started, p);
    ToolEndProper(h1, e);
    UpdateAt(h1, |x|, ToolResult(e));
    ResultCoversStart(name, args, e);
    FoundTool(h1, started, e);
  }

  /** tool_end updates the tool it finds. */
  lemma FoundTool(h: Session, tool: Elem, e: Event)
    requires e.ToolEnd? && tool.id != ""
    requires LastWhere(h.elements, x => IsRunningTool(x) && Says(x.data, "name", e.name)) == Some(tool)
    ensures OnToolEnd(h, e) == UpdateElement(h, tool.id, ToolResult(e))
  {
    hide UpdateElement, ToolResult;
  }

  // ----------------------------------------------------------------- thinking

  /** After everything but the markdown means: last of its kind. */
  lemma PlacedIsLast(x: seq<Elem>, e: Elem)
    requires IsReasoning(e)
    ensures LastWhere(Placed(x, e), IsReasoning) == Some(e)
  {
    var mds := Filter(x, IsMarkdown);
    SkipMarkdown(Filter(x, NotMarkdown) + [e], mds);
    LastIsLast(Filter(x, NotMarkdown), e, IsReasoning);
  }

  lemma {:induction false} SkipMarkdown(a: seq<Elem>, mds: seq<Elem>)
    requires forall m <- mds :: IsMarkdown(m)
    ensures LastWhere(a + mds, IsReasoning) == LastWhere(a, IsReasoning)
  {
    if mds == [] {
      assert a + mds == a;
    } else {
      var n := |mds| - 1;
      assert (a + mds)[..|a| + n] == a + mds[..n];
      assert mds[n] in mds;
      SkipMarkdown(a, mds[..n]);
    }
  }

  lemma ReplacedIsLast(es: seq<Elem>, k: nat, e: Elem)
    requires k < |es| && IsReasoning(e) && forall j :: k < j < |es| ==> !IsReasoning(es[j])
    ensures LastWhere(es[k := e], IsReasoning) == Some(e)
  {
    var r := es[k := e];
    assert r[k] in r;
    var i := LastWhereAt(r, IsReasoning);
  }

  /** A new thought is the last block, unfinished and with that text, and the only unfinished one. */
  lemma ThoughtOpens(h: Session, text: string)
    requires Proper(h) && Strip(text) != ""
    ensures var es := OnReasoningDelta(h, text).elements;
            var last := LastWhere(es, IsReasoning);
            && last.Some? && TextOf(last.value.data) == text && Unfinished(last.value.data)
            && forall i, j :: 0 <= i < j < |es| && IsReasoning(es[i]) && IsReasoning(es[j]) ==> !IsOpenReasoning(es[i])
  {
    ReasoningDeltaProper(h, text);
    DeltaLast(h, text);
    var es := OnReasoningDelta(h, text).elements;
    hide OnReasoningDelta, Tidy, Ready;
    forall i, j | 0 <= i < j < |es| && IsReasoning(es[i]) && IsReasoning(es[j]) ensures !IsOpenReasoning(es[i]) {
      OneOpenReasoning(es, i, j);
    }
  }

  lemma DeltaLast(h: Session, text: string)
    requires Proper(h) && Strip(text) != ""
    ensures var last := LastWhere(OnReasoningDelta(h, text).elements, IsReasoning);
            && last.Some? && TextOf(last.value.data) == text && Unfinished(last.value.data)
  {
    hide UpdateElement, AppendReasoning, Tidy, Attached, Strip, Finished, Blank, Placed, NextId;
    PlainParts(text, false, "", Null);
    var last := LastWhere(h.elements, IsReasoning);
    var data := ThinkingData(text, false);
    if last.Some? && last.value.id != "" && !Finished(last.value.data) {
      var k := LastWhereAt(h.elements, IsReasoning);
      var e := h.elements[k];
      if Blank(e.data) {
        UpdateAt(h, k, data);
        ReplacedIsLast(h.elements, k, e.(data := e.data + data));
      } else {
        var ending := ThinkingData(Strip(TextOf(e.data)), true);
        UpdateAt(h, k, ending);
        NewThoughtLast(UpdateElement(h, e.id, ending), data);
      }
    } else {
      NewThoughtLast(h, data);
    }
  }

  lemma NewThoughtLast(h: Session, data: Data)
    requires Ready(h) && Plain(data)
    ensures var last := LastWhere(AppendReasoning(h, data).elements, IsReasoning);
            last.Some? && last.value.data == data
  {
    hide AppendReasoning, Ready, NextId, Placed;
    AppendReasoningReady(h, data);
    PlacedIsLast(RoomIn(h.elements), Elem("reasoning", NextId("reasoning", h.seqNo + 1), data));
  }

  /** The final thought leaves none unfinished, and one block holds it. */
  lemma ThoughtCloses(h: Session, text: string)
    requires Proper(h) && Strip(text) != ""
    ensures var es := OnReasoning(h, text).elements;
            && (forall e <- es :: !IsOpenReasoning(e))
            && (exists e <- es :: IsReasoning(e) && TextOf(e.data) == text)
  {
    hide UpdateElement, AppendReasoning, Tidy, Attached, Strip, NextId, Placed;
    PlainParts(text, true, "", Null);
    var data := ThinkingData(text, true);
    var es := h.elements;
    var current := LastWhere(es, IsOpenReasoning);
    if current.Some? {
      var k := LastWhereAt(es, IsOpenReasoning);
      UpdateAt(h, k, data);
      var e := es[k].(data := es[k].data + data);
      LastOpenIsLast(es, k);
      EndedLeavesNone(es, k, e);
      assert es[k := e][k] == e && e in es[k := e];
    } else {
      AppendReasoningReady(h, data);
      var e := Elem("reasoning", NextId("reasoning", h.seqNo + 1), data);
      PlacedMembers(RoomIn(es), e);
    }
  }

  lemma LastOpenIsLast(es: seq<Elem>, k: nat)
    requires Tidy(es) && k < |es| && IsOpenReasoning(es[k])
    ensures forall j :: k < j < |es| ==> !IsReasoning(es[j])
  {
    forall j | k < j < |es| ensures !IsReasoning(es[j]) {
      if IsReasoning(es[j]) {
        OneOpenReasoning(es, k, j);
      }
    }
  }

  lemma PlacedMembers(x: seq<Elem>, e: Elem)
    ensures e in Placed(x, e) && forall y <- Placed(x, e) :: y == e || y in x
  {
  }
}
