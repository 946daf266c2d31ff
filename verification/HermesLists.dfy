// The plugin as a list machine: on delivered calls the session, the SDK object
// and the store together do to the card in use what a few plain functions do
// to a list of elements.

module HermesLists {
  import opened Prelude
  import opened CardContent
  import opened ElementIds
  import opened Wire
  import opened CardSpec
  import opened HermesSpec
  import opened HermesMirror
  import opened HermesSettle
  import opened HermesShadow
  import opened HermesEvents
  import opened HermesRun
  import opened HermesMoves
  import opened HermesDesk
  import HermesEffects

  // ---------------------------------------------------------------- the lists

  /** The list a new element joins. */
  function Joined(es: seq<Elem>): seq<Elem> {
    if |es| < 20 then es else []
  }

  /** The place of the last element that satisfies p, if there is one. */
  function LastAt(es: seq<Elem>, p: Elem -> bool): (k: Option<nat>)
    ensures k.Some? ==> k.value < |es| && p(es[k.value]) && forall j :: k.value < j < |es| ==> !p(es[j])
    ensures k.None? ==> forall e <- es :: !p(e)
  {
    if es == [] then None
    else if p(es[|es| - 1]) then Some(|es| - 1)
    else LastAt(es[..|es| - 1], p)
  }

  /** The same list, with data merged over that of element k. */
  function Merged(es: seq<Elem>, k: nat, data: Data): seq<Elem>
    requires k < |es|
  {
    es[k := es[k].(data := es[k].data + data)]
  }

  function Thinking(id: string, text: string, finished: bool): Elem {
    Elem("reasoning", id, map["text" := Text(text), "finished" := Bool(finished)])
  }

  predicate IsText(e: Elem) {
    e.kind == "markdown"
  }

  predicate NoText(e: Elem) {
    e.kind != "markdown"
  }

  /** A new thought goes behind everything but the markdown. */
  function WithThought(es: seq<Elem>, e: Elem): seq<Elem> {
    Filter(Joined(es), NoText) + [e] + Filter(Joined(es), IsText)
  }

  function Running(id: string, name: string, args: Json): Elem {
    Elem("tool_card", id, map["name" := Text(name), "input" := args, "status" := Text("running")])
  }

  predicate RunsAs(e: Elem, name: string) {
    && e.kind == "tool_card"
    && "name" in e.data && e.data["name"] == Text(name)
    && "status" in e.data && e.data["status"] == Text("running")
  }

  /** What a tool that has ended reports: output, error and duration only if there are any. */
  ghost predicate Reports(data: Data, e: Event)
    requires e.ToolEnd?
  {
    && (forall key <- data :: key in {"name", "input", "status", "output", "error", "duration"})
    && "name" in data && data["name"] == Text(e.name)
    && "input" in data && data["input"] == e.args
    && "status" in data && data["status"] == Text(if e.failed then "error" else "completed")
    && Carries(data, "output", e.output) && Carries(data, "error", e.error) && Carries(data, "duration", e.duration)
  }

  /** The key is there exactly if there is a value, and then with it. */
  ghost predicate Carries(data: Data, key: string, value: Option<Json>) {
    (key in data <==> value.Some?) && (value.Some? ==> data[key] == value.value)
  }

  predicate Thinks(e: Elem) {
    e.kind == "reasoning" && "finished" in e.data && e.data["finished"] == Bool(false)
  }

  /** A thought that comes while another one is going on ends that one, or fills it if it was blank. */
  function AfterDelta(es: seq<Elem>, text: string, id: string): seq<Elem> {
    var current := LastAt(es, Thinks);
    if current.None? then WithThought(es, Thinking(id, text, false))
    else
      var k := current.value;
      var was := Strip(TextOf(es[k].data));
      if was == "" then Merged(es, k, map["text" := Text(text), "finished" := Bool(false)])
      else WithThought(Merged(es, k, map["text" := Text(was), "finished" := Bool(true)]), Thinking(id, text, false))
  }

  function AfterThought(es: seq<Elem>, text: string, id: string): seq<Elem> {
    var current := LastAt(es, Thinks);
    if current.None? then WithThought(es, Thinking(id, text, true))
    else Merged(es, current.value, map["text" := Text(text), "finished" := Bool(true)])
  }

  /** A text extends the last one, is dropped if the last one has it already, or starts an element of its own. */
  function AfterText(es: seq<Elem>, text: string, id: string): seq<Elem> {
    var last := LastAt(es, IsText);
    var was := if last.Some? then TextOf(es[last.value].data) else "";
    if text == "" || (last.Some? && text <= was) then es
    else if last.Some? && was <= text then es[last.value := Elem("markdown", es[last.value].id, map["text" := Text(text)])]
    else Joined(es) + [Elem("markdown", id, map["text" := Text(text)])]
  }

  function MarkdownBehind(es: seq<Elem>): seq<Elem> {
    Filter(es, NoText) + Filter(es, IsText)
  }

  /** What an event makes of the card in use; id is the name of the element it may add. */
  ghost predicate Becomes(es: seq<Elem>, e: Event, id: string, es': seq<Elem>)
    requires !e.RoundEnd?
  {
    match e
    case PreLlmCall => es' == if es == [] then [Thinking(id, "", false)] else es
    case ToolStart(name, args) => es' == Joined(es) + [Running(id, name, args)]
    case ToolEnd(name, _, _, _, _, _) =>
      var k := LastAt(es, x => RunsAs(x, name));
      if k.None? then es' == es else exists data :: Reports(data, e) && es' == Merged(es, k.value, data)
    case Reasoning(text) => es' == if Strip(text) == "" then es else AfterThought(es, text, id)
    case ReasoningDelta(text) => es' == if Strip(text) == "" then es else AfterDelta(es, text, id)
    case MarkdownUpdate(text) => es' == AfterText(es, Strip(text), id)
    case Markdown(text) => es' == MarkdownBehind(AfterText(es, Strip(text), id))
  }

  // ------------------------------------------------------------------- proofs

  lemma {:induction false} SameFilter(es: seq<Elem>, p: Elem -> bool, q: Elem -> bool)
    requires forall e <- es :: p(e) == q(e)
    ensures Filter(es, p) == Filter(es, q)
  {
    if es != [] {
      SameFilter(es[..|es| - 1], p, q);
    }
  }

  lemma {:induction false} LastAtIs(es: seq<Elem>, p: Elem -> bool, q: Elem -> bool)
    requires forall e <- es :: p(e) == q(e)
    ensures LastWhere(es, p) == if LastAt(es, q).Some? then Some(es[LastAt(es, q).value]) else None
  {
    if es != [] {
      LastAtIs(es[..|es| - 1], p, q);
    }
  }

  lemma MarkdownFilters(es: seq<Elem>)
    ensures Filter(es, IsText) == Filter(es, IsMarkdown)
    ensures Filter(es, NoText) == Filter(es, NotMarkdown)
  {
    SameFilter(es, IsText, IsMarkdown);
    SameFilter(es, NoText, NotMarkdown);
  }

  lemma ThoughtPlaced(es: seq<Elem>, id: string, text: string, finished: bool)
    ensures WithThought(es, Thinking(id, text, finished)) == Placed(RoomIn(es), Elem("reasoning", id, ThinkingData(text, finished)))
  {
    MarkdownFilters(Joined(es));
  }

  lemma ReportsResult(e: Event)
    requires e.ToolEnd?
    ensures Reports(ToolResult(e), e)
  {
    KeysDiffer();
  }

  lemma KeysDiffer()
    ensures Distinct(["name", "input", "status", "output", "error", "duration"])
  {
    assert |"name"| == 4 && |"input"| == 5 && |"status"| == 6 && |"output"| == 6 && |"error"| == 5 && |"duration"| == 8;
    assert "input"[0] == 'i' && "error"[0] == 'e' && "status"[0] == 's' && "output"[0] == 'o';
  }

  lemma ToolEndBecomes(h: Session, e: Event)
    requires Proper(h) && e.ToolEnd?
    ensures Becomes(h.elements, e, "", OnToolEnd(h, e).elements)
  {
    hide UpdateElement, Tidy, Attached, ToolResult, Reports, Strip;
    var p := (x: Elem) => IsRunningTool(x) && Says(x.data, "name", e.name);
    var q := (x: Elem) => RunsAs(x, e.name);
    LastAtIs(h.elements, p, q);
    if LastWhere(h.elements, p).Some? {
      var k := LastAt(h.elements, q).value;
      ReportsResult(e);
      UpdateAt(h, k, ToolResult(e));
    }
  }

  lemma ThoughtBecomes(h: Session, text: string)
    requires Proper(h) && Strip(text) != ""
    ensures OnReasoning(h, text).elements == AfterThought(h.elements, text, NextId("reasoning", h.seqNo + 1))
  {
    hide UpdateElement, AppendReasoning, Tidy, Attached, Strip, NextId, Placed, WithThought;
    PlainParts(text, true, "", Null);
    LastAtIs(h.elements, IsOpenReasoning, Thinks);
    if LastWhere(h.elements, IsOpenReasoning).Some? {
      UpdateAt(h, LastAt(h.elements, Thinks).value, ThinkingData(text, true));
    } else {
      AppendReasoningReady(h, ThinkingData(text, true));
      ThoughtPlaced(h.elements, NextId("reasoning", h.seqNo + 1), text, true);
    }
  }

  /** In a tidy list the last block is the one that thinks, if any does. */
  lemma ThinksIsLast(es: seq<Elem>)
    requires Tidy(es)
    ensures var last := LastWhere(es, IsReasoning);
            var k := LastAt(es, Thinks);
            && (k.Some? <==> last.Some? && !Finished(last.value.data))
            && (k.Some? ==> es[k.value] == last.value)
  {
    OpenIsLast(es);
    hide Tidy, Finished, TextOf;
    LastAtIs(es, IsOpenReasoning, Thinks);
    var last := LastWhere(es, IsReasoning);
    if last.Some? {
      var i := LastWhereAt(es, IsReasoning);
      assert es[i] in es;
      if LastAt(es, Thinks).Some? {
        assert LastAt(es, Thinks).value <= i;
      }
    }
  }

  lemma DeltaCases(h: Session, text: string)
    requires Proper(h) && Strip(text) != ""
    ensures var k := LastAt(h.elements, Thinks);
            OnReasoningDelta(h, text) ==
            if k.None? then AppendReasoning(h, ThinkingData(text, false))
            else
              var e := h.elements[k.value];
              if Strip(TextOf(e.data)) == "" then UpdateElement(h, e.id, ThinkingData(text, false))
              else AppendReasoning(UpdateElement(h, e.id, ThinkingData(Strip(TextOf(e.data)), true)), ThinkingData(text, false))
  {
    hide UpdateElement, AppendReasoning, Attached, Strip, Finished, TextOf, ThinkingData, Tidy;
    ThinksIsLast(h.elements);
    if LastAt(h.elements, Thinks).Some? {
      var k := LastAt(h.elements, Thinks).value;
      UpdateAt(h, k, map[]);
    }
  }

  lemma DeltaBecomes(h: Session, text: string)
    requires Proper(h) && Strip(text) != ""
    ensures OnReasoningDelta(h, text).elements == AfterDelta(h.elements, text, NextId("reasoning", h.seqNo + 1))
  {
    hide OnReasoningDelta, UpdateElement, AppendReasoning, Proper, Ready, Strip, TextOf, NextId, Placed, WithThought;
    PlainParts(text, false, "", Null);
    DeltaCases(h, text);
    ProperReady(h);
    var id := NextId("reasoning", h.seqNo + 1);
    var current := LastAt(h.elements, Thinks);
    if current.None? {
      AppendReasoningReady(h, ThinkingData(text, false));
      ThoughtPlaced(h.elements, id, text, false);
    } else if Strip(TextOf(h.elements[current.value].data)) == "" {
      UpdateAt(h, current.value, ThinkingData(text, false));
    } else {
      var e := h.elements[current.value];
      var ending := ThinkingData(Strip(TextOf(e.data)), true);
      UpdateAt(h, current.value, ending);
      var ended := UpdateElement(h, e.id, ending);
      AppendReasoningReady(ended, ThinkingData(text, false));
      ThoughtPlaced(ended.elements, id, text, false);
    }
  }

  lemma TextBecomes(h: Session, raw: string)
    requires Proper(h)
    ensures AppendOrMergeMarkdown(h, raw).elements == AfterText(h.elements, Strip(raw), NextId("markdown", h.seqNo + 1))
  {
    hide AppendOrMergeMarkdown, Tidy, Attached, Strip, NextId, TextOf;
    MarkdownMeaning(h, raw);
    ReadyDistinct(h);
    LastAtIs(h.elements, IsMarkdown, IsText);
    if LastAt(h.elements, IsText).Some? {
      var k := LastAt(h.elements, IsText).value;
      MirrorAt(h.elements, k, MarkdownData(Strip(raw)));
      StoredIs(h, k);
      PrefixBoth(TextOf(h.elements[k].data), Strip(raw));
    }
  }

  lemma StoredIs(h: Session, k: nat)
    requires Proper(h) && k < |h.elements| && IsMarkdown(h.elements[k])
    ensures h.elements[k].data == MarkdownData(TextOf(h.elements[k].data))
  {
    assert WellFormed(h.elements[k]);
  }

  lemma PrefixBoth(s: string, t: string)
    ensures s <= t && t <= s <==> s == t
  {
  }

  /** The type of the element the event may add. */
  function KindOf(e: Event): string {
    match e
    case PreLlmCall => "reasoning"
    case ToolStart(_, _) => "tool_card"
    case Reasoning(_) => "reasoning"
    case ReasoningDelta(_) => "reasoning"
    case Markdown(_) => "markdown"
    case MarkdownUpdate(_) => "markdown"
    case _ => ""
  }

  lemma EventBecomes(h: Session, e: Event)
    requires Proper(h) && !e.RoundEnd?
    ensures Becomes(h.elements, e, NextId(KindOf(e), h.seqNo + 1), OnEvent(h, e).elements)
  {
    hide AppendNew, Tidy, Attached, Ready, OnToolEnd, OnReasoning, OnReasoningDelta, AppendOrMergeMarkdown, ReorderMarkdownToEnd;
    hide Reports, Strip, AfterText, AfterDelta, AfterThought, Filter, NextId;
    match e {
      case PreLlmCall =>
        PlainParts("", false, "", Null);
        AppendNewKeeps(h, "reasoning", ThinkingData("", false));
        assert [] + [Thinking(NextId("reasoning", h.seqNo + 1), "", false)] == [Thinking(NextId("reasoning", h.seqNo + 1), "", false)];
      case ToolStart(name, args) => HermesEffects.ToolStarted(h, name, args);
      case ToolEnd(_, _, _, _, _, _) => ToolEndBecomes(h, e);
      case Reasoning(text) => if Strip(text) != "" { ThoughtBecomes(h, text); } else { NoThought(h, text); }
      case ReasoningDelta(text) => if Strip(text) != "" { DeltaBecomes(h, text); } else { NoThought(h, text); }
      case MarkdownUpdate(text) => TextBecomes(h, text);
      case Markdown(text) =>
        TextBecomes(h, text);
        FinalMarkdown(h, text);
        MarkdownFilters(AppendOrMergeMarkdown(h, text).elements);
    }
  }

  lemma NoThought(h: Session, text: string)
    requires Strip(text) == ""
    ensures OnReasoning(h, text) == h && OnReasoningDelta(h, text) == h
  {
    hide Strip;
  }

  // ---------------------------------------------------------------- whole runs

  /** The signal belongs to another turn than the last one that named its turn. */
  predicate OpensTurn(d: Desk, turn: string) {
    turn != "" && d.turn.Some? && d.turn.value != turn
  }

  /** The last turn these signals name. */
  function LastTurn(signals: seq<Signal>): Option<string> {
    if signals == [] then None
    else
      var s := signals[|signals| - 1];
      if s.Round? && s.turn != "" then Some(s.turn) else LastTurn(signals[..|signals| - 1])
  }

  lemma {:induction false} TurnIsLastNamed(signals: seq<Signal>, desks: seq<Desk>, i: nat)
    requires IsRun(signals, desks) && i <= |signals|
    ensures desks[i].turn == LastTurn(signals[..i])
  {
    if i > 0 {
      TurnIsLastNamed(signals, desks, i - 1);
      assert HermesDesk.StepAt(signals, desks, i - 1);
      assert signals[..i][..i - 1] == signals[..i - 1];
      hide OnEvent, OnInterrupt, OnPermissionCard, OnPermissionDecided, Finish;
    }
  }

  /** The elements an event of this turn finds: those of the card in use, none after a new turn. */
  function Found(d: Desk, turn: string): seq<Elem> {
    if OpensTurn(d, turn) then [] else Elements(d)
  }

  lemma TurnFinds(d: Desk, turn: string)
    requires Orderly(d)
    ensures Current(EnterTurn(d, turn)).elements == Found(d, turn)
  {
    hide Finish, Proper;
  }

  lemma EventStep(d: Desk, turn: string, e: Event)
    requires Orderly(d) && !e.RoundEnd?
    ensures var h := Current(EnterTurn(d, turn));
            var d' := Dispatch(d, Round(turn, e));
            && Becomes(Found(d, turn), e, NextId(KindOf(e), h.seqNo + 1), Elements(d'))
            && forall x <- Found(d, turn) :: x.id != NextId(KindOf(e), h.seqNo + 1)
  {
    hide Proper, OnEvent, EnterTurn, Becomes, NextId, Found;
    OrderlyParts(d);
    EnterTurnSteps(d, turn);
    TurnFinds(d, turn);
    CurrentProper(EnterTurn(d, turn));
    EventBecomes(Current(EnterTurn(d, turn)), e);
    FreshFor(Current(EnterTurn(d, turn)), KindOf(e));
  }

  lemma FreshFor(h: Session, kind: string)
    requires Proper(h)
    ensures forall x <- h.elements :: x.id != NextId(kind, h.seqNo + 1)
  {
    hide NextId, Attached, Tidy;
    if h.elements != [] {
      OpenFresh(h, h.cardMsgId.value, kind);
      HasIdIffInIds(h.elements, NextId(kind, h.seqNo + 1));
      forall x | x in h.elements ensures x.id in Ids(h.elements) {
        var k :| 0 <= k < |h.elements| && h.elements[k] == x;
        assert Ids(h.elements)[k] == x.id;
      }
    }
  }

  /**
   * Over any run, every event of a round does to the card in use what the list
   * functions say, with an id that is new to it. By ServerCardIsShadow the
   * store then holds that list.
   */
  lemma EventsAreListSteps(signals: seq<Signal>, desks: seq<Desk>, i: nat) returns (id: string)
    requires IsRun(signals, desks) && i < |signals| && signals[i].Round? && !signals[i].event.RoundEnd?
    ensures Becomes(Found(desks[i], signals[i].turn), signals[i].event, id, Elements(desks[i + 1]))
    ensures forall e <- Found(desks[i], signals[i].turn) :: e.id != id
  {
    hide Dispatch, Orderly, Becomes, EnterTurn, NextId;
    RunOrderly(signals, desks, i);
    assert HermesDesk.StepAt(signals, desks, i);
    EventStep(desks[i], signals[i].turn, signals[i].event);
    id := NextId(KindOf(signals[i].event), Current(EnterTurn(desks[i], signals[i].turn)).seqNo + 1);
  }
}
