// The Hermes plugin's AggregateSession as functions: its shadow of the current
// card, the SDK card object under it, and what every event does to both. The
// plugin's io is modelled for calls that are delivered, so that a new message
// in the store is a new card of the session.

module HermesSpec {
  import opened Prelude
  import opened CardContent
  import opened ElementIds
  import opened Wire
  import opened CardSpec
  import opened Reorder

  const OPTIONS := Options(true, true, true)

  datatype Session = Session(
    s: Sys,
    elements: seq<Elem>,
    seqNo: nat,
    finalized: bool,
    finishedCard: Option<nat>,
    cardMsgId: Option<nat>,
    elementCards: map<string, nat>)

  function NewSession(w: World): Session {
    Session(Sys(NewClient, w), [], 0, false, None, None, map[])
  }

  // ---------------------------------------------------------------- strings

  /** The characters str.strip() removes. */
  predicate IsSpace(c: char) {
    || '\t' <= c <= '\r' || '\U{1C}' <= c <= ' '
    || c == '\U{85}' || c == '\U{A0}' || c == '\U{1680}' || '\U{2000}' <= c <= '\U{200A}'
    || c == '\U{2028}' || c == '\U{2029}' || c == '\U{202F}' || c == '\U{205F}' || c == '\U{3000}'
  }

  function StripLeft(s: string): string {
    if s != "" && IsSpace(s[0]) then StripLeft(s[1..]) else s
  }

  function StripRight(s: string): string {
    if s != "" && IsSpace(s[|s| - 1]) then StripRight(s[..|s| - 1]) else s
  }

  function Strip(s: string): string {
    StripRight(StripLeft(s))
  }

  // ---------------------------------------------------------------- elements

  function NextId(kind: string, n: nat): string {
    kind + "_" + Decimal(n)
  }

  function TextOf(data: Data): string {
    if "text" in data && data["text"].Text? then data["text"].s else ""
  }

  predicate Blank(data: Data) {
    Strip(TextOf(data)) == ""
  }

  /** The finished field is there and is false. */
  predicate Unfinished(data: Data) {
    "finished" in data && data["finished"] == Bool(false)
  }

  predicate Truthy(v: Json) {
    match v
    case Null => false
    case Bool(b) => b
    case Num(n) => n != 0
    case Text(s) => s != ""
    case Arr(items) => items != []
    case Obj(fields) => fields != map[]
  }

  /** The finished field is there and counts as true. */
  predicate Finished(data: Data) {
    "finished" in data && Truthy(data["finished"])
  }

  predicate Says(data: Data, key: string, text: string) {
    key in data && data[key] == Text(text)
  }

  predicate IsMarkdown(e: Elem) {
    e.kind == "markdown"
  }

  predicate NotMarkdown(e: Elem) {
    !IsMarkdown(e)
  }

  predicate IsReasoning(e: Elem) {
    e.kind == "reasoning"
  }

  predicate IsOpenReasoning(e: Elem) {
    IsReasoning(e) && Unfinished(e.data)
  }

  predicate IsRunningTool(e: Elem) {
    e.kind == "tool_card" && Says(e.data, "status", "running")
  }

  /** The last element that satisfies p. */
  function LastWhere(es: seq<Elem>, p: Elem -> bool): (r: Option<Elem>)
    ensures r.Some? ==> r.value in es && p(r.value)
    ensures r.None? ==> forall e <- es :: !p(e)
  {
    if es == [] then None
    else if p(es[|es| - 1]) then Some(es[|es| - 1])
    else LastWhere(es[..|es| - 1], p)
  }

  function Filter(es: seq<Elem>, p: Elem -> bool): (r: seq<Elem>)
    ensures forall e :: e in r <==> e in es && p(e)
  {
    if es == [] then []
    else
      var rest := Filter(es[..|es| - 1], p);
      if p(es[|es| - 1]) then rest + [es[|es| - 1]] else rest
  }

  /** The list with data merged over the data of every element called id. */
  function MergeData(es: seq<Elem>, id: string, data: Data): (r: seq<Elem>)
    ensures |r| == |es|
    ensures forall i :: 0 <= i < |es| ==> r[i] == if es[i].id == id then es[i].(data := es[i].data + data) else es[i]
  {
    seq(|es|, i requires 0 <= i < |es| => if es[i].id == id then es[i].(data := es[i].data + data) else es[i])
  }

  // --------------------------------------------------------------- primitives

  /** The last card the store was given, if a call has made one. */
  function LastCard(h: Session, w: World): Option<nat> {
    if |w.messages| > |h.s.w.messages| then Some(|w.messages| - 1) else h.cardMsgId
  }

  /** io.patch around the SDK; without a card it raises before anything is sent. */
  function DirectPatch(h: Session, target: Option<nat>, op: Op): Session {
    if target.None? then h else h.(s := h.s.(w := Send(h.s.w, target, Delta(op)).w))
  }

  function UpdateElement(h: Session, id: string, data: Data): Session {
    if h.finalized then h
    else
      var r := UpdateCall(OPTIONS, h.s, id, data);
      h.(s := r.s, elements := if r.ok then MergeData(h.elements, id, data) else h.elements)
  }

  function PlaceElement(h: Session, elem: Elem): Session {
    var r := AppendCall(OPTIONS, h.s, elem.kind, elem.data["element_id" := Text(elem.id)]).s;
    var anew := |r.w.messages| != |h.s.w.messages|;
    var kept := if anew then [] else h.elements;
    var card := LastCard(h, r.w);
    h.(s := r, cardMsgId := card,
       elementCards := if HasId(kept, elem.id) || card.None? then h.elementCards else h.elementCards[elem.id := card.value],
       elements := if HasId(kept, elem.id) then MirrorElem(kept, elem) else kept + [elem])
  }

  function AppendElement(h: Session, kind: string, data: Data, id: string): Session {
    if h.finalized then h
    else
      var full := !HasId(h.elements, id) && |h.elements| >= MAX_ELEMENTS;
      PlaceElement(if full then Settle(h) else h, Elem(kind, id, data))
  }

  function AppendNew(h: Session, kind: string, data: Data): Session {
    AppendElement(h.(seqNo := h.seqNo + 1), kind, data, NextId(kind, h.seqNo + 1))
  }

  // ------------------------------------------------------------------- settle

  const INTERRUPTED: Data := map["status" := Text("error"), "error" := Text("interrupted")]

  function SettleOne(h: Session, e: Elem): Session {
    if IsOpenReasoning(e) then
      if Blank(e.data) then
        var owner := if e.id in h.elementCards then Some(h.elementCards[e.id]) else h.cardMsgId;
        DirectPatch(h, owner, Remove(e.id)).(elements := Without(h.elements, e.id))
      else UpdateElement(h, e.id, e.data["finished" := Bool(true)])
    else if IsRunningTool(e) then UpdateElement(h, e.id, e.data + INTERRUPTED)
    else h
  }

  function SettleAll(h: Session, es: seq<Elem>): Session {
    if es == [] then h else SettleOne(SettleAll(h, es[..|es| - 1]), es[|es| - 1])
  }

  function Settle(h: Session): Session {
    SettleAll(h, h.elements)
  }

  // ----------------------------------------------------------------- markdown

  function MarkdownData(text: string): Data {
    map["text" := Text(text)]
  }

  function AppendOrMergeMarkdown(h: Session, raw: string): Session {
    var text := Strip(raw);
    if h.finalized || text == "" then h
    else
      var last := LastWhere(h.elements, IsMarkdown);
      var lastText := if last.None? then "" else Strip(TextOf(last.value.data));
      if last.Some? && last.value.id != "" && lastText != "" && lastText <= text && text != lastText
      then AppendElement(h, "markdown", MarkdownData(text), last.value.id)
      else if last.Some? && last.value.id != "" && lastText != "" && text <= lastText then h
      else AppendNew(h, "markdown", MarkdownData(text))
  }

  // ------------------------------------------------------------------ reorder

  function ReorderTo(h: Session, order: seq<string>): Session {
    DirectPatch(h, h.cardMsgId, Op.Reorder(order)).(elements := SortByRank(h.elements, order))
  }

  function MarkdownLast(es: seq<Elem>): seq<Elem> {
    Filter(es, NotMarkdown) + Filter(es, IsMarkdown)
  }

  function ReorderMarkdownToEnd(h: Session): Session {
    var order := Ids(MarkdownLast(h.elements));
    if h.finalized || Filter(h.elements, IsMarkdown) == [] || order == Ids(h.elements) then h
    else ReorderTo(h, order)
  }

  function ReasoningOrder(es: seq<Elem>, id: string): seq<string> {
    var others := Without(es, id);
    Ids(Filter(others, NotMarkdown)) + [id] + Ids(Filter(others, IsMarkdown))
  }

  function ReorderReasoning(h: Session, id: string): Session {
    if h.finalized || !HasId(h.elements, id) then h else ReorderTo(h, ReasoningOrder(h.elements, id))
  }

  /** A new reasoning element, moved in front of the markdown. */
  function AppendReasoning(h: Session, data: Data): Session {
    ReorderReasoning(AppendNew(h, "reasoning", data), NextId("reasoning", h.seqNo + 1))
  }

  // ------------------------------------------------------------------- finish

  function CloseCard(h: Session, footer: Data): Session {
    var r := FinishCall(OPTIONS, h.s, footer).s;
    h.(s := r, cardMsgId := LastCard(h, r.w))
  }

  predicate OnlyFooters(es: seq<Elem>) {
    forall e <- es :: e.kind == "footer"
  }

  function RecallIfEmpty(h: Session): Session {
    if h.cardMsgId.Some? && OnlyFooters(h.elements) then h.(s := h.s.(w := Recall(h.s.w, h.cardMsgId).w)) else h
  }

  function Finish(h: Session, footer: Data): Session {
    if h.finalized then h
    else
      var h1 := h.(finalized := true);
      if h1.cardMsgId.Some? && h1.finishedCard == h1.cardMsgId then h1
      else
        var h2 := RecallIfEmpty(CloseCard(Settle(h1), footer));
        h2.(finishedCard := if h2.cardMsgId.Some? then h2.cardMsgId else h2.finishedCard)
  }

  function ResetForNewCard(h: Session): Session {
    h.(finalized := false, elements := [])
  }

  // ------------------------------------------------------------------- events

  datatype Event =
    | PreLlmCall
    | ToolStart(name: string, args: Json)
    | ToolEnd(name: string, args: Json, failed: bool, output: Option<Json>, error: Option<Json>, duration: Option<Json>)
    | Reasoning(text: string)
    | ReasoningDelta(text: string)
    | Markdown(text: string)
    | MarkdownUpdate(text: string)
    | RoundEnd(reason: string, stopped: bool, model: Option<Json>, mode: Option<Json>, tokens: Option<Json>, duration: Option<Json>)

  function ThinkingData(text: string, finished: bool): Data {
    map["text" := Text(text), "finished" := Bool(finished)]
  }

  function ToolData(name: string, args: Json): Data {
    map["name" := Text(name), "input" := args, "status" := Text("running")]
  }

  function Opt(key: string, v: Option<Json>): Data {
    if v.Some? then map[key := v.value] else map[]
  }

  function ToolResult(e: Event): Data
    requires e.ToolEnd?
  {
    map["name" := Text(e.name), "input" := e.args, "status" := Text(if e.failed then "error" else "completed")]
    + Opt("output", e.output) + Opt("error", e.error) + Opt("duration", e.duration)
  }

  function FooterOf(e: Event): Data
    requires e.RoundEnd?
  {
    map["reason" := Text(e.reason), "finished" := Bool(true)]
    + Opt("stopped", if e.stopped then Some(Bool(true)) else None)
    + Opt("model", e.model) + Opt("mode", e.mode) + Opt("tokens", e.tokens) + Opt("duration", e.duration)
  }

  function OnToolEnd(h: Session, e: Event): Session
    requires e.ToolEnd?
  {
    var tool := LastWhere(h.elements, x => IsRunningTool(x) && Says(x.data, "name", e.name));
    if tool.None? || tool.value.id == "" then h else UpdateElement(h, tool.value.id, ToolResult(e))
  }

  function OnReasoning(h: Session, text: string): Session {
    if Strip(text) == "" then h
    else
      var current := LastWhere(h.elements, IsOpenReasoning);
      if current.Some? && current.value.id != "" then UpdateElement(h, current.value.id, ThinkingData(text, true))
      else AppendReasoning(h, ThinkingData(text, true))
  }

  function OnReasoningDelta(h: Session, text: string): Session {
    if Strip(text) == "" then h
    else
      var last := LastWhere(h.elements, IsReasoning);
      if last.Some? && last.value.id != "" && !Finished(last.value.data) then
        if Blank(last.value.data) then UpdateElement(h, last.value.id, ThinkingData(text, false))
        else
          var ended := UpdateElement(h, last.value.id, ThinkingData(Strip(TextOf(last.value.data)), true));
          AppendReasoning(ended, ThinkingData(text, false))
      else AppendReasoning(h, ThinkingData(text, false))
  }

  function OnEvent(h: Session, e: Event): Session {
    match e
    case PreLlmCall => if h.elements == [] then AppendNew(h, "reasoning", ThinkingData("", false)) else h
    case ToolStart(name, args) => AppendNew(h, "tool_card", ToolData(name, args))
    case ToolEnd(_, _, _, _, _, _) => OnToolEnd(h, e)
    case Reasoning(text) => OnReasoning(h, text)
    case ReasoningDelta(text) => OnReasoningDelta(h, text)
    case Markdown(text) => ReorderMarkdownToEnd(AppendOrMergeMarkdown(h, text))
    case MarkdownUpdate(text) => AppendOrMergeMarkdown(h, text)
    case RoundEnd(_, _, _, _, _, _) => Finish(h, FooterOf(e))
  }

  // ---------------------------------------------- interrupts and permissions

  function FailTools(h: Session, es: seq<Elem>): Session {
    if es == [] then h
    else
      var before, e := FailTools(h, es[..|es| - 1]), es[|es| - 1];
      if IsRunningTool(e) then UpdateElement(before, e.id, e.data + INTERRUPTED) else before
  }

  const INTERRUPT: Data := map["reason" := Text("interrupt"), "finished" := Bool(true)]

  function OnInterrupt(h: Session): Session {
    ResetForNewCard(Finish(FailTools(h, h.elements), INTERRUPT))
  }

  function PermissionData(request: string, action: Json, resources: Json, title: Json): Data {
    map["oc_request_id" := Text(request), "action" := action, "resources" := resources,
        "status" := Text("pending"), "title" := title]
  }

  /** The approval joins the card, and the card rings. */
  function OnPermissionCard(h: Session, request: string, action: Json, resources: Json, title: Json): Session {
    var asked := AppendNew(h, "permission_card", PermissionData(request, action, resources, title));
    DirectPatch(asked, asked.cardMsgId, SetSilent(Some(false)))
  }

  predicate IsPending(e: Elem, request: string) {
    e.kind == "permission_card" && Says(e.data, "oc_request_id", request) && Says(e.data, "status", "pending")
  }

  function PermissionStatus(decision: string): string {
    if decision == "allow_once" || decision == "allow_always" || decision == "once" || decision == "always"
    then "approved" else "denied"
  }

  function DecisionData(request: string, decision: string): Data {
    map["oc_request_id" := Text(request), "status" := Text(PermissionStatus(decision)), "result" := Text(decision)]
  }

  /** The decision on an approval of the current card: recorded, and the card falls silent again. */
  function OnPermissionDecided(h: Session, request: string, decision: string): Session {
    var asked := LastWhere(h.elements, e => IsPending(e, request));
    if request == "" || asked.None? || asked.value.id == "" then h
    else
      var id := asked.value.id;
      var r := UpdateCall(OPTIONS, h.s, id, DecisionData(request, decision));
      var h1 := UpdateElement(h, id, DecisionData(request, decision));
      if h.finalized || !r.ok then h1
      else DirectPatch(h1, if id in h1.elementCards then Some(h1.elementCards[id]) else h1.cardMsgId, SetSilent(Some(true)))
  }

  /** The current card has an element that waits for the decision. */
  predicate HasQuestion(h: Session, request: string) {
    var asked := LastWhere(h.elements, e => IsPending(e, request));
    request != "" && asked.Some? && asked.value.id != ""
  }

  /** Its update and the silencing have both been accepted. */
  predicate DecisionLands(h: Session, request: string, decision: string) {
    && HasQuestion(h, request) && !h.finalized
    && var id := LastWhere(h.elements, e => IsPending(e, request)).value.id;
       var h1 := UpdateElement(h, id, DecisionData(request, decision));
       var owner := if id in h1.elementCards then Some(h1.elementCards[id]) else h1.cardMsgId;
       UpdateCall(OPTIONS, h.s, id, DecisionData(request, decision)).ok
       && owner.Some? && Send(h1.s.w, owner, Delta(SetSilent(Some(true)))).ok
  }

  // ----------------------------------------------------------------- dispatch

  datatype Signal =
    | Round(turn: string, event: Event)
    | Interrupt
    | PermissionCard(request: string, action: Json, resources: Json, title: Json)
    | PermissionDecided(request: string, decision: string)

  /** Where the element of an approval is. */
  datatype Place = Place(card: nat, id: string)

  /**
   * One conversation's registry: the session in use, the last turn id, the
   * store the session works on, and where the approvals asked for and not yet
   * decided are, whatever has become of their session.
   */
  datatype Desk = Desk(session: Option<Session>, turn: Option<string>, w: World, asked: map<string, Place>)

  const NewDesk: Desk := Desk(None, None, NewWorld([]), map[])

  function Active(d: Desk): bool {
    d.session.Some? && !d.session.value.finalized
  }

  predicate IsNewTurn(d: Desk, turn: string) {
    turn != "" && d.turn.Some? && d.turn.value != turn
  }

  function Using(d: Desk, h: Session): Desk {
    d.(session := Some(h), w := h.s.w)
  }

  /** A new turn finishes what the old one left open and gives its session up. */
  function EnterTurn(d: Desk, turn: string): Desk {
    var left := if !IsNewTurn(d, turn) then d
                else if d.session.None? then d
                else d.(session := None, w := Finish(d.session.value, INTERRUPT).s.w);
    left.(turn := if turn == "" then d.turn else Some(turn))
  }

  function Current(d: Desk): Session {
    if d.session.Some? then d.session.value else NewSession(d.w)
  }

  /** An approval without a request id, or without a card, is not remembered. */
  function Remembered(d: Desk, request: string, card: Option<nat>, id: string): Desk {
    if request == "" || card.None? then d else d.(asked := d.asked[request := Place(card.value, id)])
  }

  /** The place is forgotten once the decision has got there. */
  function Forgotten(d: Desk, request: string, landed: bool): Desk {
    if landed then d.(asked := d.asked - {request}) else d
  }

  /** A decision on an approval that is not waiting on the current card goes straight to the message it was put on. */
  function DecideThere(d: Desk, request: string, decision: string): Desk {
    if request !in d.asked then d
    else
      var place := d.asked[request];
      var updated := Send(d.w, Some(place.card), Delta(Update(place.id, Some(DecisionData(request, decision)))));
      var silenced := Send(updated.w, Some(place.card), Delta(SetSilent(Some(true))));
      Forgotten(OverStore(d, silenced.w), request, updated.ok && silenced.ok)
  }

  /** The same sessions over another store. */
  function OverStore(d: Desk, w: World): Desk {
    d.(w := w, session := if d.session.None? then None else Some(d.session.value.(s := d.session.value.s.(w := w))))
  }

  function Dispatch(d: Desk, signal: Signal): Desk {
    match signal
    case Round(turn, event) =>
      var d1 := EnterTurn(d, turn);
      var h := OnEvent(Current(d1), event);
      if event.RoundEnd? then d1.(session := None, w := h.s.w) else Using(d1, h)
    case Interrupt =>
      if Active(d) then Using(d, OnInterrupt(d.session.value)) else d
    case PermissionCard(request, action, resources, title) =>
      if !Active(d) then d
      else
        var h := OnPermissionCard(d.session.value, request, action, resources, title);
        Remembered(Using(d, h), request, h.cardMsgId, NextId("permission_card", d.session.value.seqNo + 1))
    case PermissionDecided(request, decision) =>
      if request == "" then d
      else if Active(d) && HasQuestion(d.session.value, request) then
        Forgotten(Using(d, OnPermissionDecided(d.session.value, request, decision)), request,
                  DecisionLands(d.session.value, request, decision))
      else DecideThere(d, request, decision)
  }

  function RunSignals(d: Desk, signals: seq<Signal>): Desk {
    if signals == [] then d else Dispatch(RunSignals(d, signals[..|signals| - 1]), signals[|signals| - 1])
  }
}
