// The aggregate-card state machine as functions: what each call leaves behind
// in the card object and in the store. AggregateCard.dfy proves the class
// against these; the Card*.dfy files prove what they promise.

module CardSpec {
  import opened Prelude
  import opened CardContent
  import opened ElementIds
  import opened Wire

  const MAX_ELEMENTS := 20

  datatype Options = Options(selfHeal: bool, recallEmpty: bool, canRecall: bool)

  /** The cached card creation: none started, resolved, or rejected. */
  datatype Inflight = NoFlight | Landed | Crashed

  datatype Client = Client(
    messageId: Option<nat>,
    inflight: Inflight,
    cardIds: map<string, nat>,
    pending: map<string, Data>,
    failures: nat,
    isSealed: bool,
    mirror: seq<Elem>,
    segmentIndex: nat,
    segment: Option<string>,
    state: string,
    footerSeq: nat,
    idSeq: nat)

  datatype Sys = Sys(c: Client, w: World)

  /** A call either returns (ok) or throws. */
  datatype Run = Run(s: Sys, ok: bool)

  const NewClient: Client :=
    Client(None, NoFlight, map[], map[], 0, false, [], 0, None, "generating", 0, 0)

  function NewSys(faults: seq<Outcome>): Sys {
    Sys(NewClient, NewWorld(faults))
  }

  /** A footer request or element data is an object; these keys never reach the element. */
  const ENVELOPE_KEYS: set<string> := {"element_id", "type"}

  function ExplicitId(data: Data): Option<string> {
    if "element_id" in data && data["element_id"].Text? then Some(data["element_id"].s) else None
  }

  // ---------------------------------------------------------- local steps

  /** The failure count is the one field a new round does not clear. */
  function ResetRound(c: Client): Client {
    NewClient.(failures := c.failures)
  }

  /** The list with new data for every element called id. */
  function MirrorData(es: seq<Elem>, id: string, data: Data): (r: seq<Elem>)
    ensures |r| == |es|
    ensures forall i :: 0 <= i < |es| ==> r[i] == if es[i].id == id then es[i].(data := data) else es[i]
  {
    seq(|es|, i requires 0 <= i < |es| => if es[i].id == id then es[i].(data := data) else es[i])
  }

  /** The list with every element of elem's id replaced by elem. */
  function MirrorElem(es: seq<Elem>, elem: Elem): (r: seq<Elem>)
    ensures |r| == |es|
    ensures forall i :: 0 <= i < |es| ==> r[i] == if es[i].id == elem.id then elem else es[i]
  {
    seq(|es|, i requires 0 <= i < |es| => if es[i].id == elem.id then elem else es[i])
  }

  function PendingOr(c: Client, id: string): Data {
    if id in c.pending then c.pending[id] else map[]
  }

  function Buffer(c: Client, id: string, data: Data): Client {
    c.(pending := c.pending[id := PendingOr(c, id) + data])
  }

  /** What a full replace sends: the shadow, with no silent key. */
  function ShadowCard(c: Client): Card {
    Card(c.mirror, c.state, c.segment, None)
  }

  /** After a full replace an append is already there, so it is retried as an update. */
  function RetryOp(op: Op): Op {
    if op.Append? && op.element.Some? then Update(op.element.value.id, Some(op.element.value.data)) else op
  }

  // --------------------------------------------------------------- patching

  function TryPatch(o: Options, s: Sys, op: Op): Run {
    var first := Send(s.w, s.c.messageId, Delta(op));
    if first.ok then Run(Sys(s.c.(failures := 0), first.w), true)
    else
      var c := s.c.(failures := s.c.failures + 1);
      if !(o.selfHeal && c.failures >= 3) then Run(Sys(c, first.w), false)
      else
        var healed := Send(first.w, c.messageId, Replace(ShadowCard(c)));
        if !healed.ok then Run(Sys(c, healed.w), false)
        else
          var retry := Send(healed.w, c.messageId, Delta(RetryOp(op)));
          if !retry.ok then Run(Sys(c, retry.w), false)
          else Run(Sys(c.(failures := 0), retry.w), true)
  }

  /** Of the card object a tryPatch changes the failure count only. */
  lemma TryPatchFields(o: Options, s: Sys, op: Op)
    ensures TryPatch(o, s, op).s.c == s.c.(failures := TryPatch(o, s, op).s.c.failures)
  {
    hide Send;
  }

  // --------------------------------------------------------------- creation

  function CreateCard(s: Sys): Run {
    var segment := if s.c.segmentIndex > 0 then Some("last") else None;
    var sent := SendCard(s.w, segment);
    if !sent.ok then Run(Sys(s.c, sent.w), false)
    else Run(Sys(s.c.(messageId := Some(|s.w.messages|), state := "generating", segment := segment), sent.w), true)
  }

  function EnsureCard(s: Sys): Run {
    var c := if s.c.isSealed then ResetRound(s.c) else s.c;
    if c.messageId.Some? then Run(s.(c := c), true)
    else if c.inflight != NoFlight then Run(s.(c := c), c.inflight.Landed?)
    else
      var made := CreateCard(s.(c := c));
      Run(made.s.(c := made.s.c.(inflight := if made.ok then Landed else Crashed)), made.ok)
  }

  function SealIntermediate(o: Options, s: Sys): Run {
    if s.c.messageId.None? then Run(s, true)
    else
      var segment := if s.c.segmentIndex == 0 then "first" else "middle";
      var s0 := s.(c := s.c.(segment := Some(segment), state := "done"));
      var done := TryPatch(o, s0, SetState("done"));
      if !done.ok then done
      else
        var marked := TryPatch(o, done.s, SetSegment(segment));
        if !marked.ok then marked
        else Run(marked.s.(c := marked.s.c.(messageId := None, inflight := NoFlight, mirror := [], segment := None)), true)
  }

  // ----------------------------------------------------------------- append

  /** A full card is closed and left before a new element goes in; otherwise nothing happens. */
  function MakeRoom(o: Options, s: Sys, existed: bool): Run {
    if existed || |s.c.mirror| < MAX_ELEMENTS then Run(s, true)
    else
      var left := SealIntermediate(o, s);
      if !left.ok then left
      else Run(left.s.(c := left.s.c.(segmentIndex := left.s.c.segmentIndex + 1)), true)
  }

  function CreateIfNone(s: Sys): Run {
    if s.c.messageId.None? then CreateCard(s) else Run(s, true)
  }

  /** Settle which card the element goes to. */
  function EnterCard(o: Options, s: Sys, existed: bool): Run {
    var room := MakeRoom(o, s, existed);
    if !room.ok then room else CreateIfNone(room.s)
  }

  function Shadow(c: Client, elem: Elem, existed: bool, card: nat): Client {
    if existed then c.(mirror := MirrorElem(c.mirror, elem))
    else c.(mirror := c.mirror + [elem], cardIds := c.cardIds[elem.id := card])
  }

  /** Updates that arrived before the element are merged over its data and sent once. */
  function FlushPending(o: Options, s: Sys, elem: Elem): Run {
    if elem.id !in s.c.pending then Run(s, true)
    else
      var merged := elem.data + s.c.pending[elem.id];
      var c := s.c.(pending := s.c.pending - {elem.id}, mirror := MirrorData(s.c.mirror, elem.id, merged));
      TryPatch(o, s.(c := c), Update(elem.id, Some(merged)))
  }

  /** The queued job of append. */
  function AppendJob(o: Options, s: Sys, elem: Elem): Run {
    var existed := HasId(s.c.mirror, elem.id);
    var carded := EnterCard(o, s, existed);
    if !carded.ok || carded.s.c.messageId.None? then carded
    else
      var s1 := carded.s.(c := Shadow(carded.s.c, elem, existed, carded.s.c.messageId.value));
      var sent := TryPatch(o, s1, if existed then Update(elem.id, Some(elem.data)) else Append(Some(elem)));
      if !sent.ok then sent else FlushPending(o, sent.s, elem)
  }

  /** The element an append call stands for, once the card is ensured. */
  function NewElem(c: Client, kind: string, data: Data): Elem {
    var id := if ExplicitId(data).Some? then ExplicitId(data).value else ElementId(kind, c.idSeq + 1);
    Elem(kind, id, data - ENVELOPE_KEYS)
  }

  /** Only a generated id uses up a number. */
  function TakeId(c: Client, data: Data): Client {
    if ExplicitId(data).Some? then c else c.(idSeq := c.idSeq + 1)
  }

  function AppendCall(o: Options, s: Sys, kind: string, data: Data): Run {
    var ensured := EnsureCard(s);
    if !ensured.ok then ensured
    else
      var elem := NewElem(ensured.s.c, kind, data);
      AppendJob(o, ensured.s.(c := TakeId(ensured.s.c, data)), elem)
  }

  // ----------------------------------------------------------------- update

  function UpdateCall(o: Options, s: Sys, id: string, data: Data): Run {
    if s.c.isSealed then Run(s.(c := Buffer(s.c, id, data)), true)
    else if HasId(s.c.mirror, id) then
      var merged := s.c.mirror[IndexOf(s.c.mirror, id)].data + data;
      TryPatch(o, s.(c := s.c.(mirror := MirrorData(s.c.mirror, id, merged))), Update(id, Some(merged)))
    else if id in s.c.cardIds && Some(s.c.cardIds[id]) != s.c.messageId then
      var sent := Send(s.w, Some(s.c.cardIds[id]), Delta(Update(id, Some(data))));
      Run(s.(w := sent.w), sent.ok)
    else Run(s.(c := Buffer(s.c, id, data)), true)
  }

  // ----------------------------------------------------------------- finish

  function FooterData(footer: Data): Data {
    (footer - {"durationMs"})["finished" := Bool(true)]
    + if "durationMs" in footer then map["duration" := footer["durationMs"]] else map[]
  }

  function RecallEmptyCard(o: Options, c: Client): bool {
    o.recallEmpty && c.cardIds == map[]
  }

  /** Finishing a card that never took an element: recall it, or settle it silently. */
  function FinishEmpty(o: Options, s: Sys): Run {
    if o.canRecall then
      var gone := Recall(s.w, s.c.messageId);
      if !gone.ok then Run(s.(w := gone.w), false)
      else Run(Sys(s.c.(isSealed := true), gone.w), true)
    else
      var done := TryPatch(o, s.(c := s.c.(state := "done")), SetState("done"));
      if !done.ok then done else Run(done.s.(c := done.s.c.(isSealed := true)), true)
  }

  function FinishFull(o: Options, s: Sys, footer: Data): Run {
    var k := s.c.footerSeq + 1;
    var elem := Elem("footer", FooterId(k), FooterData(footer));
    var c1 := s.c.(footerSeq := k, mirror := s.c.mirror + [elem]);
    var added := TryPatch(o, s.(c := c1), Append(Some(elem)));
    if !added.ok then added
    else
      var done := TryPatch(o, added.s.(c := added.s.c.(state := "done")), SetState("done"));
      if !done.ok then done
      else
        var rung := TryPatch(o, done.s, SetSilent(Some(false)));
        if !rung.ok then rung else Run(rung.s.(c := rung.s.c.(isSealed := true)), true)
  }

  function FinishCall(o: Options, s: Sys, footer: Data): Run {
    if s.c.isSealed then Run(s, true)
    else
      var ensured := EnsureCard(s);
      if !ensured.ok || ensured.s.c.messageId.None? then ensured
      else if RecallEmptyCard(o, ensured.s.c) then FinishEmpty(o, ensured.s)
      else FinishFull(o, ensured.s, footer)
  }

  const INTERRUPT_FOOTER: Data := map["reason" := Text("interrupt")]

  // ------------------------------------------------------------------- runs

  datatype Call =
    | AppendOf(kind: string, data: Data)
    | UpdateOf(id: string, patch: Data)
    | FinishOf(footer: Data)
    | InterruptOf

  predicate Finishes(call: Call) {
    call.FinishOf? || call.InterruptOf?
  }

  /** The calls that make sure there is a card. */
  predicate Starts(call: Call) {
    call.AppendOf? || Finishes(call)
  }

  function Perform(o: Options, s: Sys, call: Call): Run {
    match call
    case AppendOf(kind, data) => AppendCall(o, s, kind, data)
    case UpdateOf(id, data) => UpdateCall(o, s, id, data)
    case FinishOf(footer) => FinishCall(o, s, footer)
    case InterruptOf => FinishCall(o, s, INTERRUPT_FOOTER)
  }

  /** Calls awaited one after the other; the caller goes on after a failed one. */
  function RunAll(o: Options, s: Sys, calls: seq<Call>): Sys {
    if calls == [] then s
    else Perform(o, RunAll(o, s, calls[..|calls| - 1]), calls[|calls| - 1]).s
  }

  /** A run written down: the states before, between and after the calls, and which calls returned. */
  datatype Trace = Trace(calls: seq<Call>, states: seq<Sys>, oks: seq<bool>)

  ghost predicate StepAt(o: Options, t: Trace, i: nat)
    requires i < |t.calls| == |t.oks| && |t.states| == |t.calls| + 1
  {
    Perform(o, t.states[i], t.calls[i]) == Run(t.states[i + 1], t.oks[i])
  }

  ghost predicate IsTrace(o: Options, s: Sys, t: Trace) {
    && |t.oks| == |t.calls| && |t.states| == |t.calls| + 1
    && t.states[0] == s
    && forall i: nat :: i < |t.calls| ==> StepAt(o, t, i)
  }

  /** Every list of calls has its trace, and it ends where RunAll does. */
  lemma {:induction false} TraceOf(o: Options, s: Sys, calls: seq<Call>) returns (t: Trace)
    ensures IsTrace(o, s, t) && t.calls == calls && t.states[|calls|] == RunAll(o, s, calls)
  {
    hide Perform;
    if calls == [] {
      t := Trace([], [s], []);
    } else {
      var n := |calls| - 1;
      var before := TraceOf(o, s, calls[..n]);
      var r := Perform(o, before.states[n], calls[n]);
      t := Trace(calls, before.states + [r.s], before.oks + [r.ok]);
      forall i: nat | i < |calls| ensures StepAt(o, t, i) {
        assert i < n ==> StepAt(o, before, i);
      }
    }
  }

  lemma {:induction false} TraceIsRun(o: Options, s: Sys, t: Trace, i: nat)
    requires IsTrace(o, s, t) && i <= |t.calls|
    ensures t.states[i] == RunAll(o, s, t.calls[..i])
  {
    hide Perform;
    if i > 0 {
      TraceIsRun(o, s, t, i - 1);
      assert StepAt(o, t, i - 1);
      assert t.calls[..i][..i - 1] == t.calls[..i - 1];
    }
  }
}
