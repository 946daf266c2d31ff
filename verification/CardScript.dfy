// Scripted failures: for a state and a call, outcomes that make the call do one
// chosen thing, and leave every later outcome untouched.

module CardScript {
  import opened Prelude
  import opened CardContent
  import opened Wire
  import opened CardSpec
  import opened CardFaults
  import opened CardUnread
  import ElementIds
  import CardFaultFree

  function WithFaults(s: Sys, faults: seq<Outcome>): Sys {
    s.(w := s.w.(faults := faults))
  }

  /** The store and the unread count are as before. */
  ghost predicate SameStore(w: World, w': World) {
    w'.messages == w.messages && w'.unread == w.unread
  }

  /** After script the rest is still to come, and made no difference. */
  ghost predicate Plays(o: Options, s: Sys, call: Call, script: seq<Outcome>, rest: seq<Outcome>) {
    var r := Perform(o, WithFaults(s, script), call);
    Perform(o, WithFaults(s, script + rest), call) == Run(WithFaults(r.s, rest), r.ok)
  }

  // ------------------------------------------------------------------ patches

  /** Outcomes that make a tryPatch fail without reaching the server. */
  function PatchLost(o: Options, c: Client): seq<Outcome> {
    if o.selfHeal && c.failures >= 2 then [Lost, Lost] else [Lost]
  }

  lemma LostPatch(o: Options, s: Sys, op: Op, rest: seq<Outcome>)
    requires s.w.faults == PatchLost(o, s.c) + rest
    ensures var r := TryPatch(o, s, op);
            && !r.ok && r.s.c == s.c.(failures := s.c.failures + 1)
            && r.s.w.faults == rest && SameStore(s.w, r.s.w)
    ensures TryPatch(o, s, op) == Run(WithFaults(TryPatch(o, WithFaults(s, PatchLost(o, s.c)), op).s, rest), false)
  {
  }

  /** The store after message m has taken op, with these outcomes still to come. */
  function TakenOp(w: World, m: nat, op: Op, rest: seq<Outcome>): World
    requires Live(w, Some(m)) && ApplyOp(w.messages[m].card, op).Accept?
  {
    CardFaultFree.Taken(w, m, Delta(op), ApplyOp(w.messages[m].card, op).card).(faults := rest)
  }

  /** A request the server takes; the caller learns of it if it is acknowledged. */
  lemma TakenPatch(o: Options, s: Sys, m: nat, op: Op, acked: bool, rest: seq<Outcome>)
    requires s.c.messageId == Some(m) && Live(s.w, Some(m)) && ApplyOp(s.w.messages[m].card, op).Accept?
    requires s.w.faults == [if acked then Delivered else Unacked] + rest
    requires !acked ==> s.c.failures == 0
    ensures TryPatch(o, s, op) == Run(Sys(s.c.(failures := if acked then 0 else 1), TakenOp(s.w, m, op, rest)), acked)
  {
    hide ApplyOp;
    assert s.w.faults[1..] == rest;
  }

  // --------------------------------------------------------------- dull calls

  function Creation(c: Client): seq<Outcome> {
    if c.isSealed || c.messageId.None? then [Delivered] else []
  }

  /** Outcomes under which the call creates a card if it has to, and reaches the server with nothing else. */
  function Dull(o: Options, c: Client, call: Call): seq<Outcome> {
    match call
    case AppendOf(_, _) => Creation(c) + PatchLost(o, c)
    case UpdateOf(id, _) =>
      if c.isSealed then []
      else if HasId(c.mirror, id) then PatchLost(o, c)
      else if id in c.cardIds && Some(c.cardIds[id]) != c.messageId then [Lost]
      else []
    case _ => Creation(c) + if RecallEmptyCard(o, c) && o.canRecall then [Lost] else PatchLost(o, c)
  }

  /** The object is on a card in the store, or has none and may create one. */
  predicate Ready(s: Sys) {
    && !s.c.isSealed
    && (s.c.messageId.Some? ==> Live(s.w, s.c.messageId))
    && (s.c.messageId.None? ==> s.c.inflight.NoFlight? && s.c.mirror == [])
  }

  function CardAfterCreation(s: Sys): Sys
    requires Ready(s)
  {
    if s.c.messageId.Some? then s
    else
      var segment := if s.c.segmentIndex > 0 then Some("last") else None;
      Sys(s.c.(messageId := Some(|s.w.messages|), inflight := Landed, state := "generating", segment := segment),
          s.w.(messages := s.w.messages + [Message(EmptyCard(segment), false)]))
  }

  lemma EnsureScripted(s: Sys, rest: seq<Outcome>)
    requires Ready(s)
    ensures EnsureCard(WithFaults(s, Creation(s.c) + rest)) == Run(WithFaults(CardAfterCreation(s), rest), true)
    ensures var e := CardAfterCreation(s); e.c.messageId.Some? && Live(e.w, e.c.messageId) && !e.c.isSealed
  {
    if s.c.messageId.None? {
      assert ([Delivered] + rest)[1..] == rest;
    } else {
      assert [] + rest == rest;
    }
  }

  /** The shadow after an append job whose one patch was lost. */
  function DullShadow(c: Client, elem: Elem, m: nat): Client {
    var existed := HasId(c.mirror, elem.id);
    if !existed && |c.mirror| >= MAX_ELEMENTS then
      c.(segment := Some(if c.segmentIndex == 0 then "first" else "middle"), state := "done", failures := c.failures + 1)
    else Shadow(c, elem, existed, m).(failures := c.failures + 1)
  }

  lemma DullAppendJob(o: Options, s: Sys, elem: Elem, rest: seq<Outcome>)
    requires s.c.messageId.Some? && s.w.faults == PatchLost(o, s.c) + rest
    ensures var r := AppendJob(o, s, elem);
            !r.ok && r.s.c == DullShadow(s.c, elem, s.c.messageId.value) && r.s.w.faults == rest && SameStore(s.w, r.s.w)
    ensures AppendJob(o, s, elem) == Run(WithFaults(AppendJob(o, WithFaults(s, PatchLost(o, s.c)), elem).s, rest), false)
  {
    hide TryPatch;
    var existed := HasId(s.c.mirror, elem.id);
    var segment := if s.c.segmentIndex == 0 then "first" else "middle";
    var c0 := s.c.(segment := Some(segment), state := "done");
    var c1 := Shadow(s.c, elem, existed, s.c.messageId.value);
    var op := if existed then Update(elem.id, Some(elem.data)) else Append(Some(elem));
    LostPatch(o, s.(c := c0), SetState("done"), rest);
    LostPatch(o, s.(c := c1), op, rest);
    var s' := WithFaults(s, PatchLost(o, s.c));
    assert PatchLost(o, s.c) + [] == PatchLost(o, s.c);
    LostPatch(o, s'.(c := c0), SetState("done"), []);
    LostPatch(o, s'.(c := c1), op, []);
  }

  function FooterOf(call: Call): Data {
    if call.FinishOf? then call.footer else INTERRUPT_FOOTER
  }

  function Footed(c: Client, footer: Data): Client {
    c.(footerSeq := c.footerSeq + 1,
       mirror := c.mirror + [Elem("footer", ElementIds.FooterId(c.footerSeq + 1), FooterData(footer))])
  }

  function DullFinish(o: Options, c: Client, footer: Data): Client {
    if !RecallEmptyCard(o, c) then Footed(c, footer).(failures := c.failures + 1)
    else if o.canRecall then c
    else c.(state := "done", failures := c.failures + 1)
  }

  function DullUpdate(c: Client, id: string, data: Data): Client {
    if c.isSealed then Buffer(c, id, data)
    else if HasId(c.mirror, id) then
      c.(mirror := MirrorData(c.mirror, id, c.mirror[IndexOf(c.mirror, id)].data + data), failures := c.failures + 1)
    else if id in c.cardIds && Some(c.cardIds[id]) != c.messageId then c
    else Buffer(c, id, data)
  }

  /** The card object after a dull call. */
  function DullClient(o: Options, s: Sys, call: Call): Client
    requires Ready(s)
  {
    var c := CardAfterCreation(s).c;
    match call
    case AppendOf(kind, data) => DullShadow(TakeId(c, data), NewElem(c, kind, data), c.messageId.value)
    case UpdateOf(id, data) => DullUpdate(s.c, id, data)
    case _ => DullFinish(o, c, FooterOf(call))
  }

  lemma DullAppend(o: Options, s: Sys, kind: string, data: Data, rest: seq<Outcome>)
    requires Ready(s)
    ensures var script := Creation(s.c) + PatchLost(o, s.c);
            var r := AppendCall(o, WithFaults(s, script + rest), kind, data);
            && !r.ok && r.s.c == DullClient(o, s, AppendOf(kind, data))
            && r.s.w.faults == rest && SameStore(CardAfterCreation(s).w, r.s.w)
            && r == Run(WithFaults(AppendCall(o, WithFaults(s, script), kind, data).s, rest), false)
  {
    hide AppendJob, EnsureCard, PatchLost, CardAfterCreation, DullShadow, ExplicitId;
    var script := Creation(s.c) + PatchLost(o, s.c);
    assert script + rest == Creation(s.c) + (PatchLost(o, s.c) + rest);
    EnsureScripted(s, PatchLost(o, s.c) + rest);
    EnsureScripted(s, PatchLost(o, s.c));
    AfterCreationFields(s);
    var e := CardAfterCreation(s);
    var e1 := e.(c := TakeId(e.c, data));
    var elem := NewElem(e.c, kind, data);
    LostFields(o, s.c, e1.c);
    DullAppendJob(o, WithFaults(e1, PatchLost(o, s.c) + rest), elem, rest);
  }

  lemma AfterCreationFields(s: Sys)
    requires Ready(s)
    ensures var e := CardAfterCreation(s);
            && e.c.failures == s.c.failures && e.c.cardIds == s.c.cardIds && e.c.mirror == s.c.mirror
            && e.c.idSeq == s.c.idSeq && e.c.footerSeq == s.c.footerSeq && e.c.pending == s.c.pending
            && e.w.unread == s.w.unread && !e.c.isSealed && e.c.messageId.Some? && Live(e.w, e.c.messageId)
  {
  }

  lemma LostFields(o: Options, c: Client, d: Client)
    requires c.failures == d.failures
    ensures PatchLost(o, c) == PatchLost(o, d)
  {
  }

  lemma DullFinishCall(o: Options, s: Sys, footer: Data, rest: seq<Outcome>)
    requires Ready(s)
    ensures var script := Creation(s.c) + if RecallEmptyCard(o, s.c) && o.canRecall then [Lost] else PatchLost(o, s.c);
            var r := FinishCall(o, WithFaults(s, script + rest), footer);
            && !r.ok && r.s.c == DullFinish(o, CardAfterCreation(s).c, footer)
            && r.s.w.faults == rest && SameStore(CardAfterCreation(s).w, r.s.w)
            && r == Run(WithFaults(FinishCall(o, WithFaults(s, script), footer).s, rest), false)
  {
    hide TryPatch, EnsureCard, PatchLost, CardAfterCreation, FooterData, ElementIds.FooterId;
    var tail := if RecallEmptyCard(o, s.c) && o.canRecall then [Lost] else PatchLost(o, s.c);
    assert Creation(s.c) + tail + rest == Creation(s.c) + (tail + rest);
    EnsureScripted(s, tail + rest);
    EnsureScripted(s, tail);
    AfterCreationFields(s);
    var e := CardAfterCreation(s);
    LostFields(o, s.c, e.c);
    var c1 := if RecallEmptyCard(o, s.c) then e.c.(state := "done") else Footed(e.c, footer);
    LostFields(o, s.c, c1);
    var op := if RecallEmptyCard(o, s.c) then SetState("done") else Append(Some(Footed(e.c, footer).mirror[|e.c.mirror|]));
    if tail == PatchLost(o, s.c) {
      assert tail + [] == tail;
      LostPatch(o, WithFaults(e.(c := c1), tail + rest), op, rest);
      LostPatch(o, WithFaults(e.(c := c1), tail), op, []);
    }
    if RecallEmptyCard(o, s.c) && o.canRecall {
      assert ([Lost] + rest)[1..] == rest;
    }
  }

  lemma DullUpdateCall(o: Options, s: Sys, id: string, data: Data, rest: seq<Outcome>)
    ensures var script := Dull(o, s.c, UpdateOf(id, data));
            var r := UpdateCall(o, WithFaults(s, script + rest), id, data);
            && r.s.c == DullUpdate(s.c, id, data) && r.s.w.faults == rest && SameStore(s.w, r.s.w)
            && r == Run(WithFaults(UpdateCall(o, WithFaults(s, script), id, data).s, rest), r.ok)
            && r.ok == UpdateCall(o, WithFaults(s, script), id, data).ok
  {
    hide TryPatch, PatchLost;
    var script := Dull(o, s.c, UpdateOf(id, data));
    if !s.c.isSealed && HasId(s.c.mirror, id) {
      var merged := s.c.mirror[IndexOf(s.c.mirror, id)].data + data;
      var c1 := s.c.(mirror := MirrorData(s.c.mirror, id, merged));
      LostFields(o, s.c, c1);
      assert script + [] == script;
      LostPatch(o, WithFaults(s.(c := c1), script + rest), Update(id, Some(merged)), rest);
      LostPatch(o, WithFaults(s.(c := c1), script), Update(id, Some(merged)), []);
    } else if !s.c.isSealed && id in s.c.cardIds && Some(s.c.cardIds[id]) != s.c.messageId {
      assert ([Lost] + rest)[1..] == rest;
    } else {
      assert [] + rest == rest;
    }
  }

  /** Any call can be made dull: it fails or stays local, and the round stays open. */
  lemma DullCall(o: Options, s: Sys, call: Call, rest: seq<Outcome>)
    requires Ready(s)
    ensures var script := Dull(o, s.c, call);
            var r := Perform(o, WithFaults(s, script), call).s;
            && Plays(o, s, call, script, rest)
            && r.c == DullClient(o, s, call)
            && SameStore(if Starts(call) then CardAfterCreation(s).w else s.w, r.w)
  {
    hide AppendCall, UpdateCall, FinishCall, DullClient, DullFinish, DullUpdate, PatchLost, CardAfterCreation;
    AfterCreationFields(s);
    var script := Dull(o, s.c, call);
    assert script + [] == script;
    match call {
      case AppendOf(kind, data) =>
        DullAppend(o, s, kind, data, rest);
        DullAppend(o, s, kind, data, []);
      case UpdateOf(id, data) =>
        DullUpdateCall(o, s, id, data, rest);
        DullUpdateCall(o, s, id, data, []);
        ClientOfUpdate(o, s, id, data);
      case FinishOf(footer) =>
        DullFinishCall(o, s, footer, rest);
        DullFinishCall(o, s, footer, []);
        ClientOfFinish(o, s, call);
      case InterruptOf =>
        DullFinishCall(o, s, INTERRUPT_FOOTER, rest);
        DullFinishCall(o, s, INTERRUPT_FOOTER, []);
        ClientOfFinish(o, s, call);
    }
  }

  lemma ClientOfFinish(o: Options, s: Sys, call: Call)
    requires Ready(s) && Finishes(call)
    ensures DullClient(o, s, call) == DullFinish(o, CardAfterCreation(s).c, FooterOf(call))
  {
  }

  lemma ClientOfUpdate(o: Options, s: Sys, id: string, data: Data)
    requires Ready(s)
    ensures DullClient(o, s, UpdateOf(id, data)) == DullUpdate(s.c, id, data)
  {
  }

  // ------------------------------------------------------------ ring and split

  const UNACKED_RING: seq<Outcome> := [Delivered, Delivered, Unacked]

  /** The card m after a finish has gone through on the server. */
  function RungWorld(w: World, m: nat, elem: Elem, rest: seq<Outcome>): World
    requires Live(w, Some(m))
  {
    var card := w.messages[m].card;
    var w1 := TakenOp(w, m, Append(Some(elem)), UNACKED_RING[1..] + rest);
    var w2 := TakenOp(w1, m, SetState("done"), UNACKED_RING[2..] + rest);
    TakenOp(w2, m, SetSilent(Some(false)), rest)
  }

  lemma RungShape(w: World, m: nat, elem: Elem, rest: seq<Outcome>)
    requires Live(w, Some(m))
    ensures var w' := RungWorld(w, m, elem, rest);
            && w'.faults == rest && |w'.messages| == |w.messages| && Live(w', Some(m)) && IsLoud(w'.messages[m].card)
            && w'.unread == w.unread + if IsSilent(w.messages[m].card) then 1 else 0
    ensures RungWorld(w, m, elem, rest) == RungWorld(w, m, elem, []).(faults := rest)
  {
  }

  /** A finish that rings the card and is reported as failed. */
  lemma RingFull(o: Options, s: Sys, m: nat, footer: Data, rest: seq<Outcome>)
    requires s.c.messageId == Some(m) && Live(s.w, Some(m)) && s.w.faults == UNACKED_RING + rest
    ensures var c1 := Footed(s.c, footer);
            FinishFull(o, s, footer) ==
            Run(Sys(c1.(state := "done", failures := 1), RungWorld(s.w, m, c1.mirror[|s.c.mirror|], rest)), false)
  {
    hide TryPatch, FooterData, ElementIds.FooterId, ApplyOp;
    var c1 := Footed(s.c, footer);
    var elem := c1.mirror[|s.c.mirror|];
    AcceptsAll(s.w.messages[m].card, elem);
    assert UNACKED_RING + rest == [Delivered] + (UNACKED_RING[1..] + rest);
    assert UNACKED_RING[1..] + rest == [Delivered] + (UNACKED_RING[2..] + rest);
    assert UNACKED_RING[2..] + rest == [Unacked] + rest;
    TakenPatch(o, s.(c := c1), m, Append(Some(elem)), true, UNACKED_RING[1..] + rest);
    var w1 := TakenOp(s.w, m, Append(Some(elem)), UNACKED_RING[1..] + rest);
    AcceptsAll(w1.messages[m].card, elem);
    var c2 := c1.(failures := 0, state := "done");
    TakenPatch(o, Sys(c2, w1), m, SetState("done"), true, UNACKED_RING[2..] + rest);
    var w2 := TakenOp(w1, m, SetState("done"), UNACKED_RING[2..] + rest);
    AcceptsAll(w2.messages[m].card, elem);
    TakenPatch(o, Sys(c2, w2), m, SetSilent(Some(false)), false, rest);
  }

  lemma AcceptsAll(card: Card, elem: Elem)
    ensures ApplyOp(card, Append(Some(elem))).Accept? && ApplyOp(card, SetState("done")).Accept?
    ensures ApplyOp(card, SetSilent(Some(false))).Accept?
    ensures ApplyOp(card, SetSegment("first")).Accept? && ApplyOp(card, SetSegment("middle")).Accept?
  {
  }

  function RingScript(c: Client): seq<Outcome> {
    Creation(c) + UNACKED_RING
  }

  lemma RingCall(o: Options, s: Sys, call: Call, rest: seq<Outcome>)
    requires Ready(s) && Finishes(call) && !RecallEmptyCard(o, s.c)
    ensures var r := Perform(o, WithFaults(s, RingScript(s.c)), call).s;
            var e := CardAfterCreation(s);
            var m := e.c.messageId.value;
            && Plays(o, s, call, RingScript(s.c), rest)
            && r.c == Footed(e.c, FooterOf(call)).(state := "done", failures := 1)
            && Live(r.w, Some(m)) && IsLoud(r.w.messages[m].card)
            && r.w.unread == s.w.unread + if IsSilent(e.w.messages[m].card) then 1 else 0
  {
    hide FinishFull, EnsureCard, FooterData, ElementIds.FooterId, RungWorld, CardAfterCreation, FinishEmpty;
    AfterCreationFields(s);
    var e := CardAfterCreation(s);
    var m := e.c.messageId.value;
    var footer := FooterOf(call);
    assert RingScript(s.c) + rest == Creation(s.c) + (UNACKED_RING + rest);
    assert UNACKED_RING + [] == UNACKED_RING;
    EnsureScripted(s, UNACKED_RING + rest);
    EnsureScripted(s, UNACKED_RING);
    RingFull(o, WithFaults(e, UNACKED_RING + rest), m, footer, rest);
    RingFull(o, WithFaults(e, UNACKED_RING), m, footer, []);
    var elem := Footed(e.c, footer).mirror[|e.c.mirror|];
    RungIgnores(e.w, m, elem, UNACKED_RING + rest, rest);
    RungIgnores(e.w, m, elem, UNACKED_RING, []);
    RungShape(e.w, m, elem, rest);
    RungShape(e.w, m, elem, []);
  }

  /** The outcomes before the ring do not show in what is left. */
  lemma RungIgnores(w: World, m: nat, elem: Elem, faults: seq<Outcome>, rest: seq<Outcome>)
    requires Live(w, Some(m))
    ensures RungWorld(w.(faults := faults), m, elem, rest) == RungWorld(w, m, elem, rest)
  {
  }

  const SPLIT_SCRIPT: seq<Outcome> := [Delivered, Delivered, Delivered, Lost]

  /** The store after a full card m was closed and a new card opened. */
  function SplitWorld(w: World, m: nat, segment: string, rest: seq<Outcome>): World
    requires Live(w, Some(m)) && KnownSegment(segment)
  {
    var w1 := TakenOp(w, m, SetState("done"), SPLIT_SCRIPT[1..] + rest);
    var w2 := TakenOp(w1, m, SetSegment(segment), SPLIT_SCRIPT[2..] + rest);
    w2.(faults := SPLIT_SCRIPT[3..] + rest, messages := w2.messages + [Message(EmptyCard(Some("last")), false)])
  }

  lemma SplitEnter(o: Options, s: Sys, m: nat, rest: seq<Outcome>)
    requires s.c.messageId == Some(m) && Live(s.w, Some(m)) && |s.c.mirror| >= MAX_ELEMENTS
    requires s.w.faults == SPLIT_SCRIPT + rest
    ensures var segment := if s.c.segmentIndex == 0 then "first" else "middle";
            EnterCard(o, s, false) ==
            Run(Sys(s.c.(messageId := Some(|s.w.messages|), inflight := NoFlight, mirror := [], segment := Some("last"),
                         state := "generating", failures := 0, segmentIndex := s.c.segmentIndex + 1),
                    SplitWorld(s.w, m, segment, rest)), true)
  {
    hide TryPatch, ApplyOp;
    var segment := if s.c.segmentIndex == 0 then "first" else "middle";
    var s0 := s.(c := s.c.(segment := Some(segment), state := "done"));
    var any := Elem("", "", map[]);
    AcceptsAll(s.w.messages[m].card, any);
    assert SPLIT_SCRIPT + rest == [Delivered] + (SPLIT_SCRIPT[1..] + rest);
    assert SPLIT_SCRIPT[1..] + rest == [Delivered] + (SPLIT_SCRIPT[2..] + rest);
    assert SPLIT_SCRIPT[2..] + rest == [Delivered] + (SPLIT_SCRIPT[3..] + rest);
    assert (SPLIT_SCRIPT[2..] + rest)[1..] == SPLIT_SCRIPT[3..] + rest;
    TakenPatch(o, s0, m, SetState("done"), true, SPLIT_SCRIPT[1..] + rest);
    var w1 := TakenOp(s.w, m, SetState("done"), SPLIT_SCRIPT[1..] + rest);
    AcceptsAll(w1.messages[m].card, any);
    TakenPatch(o, Sys(s0.c.(failures := 0), w1), m, SetSegment(segment), true, SPLIT_SCRIPT[2..] + rest);
  }

  lemma SplitShape(w: World, m: nat, segment: string, rest: seq<Outcome>)
    requires Live(w, Some(m)) && KnownSegment(segment)
    ensures var w' := SplitWorld(w, m, segment, rest);
            && w'.unread == w.unread && |w'.messages| == |w.messages| + 1
            && Live(w', Some(|w.messages|)) && IsSilent(w'.messages[|w.messages|].card)
            && w' == SplitWorld(w, m, segment, []).(faults := [Lost] + rest)
    ensures forall faults :: SplitWorld(w.(faults := faults), m, segment, rest) == SplitWorld(w, m, segment, rest)
  {
  }

  /** An append that leaves the full card for a new one, and is then reported as failed. */
  lemma SplitCall(o: Options, s: Sys, kind: string, data: Data, rest: seq<Outcome>)
    requires !s.c.isSealed && Live(s.w, s.c.messageId)
    requires |s.c.mirror| >= MAX_ELEMENTS && !HasId(s.c.mirror, NewElem(s.c, kind, data).id)
    ensures var call := AppendOf(kind, data);
            var r := Perform(o, WithFaults(s, SPLIT_SCRIPT), call).s;
            var n := |s.w.messages|;
            && Plays(o, s, call, SPLIT_SCRIPT, rest)
            && !r.c.isSealed && r.c.messageId == Some(n) && Live(r.w, Some(n)) && IsSilent(r.w.messages[n].card)
            && r.c.cardIds != map[] && r.w.unread == s.w.unread
            && r.c.mirror == [NewElem(s.c, kind, data)] && r.c.idSeq == TakeId(s.c, data).idSeq
  {
    hide AppendJob, SplitWorld, ExplicitId;
    var m := s.c.messageId.value;
    var s1 := s.(c := TakeId(s.c, data));
    var elem := NewElem(s.c, kind, data);
    var segment := if s.c.segmentIndex == 0 then "first" else "middle";
    SplitShape(s.w, m, segment, rest);
    SplitShape(s.w, m, segment, []);
    assert SPLIT_SCRIPT + [] == SPLIT_SCRIPT;
    SplitJob(o, WithFaults(s1, SPLIT_SCRIPT + rest), m, elem, rest);
    SplitJob(o, WithFaults(s1, SPLIT_SCRIPT), m, elem, []);
    OpenAppend(o, WithFaults(s, SPLIT_SCRIPT + rest), kind, data);
    OpenAppend(o, WithFaults(s, SPLIT_SCRIPT), kind, data);
    hide Perform, AppendCall, Send;
    var w0 := SplitWorld(s.w, m, segment, []);
    var w1 := SplitWorld(s.w, m, segment, rest);
    assert SplitWorld(s.w.(faults := SPLIT_SCRIPT), m, segment, []) == w0;
    assert SplitWorld(s.w.(faults := SPLIT_SCRIPT + rest), m, segment, rest) == w1;
    assert w1 == w0.(faults := [Lost] + rest);
    assert elem.id in Perform(o, WithFaults(s, SPLIT_SCRIPT), AppendOf(kind, data)).s.c.cardIds;
  }

  lemma OpenAppend(o: Options, s: Sys, kind: string, data: Data)
    requires !s.c.isSealed && s.c.messageId.Some?
    ensures Perform(o, s, AppendOf(kind, data)) == AppendJob(o, s.(c := TakeId(s.c, data)), NewElem(s.c, kind, data))
  {
    hide AppendJob;
  }

  lemma SplitJob(o: Options, s: Sys, m: nat, elem: Elem, rest: seq<Outcome>)
    requires s.c.messageId == Some(m) && Live(s.w, Some(m)) && |s.c.mirror| >= MAX_ELEMENTS && !HasId(s.c.mirror, elem.id)
    requires s.w.faults == SPLIT_SCRIPT + rest
    ensures var segment := if s.c.segmentIndex == 0 then "first" else "middle";
            var n := |s.w.messages|;
            AppendJob(o, s, elem) ==
            Run(Sys(s.c.(messageId := Some(n), inflight := NoFlight, mirror := [elem], segment := Some("last"),
                         state := "generating", failures := 1, segmentIndex := s.c.segmentIndex + 1,
                         cardIds := s.c.cardIds[elem.id := n]),
                    Send(SplitWorld(s.w, m, segment, rest), Some(n), Delta(Append(Some(elem)))).w), false)
    ensures var segment := if s.c.segmentIndex == 0 then "first" else "middle";
            var w := SplitWorld(s.w, m, segment, rest);
            Send(w, Some(|s.w.messages|), Delta(Append(Some(elem)))).w ==
            w.(faults := rest, log := w.log + [Sent(Some(|s.w.messages|), Delta(Append(Some(elem))), NeverArrived)])
  {
    hide EnterCard;
    SplitEnter(o, s, m, rest);
    var e := EnterCard(o, s, false).s;
    assert e.w.faults == [Lost] + rest && ([Lost] + rest)[1..] == rest;
    assert [] + [elem] == [elem];
    hide SplitWorld;
  }

  const DROP_SCRIPT: seq<Outcome> := [Delivered, Delivered, Lost]

  /** The store after a full card m was closed and the creation of the next one was lost. */
  function DropWorld(w: World, m: nat, segment: string, rest: seq<Outcome>): World
    requires Live(w, Some(m)) && KnownSegment(segment)
  {
    var w1 := TakenOp(w, m, SetState("done"), DROP_SCRIPT[1..] + rest);
    TakenOp(w1, m, SetSegment(segment), DROP_SCRIPT[2..] + rest).(faults := rest)
  }

  lemma DropEnter(o: Options, s: Sys, m: nat, rest: seq<Outcome>)
    requires s.c.messageId == Some(m) && Live(s.w, Some(m)) && |s.c.mirror| >= MAX_ELEMENTS
    requires s.w.faults == DROP_SCRIPT + rest
    ensures var segment := if s.c.segmentIndex == 0 then "first" else "middle";
            EnterCard(o, s, false) ==
            Run(Sys(s.c.(messageId := None, inflight := NoFlight, mirror := [], segment := None, state := "done",
                         failures := 0, segmentIndex := s.c.segmentIndex + 1),
                    DropWorld(s.w, m, segment, rest)), false)
  {
    hide TryPatch, ApplyOp;
    var segment := if s.c.segmentIndex == 0 then "first" else "middle";
    var s0 := s.(c := s.c.(segment := Some(segment), state := "done"));
    var any := Elem("", "", map[]);
    AcceptsAll(s.w.messages[m].card, any);
    assert DROP_SCRIPT + rest == [Delivered] + (DROP_SCRIPT[1..] + rest);
    assert DROP_SCRIPT[1..] + rest == [Delivered] + (DROP_SCRIPT[2..] + rest);
    assert DROP_SCRIPT[2..] + rest == [Lost] + rest;
    assert ([Lost] + rest)[1..] == rest;
    TakenPatch(o, s0, m, SetState("done"), true, DROP_SCRIPT[1..] + rest);
    var w1 := TakenOp(s.w, m, SetState("done"), DROP_SCRIPT[1..] + rest);
    AcceptsAll(w1.messages[m].card, any);
    TakenPatch(o, Sys(s0.c.(failures := 0), w1), m, SetSegment(segment), true, DROP_SCRIPT[2..] + rest);
  }

  lemma DropShape(w: World, m: nat, segment: string, rest: seq<Outcome>)
    requires Live(w, Some(m)) && KnownSegment(segment)
    ensures var w' := DropWorld(w, m, segment, rest);
            w'.unread == w.unread && w' == DropWorld(w, m, segment, []).(faults := rest)
    ensures forall faults :: DropWorld(w.(faults := faults), m, segment, rest) == DropWorld(w, m, segment, rest)
  {
  }

  lemma DropJob(o: Options, s: Sys, elem: Elem)
    requires !HasId(s.c.mirror, elem.id) && !EnterCard(o, s, false).ok
    ensures AppendJob(o, s, elem) == EnterCard(o, s, false)
  {
    hide EnterCard;
  }

  /** An append that closes the full card and finds no new one. */
  lemma DropCall(o: Options, s: Sys, kind: string, data: Data, rest: seq<Outcome>)
    requires !s.c.isSealed && Live(s.w, s.c.messageId)
    requires |s.c.mirror| >= MAX_ELEMENTS && !HasId(s.c.mirror, NewElem(s.c, kind, data).id)
    ensures var call := AppendOf(kind, data);
            var r := Perform(o, WithFaults(s, DROP_SCRIPT), call).s;
            && Plays(o, s, call, DROP_SCRIPT, rest)
            && !r.c.isSealed && r.c.messageId.None? && r.c.inflight.NoFlight? && r.c.mirror == []
            && r.c.cardIds == s.c.cardIds && r.c.idSeq == TakeId(s.c, data).idSeq && r.w.unread == s.w.unread
  {
    hide AppendJob, DropWorld, ExplicitId, EnterCard;
    var m := s.c.messageId.value;
    var s1 := s.(c := TakeId(s.c, data));
    var elem := NewElem(s.c, kind, data);
    var segment := if s.c.segmentIndex == 0 then "first" else "middle";
    DropShape(s.w, m, segment, rest);
    DropShape(s.w, m, segment, []);
    assert DROP_SCRIPT + [] == DROP_SCRIPT;
    DropEnter(o, WithFaults(s1, DROP_SCRIPT + rest), m, rest);
    DropEnter(o, WithFaults(s1, DROP_SCRIPT), m, []);
    DropJob(o, WithFaults(s1, DROP_SCRIPT + rest), elem);
    DropJob(o, WithFaults(s1, DROP_SCRIPT), elem);
    OpenAppend(o, WithFaults(s, DROP_SCRIPT + rest), kind, data);
    OpenAppend(o, WithFaults(s, DROP_SCRIPT), kind, data);
    hide Perform, AppendCall;
    assert DropWorld(s.w.(faults := DROP_SCRIPT), m, segment, []) == DropWorld(s.w, m, segment, []);
    assert DropWorld(s.w.(faults := DROP_SCRIPT + rest), m, segment, rest) == DropWorld(s.w, m, segment, rest);
  }

  // --------------------------------------------------- what a caller can rely on

  /** The current card, if there is one, is silent. */
  ghost predicate Silent(s: Sys) {
    s.c.messageId.Some? && Live(s.w, s.c.messageId) ==> IsSilent(s.w.messages[s.c.messageId.value].card)
  }

  lemma DullFields(o: Options, s: Sys, call: Call)
    requires Ready(s)
    ensures var c := DullClient(o, s, call);
            && !c.isSealed
            && c.messageId == (if Starts(call) then CardAfterCreation(s).c.messageId else s.c.messageId)
            && (c.messageId.None? ==> c.inflight.NoFlight? && c.mirror == [])
    ensures forall id :: id in s.c.cardIds ==> id in DullClient(o, s, call).cardIds
  {
    hide FooterData, ElementIds.FooterId, NewElem, HasId, ExplicitId;
  }

  lemma DullKeeps(o: Options, s: Sys, call: Call, r: Sys)
    requires Ready(s) && r.c == DullClient(o, s, call)
    requires SameStore(if Starts(call) then CardAfterCreation(s).w else s.w, r.w)
    ensures Ready(r) && r.w.unread == s.w.unread
    ensures s.c.messageId.Some? ==> r.c.messageId == s.c.messageId
    ensures Silent(s) ==> Silent(r)
    ensures s.c.messageId.Some? && Rung(s) ==> Rung(r)
    ensures s.c.cardIds != map[] ==> r.c.cardIds != map[]
  {
    DullFields(o, s, call);
    AfterCreationFields(s);
    hide DullClient;
    if s.c.cardIds != map[] {
      var id :| id in s.c.cardIds;
      assert id in r.c.cardIds;
    }
  }

  /** For every later outcomes, call i plays the script and ends in r. */
  ghost predicate Scripted(o: Options, s: Sys, call: Call, script: seq<Outcome>) {
    forall rest :: Plays(o, s, call, script, rest)
  }

  lemma DullScripted(o: Options, s: Sys, call: Call)
    requires Ready(s)
    ensures Scripted(o, s, call, Dull(o, s.c, call))
    ensures var r := Perform(o, WithFaults(s, Dull(o, s.c, call)), call).s;
            r.c == DullClient(o, s, call) && SameStore(if Starts(call) then CardAfterCreation(s).w else s.w, r.w)
  {
    hide Plays, Perform, Dull, DullClient, CardAfterCreation;
    forall rest ensures Plays(o, s, call, Dull(o, s.c, call), rest) {
      DullCall(o, s, call, rest);
    }
    DullCall(o, s, call, []);
  }

  lemma RungHasCard(s: Sys)
    ensures Rung(s) ==> s.c.messageId.Some?
  {
  }

  lemma FootedFields(c: Client, footer: Data)
    ensures var f := Footed(c, footer);
            && f.messageId == c.messageId && f.isSealed == c.isSealed && f.cardIds == c.cardIds && f.idSeq == c.idSeq
            && f.inflight == c.inflight
  {
  }

  lemma RingScripted(o: Options, s: Sys, call: Call)
    requires Ready(s) && Finishes(call) && !RecallEmptyCard(o, s.c) && Silent(s)
    ensures Scripted(o, s, call, RingScript(s.c))
    ensures var r := Perform(o, WithFaults(s, RingScript(s.c)), call).s;
            && r.c == Footed(CardAfterCreation(s).c, FooterOf(call)).(state := "done", failures := 1)
            && Ready(r) && Rung(r) && r.w.unread == s.w.unread + 1
  {
    hide Plays, Perform, Footed, RingScript;
    forall rest ensures Plays(o, s, call, RingScript(s.c), rest) {
      RingCall(o, s, call, rest);
    }
    RingCall(o, s, call, []);
    FootedFields(CardAfterCreation(s).c, FooterOf(call));
  }

  lemma SoundWithFaults(s: Sys, faults: seq<Outcome>)
    requires Sound(s)
    ensures Sound(WithFaults(s, faults))
  {
    var w := s.w.(faults := faults);
    forall m | 0 <= m < |w.messages| ensures Distinct(IdsAt(w, m)) {
      assert IdsAt(w, m) == IdsAt(s.w, m);
    }
    if s.c.messageId.Some? {
      assert IdsAt(w, s.c.messageId.value) == IdsAt(s.w, s.c.messageId.value);
    }
  }

  /** The append that opens a new round does the same on an object reset beforehand. */
  lemma ResetFirst(o: Options, s: Sys, call: Call)
    requires s.c.isSealed && call.AppendOf?
    ensures Perform(o, s, call) == Perform(o, s.(c := ResetRound(s.c)), call)
  {
    hide AppendJob;
  }
}
