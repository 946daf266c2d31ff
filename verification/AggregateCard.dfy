// The SDK's AggregateCard object, field by field, over a faulty CardIo.

module AggregateCards {
  import opened Prelude
  import opened CardContent
  import opened ElementIds
  import opened Wire
  import opened CardSpec
  import opened Transport

  class AggregateCard {
    const io: CardIo
    const opts: Options

    var messageId: Option<nat>
    var inflight: Inflight
    var elementCardIds: map<string, nat>
    var pendingUpdates: map<string, Data>
    var failureCount: nat
    var isSealed: bool
    var mirror: seq<Elem>
    var segmentIndex: nat
    var currentSegment: Option<string>
    var cardState: string
    var footerSeq: nat
    var idSeq: nat

    ghost function Fields(): Client
      reads this
    {
      Client(messageId, inflight, elementCardIds, pendingUpdates, failureCount, isSealed,
             mirror, segmentIndex, currentSegment, cardState, footerSeq, idSeq)
    }

    ghost function View(): Sys
      reads this, io
    {
      Sys(Fields(), io.View())
    }

    constructor (io: CardIo, opts: Options)
      ensures this.io == io && this.opts == opts
      ensures Fields() == NewClient
    {
      this.io := io;
      this.opts := opts;
      messageId, inflight, elementCardIds, pendingUpdates := None, NoFlight, map[], map[];
      failureCount, isSealed, mirror, segmentIndex := 0, false, [], 0;
      currentSegment, cardState, footerSeq, idSeq := None, "generating", 0, 0;
    }

    method ResetRound()
      modifies this
      ensures Fields() == CardSpec.ResetRound(old(Fields()))
    {
      isSealed := false;
      messageId := None;
      inflight := NoFlight;
      mirror := [];
      elementCardIds := map[];
      pendingUpdates := map[];
      segmentIndex := 0;
      currentSegment := None;
      cardState := "generating";
      footerSeq := 0;
      idSeq := 0;
    }

    method TryPatch(op: Op) returns (ok: bool)
      modifies this`failureCount, io
      ensures Run(View(), ok) == CardSpec.TryPatch(opts, old(View()), op)
    {
      hide Wire.Send;
      var first := io.Send(messageId, Delta(op));
      if first {
        failureCount := 0;
        return true;
      }
      failureCount := failureCount + 1;
      if !(opts.selfHeal && failureCount >= 3) {
        return false;
      }
      var healed := DegradedReplace();
      if !healed {
        return false;
      }
      var retry := io.Send(messageId, Delta(RetryOp(op)));
      if !retry {
        return false;
      }
      failureCount := 0;
      return true;
    }

    method DegradedReplace() returns (ok: bool)
      modifies io
      ensures Reply(io.View(), ok) == Send(old(io.View()), messageId, Replace(ShadowCard(Fields())))
    {
      ok := io.Send(messageId, Replace(Card(mirror, cardState, currentSegment, None)));
    }

    method CreateCard() returns (ok: bool)
      modifies this`messageId, this`cardState, this`currentSegment, io
      ensures Run(View(), ok) == CardSpec.CreateCard(old(View()))
      ensures ok ==> messageId.Some?
    {
      var id := io.SendCard(if segmentIndex > 0 then Some("last") else None);
      if id.None? {
        return false;
      }
      messageId := id;
      cardState := "generating";
      currentSegment := if segmentIndex > 0 then Some("last") else None;
      return true;
    }

    method EnsureCard() returns (ok: bool)
      modifies this, io
      ensures Run(View(), ok) == CardSpec.EnsureCard(old(View()))
    {
      hide CardSpec.CreateCard;
      if isSealed {
        ResetRound();
      }
      if messageId.Some? {
        return true;
      }
      if inflight != NoFlight {
        return inflight.Landed?;
      }
      ok := CreateCard();
      inflight := if ok then Landed else Crashed;
    }

    method SealIntermediateCard() returns (ok: bool)
      modifies this, io
      ensures Run(View(), ok) == CardSpec.SealIntermediate(opts, old(View()))
    {
      hide CardSpec.TryPatch;
      if messageId.None? {
        return true;
      }
      var segment := if segmentIndex == 0 then "first" else "middle";
      currentSegment := Some(segment);
      cardState := "done";
      ok := TryPatch(SetState("done"));
      if !ok {
        return;
      }
      ok := TryPatch(SetSegment(segment));
      if !ok {
        return;
      }
      messageId := None;
      inflight := NoFlight;
      mirror := [];
      currentSegment := None;
    }

    method Append(kind: string, data: Data) returns (id: Option<string>)
      modifies this, io
      ensures Run(View(), id.Some?) == AppendCall(opts, old(View()), kind, data)
      ensures id.Some? ==> id.value == NewElem(CardSpec.EnsureCard(old(View())).s.c, kind, data).id
    {
      hide AppendJob, CardSpec.EnsureCard;
      var ok := EnsureCard();
      if !ok {
        return None;
      }
      var elementId;
      var explicitId := ExplicitId(data);
      if explicitId.Some? {
        elementId := explicitId.value;
      } else {
        elementId := NextElementId(kind);
      }
      var element := Elem(kind, elementId, data - ENVELOPE_KEYS);
      ok := RunAppend(element);
      return if ok then Some(elementId) else None;
    }

    method NextElementId(kind: string) returns (id: string)
      modifies this`idSeq
      ensures idSeq == old(idSeq) + 1 && id == ElementId(kind, idSeq)
    {
      idSeq := idSeq + 1;
      id := ElementId(kind, idSeq);
    }

    /** Split off a full card, and create the card the element goes to if there is none. */
    method EnterCard(existed: bool) returns (ok: bool)
      modifies this, io
      ensures Run(View(), ok) == CardSpec.EnterCard(opts, old(View()), existed)
      ensures ok ==> messageId.Some?
    {
      hide SealIntermediate, CardSpec.CreateCard;
      if !existed && |mirror| >= MAX_ELEMENTS {
        ok := SealIntermediateCard();
        if !ok {
          return;
        }
        segmentIndex := segmentIndex + 1;
      }
      ok := true;
      if messageId.None? {
        ok := CreateCard();
      }
    }

    /** The queued job of append. */
    method RunAppend(element: Elem) returns (ok: bool)
      modifies this, io
      ensures Run(View(), ok) == AppendJob(opts, old(View()), element)
    {
      hide CardSpec.TryPatch, CardSpec.EnterCard, FlushPending;
      var existed := HasId(mirror, element.id);
      ok := EnterCard(existed);
      if !ok {
        return;
      }
      mirror := if existed then MirrorElem(mirror, element) else mirror + [element];
      if !existed {
        elementCardIds := elementCardIds[element.id := messageId.value];
      }
      ok := TryPatch(if existed then Op.Update(element.id, Some(element.data)) else Op.Append(Some(element)));
      if ok {
        ok := SendPending(element);
      }
    }

    method SendPending(element: Elem) returns (ok: bool)
      modifies this, io
      ensures Run(View(), ok) == FlushPending(opts, old(View()), element)
    {
      hide CardSpec.TryPatch;
      if element.id !in pendingUpdates {
        return true;
      }
      var merged := element.data + pendingUpdates[element.id];
      pendingUpdates := pendingUpdates - {element.id};
      mirror := MirrorData(mirror, element.id, merged);
      ok := TryPatch(Op.Update(element.id, Some(merged)));
    }

    method Update(elementId: string, data: Data) returns (ok: bool)
      modifies this, io
      ensures Run(View(), ok) == UpdateCall(opts, old(View()), elementId, data)
    {
      hide CardSpec.TryPatch, Wire.Send;
      if isSealed {
        Defer(elementId, data);
        return true;
      }
      var k := IndexOf(mirror, elementId);
      if k < |mirror| {
        var merged := mirror[k].data + data;
        mirror := MirrorData(mirror, elementId, merged);
        ok := TryPatch(Op.Update(elementId, Some(merged)));
        return;
      }
      if elementId in elementCardIds && Some(elementCardIds[elementId]) != messageId {
        ok := io.Send(Some(elementCardIds[elementId]), Delta(Op.Update(elementId, Some(data))));
        return;
      }
      Defer(elementId, data);
      return true;
    }

    method Defer(elementId: string, data: Data)
      modifies this`pendingUpdates
      ensures Fields() == Buffer(old(Fields()), elementId, data)
    {
      var known := if elementId in pendingUpdates then pendingUpdates[elementId] else map[];
      pendingUpdates := pendingUpdates[elementId := known + data];
    }

    method Finish(footer: Data) returns (ok: bool)
      modifies this, io
      ensures Run(View(), ok) == FinishCall(opts, old(View()), footer)
    {
      hide CardSpec.EnsureCard, FinishEmpty, FinishFull;
      if isSealed {
        return true;
      }
      ok := EnsureCard();
      if !ok || messageId.None? {
        return;
      }
      if opts.recallEmpty && elementCardIds == map[] {
        ok := FinishWithoutContent();
      } else {
        ok := FinishWithFooter(footer);
      }
    }

    method FinishWithoutContent() returns (ok: bool)
      modifies this, io
      ensures Run(View(), ok) == FinishEmpty(opts, old(View()))
    {
      hide CardSpec.TryPatch;
      if opts.canRecall {
        ok := io.Recall(messageId);
      } else {
        cardState := "done";
        ok := TryPatch(SetState("done"));
      }
      if ok {
        isSealed := true;
      }
    }

    method FinishWithFooter(footer: Data) returns (ok: bool)
      modifies this, io
      ensures Run(View(), ok) == FinishFull(opts, old(View()), footer)
    {
      hide CardSpec.TryPatch, CardSpec.FooterData, ElementIds.FooterId;
      var footerData := FooterData(footer);
      footerSeq := footerSeq + 1;
      var element := Elem("footer", FooterId(footerSeq), footerData);
      mirror := mirror + [element];
      ok := TryPatch(Op.Append(Some(element)));
      if !ok {
        return;
      }
      cardState := "done";
      ok := TryPatch(SetState("done"));
      if !ok {
        return;
      }
      ok := TryPatch(SetSilent(Some(false)));
      if !ok {
        return;
      }
      isSealed := true;
    }

    method Interrupt() returns (ok: bool)
      modifies this, io
      ensures Run(View(), ok) == FinishCall(opts, old(View()), INTERRUPT_FOOTER)
    {
      hide FinishCall;
      ok := Finish(INTERRUPT_FOOTER);
    }
  }
}
