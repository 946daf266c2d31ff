// What each part of a call can do to the card object's own fields, whatever
// becomes of its requests.

module CardFields {
  import opened Prelude
  import opened CardContent
  import opened Wire
  import opened CardSpec
  import CardFaults
  import ElementIds

  lemma PatchedFields(o: Options, s: Sys, c: Client, op: Op)
    ensures var r := TryPatch(o, s.(c := c), op).s;
            r.c == c.(failures := r.c.failures) && |r.w.messages| == |s.w.messages|
  {
    TryPatchFields(o, s.(c := c), op);
    hide Send;
    var x := CardFaults.SendShape(s.w, c.messageId, Delta(op));
    var first := Send(s.w, c.messageId, Delta(op)).w;
    var r := Replace(ShadowCard(c.(failures := c.failures + 1)));
    var y := CardFaults.SendShape(first, c.messageId, r);
    var z := CardFaults.SendShape(Send(first, c.messageId, r).w, c.messageId, Delta(RetryOp(op)));
  }

  lemma ShadowIds(c: Client, elem: Elem)
    ensures Ids(MirrorElem(c.mirror, elem)) == Ids(c.mirror)
    ensures Ids(c.mirror + [elem]) == Ids(c.mirror) + [elem.id]
    ensures forall data: Data :: Ids(MirrorData(c.mirror, elem.id, data)) == Ids(c.mirror)
  {
  }

  predicate Splits(s: Sys, existed: bool) {
    !existed && |s.c.mirror| >= MAX_ELEMENTS
  }

  /** Leaving a full card: refused with the card still there, or done and without one. */
  lemma SealFields(o: Options, s: Sys)
    ensures s.c.messageId.None? ==> SealIntermediate(o, s) == Run(s, true)
    ensures s.c.messageId.Some? ==>
              var sealed := SealIntermediate(o, s);
              var r := sealed.s.c;
              && |sealed.s.w.messages| == |s.w.messages|
              && r.cardIds == s.c.cardIds && r.idSeq == s.c.idSeq && r.isSealed == s.c.isSealed && r.pending == s.c.pending
              && (if sealed.ok then r.messageId.None? && r.inflight.NoFlight? && r.mirror == []
                  else r.messageId == s.c.messageId && r.inflight == s.c.inflight && r.mirror == s.c.mirror)
  {
    hide TryPatch;
    var segment := if s.c.segmentIndex == 0 then "first" else "middle";
    var c0 := s.c.(segment := Some(segment), state := "done");
    PatchedFields(o, s, c0, SetState("done"));
    var done := TryPatch(o, s.(c := c0), SetState("done")).s;
    assert done.(c := done.c) == done;
    PatchedFields(o, done, done.c, SetSegment(segment));
  }

  /** Settling the card an element goes to: the object stays, is refused, loses its card, or moves to a new one. */
  lemma EnterFields(o: Options, s: Sys, existed: bool)
    ensures var e := EnterCard(o, s, existed);
            var r := e.s.c;
            && r.cardIds == s.c.cardIds && r.idSeq == s.c.idSeq && r.isSealed == s.c.isSealed && r.pending == s.c.pending
            && (e.ok ==> r.messageId.Some?)
            && (if s.c.messageId.None? then
                  r.inflight == s.c.inflight && r.mirror == s.c.mirror
                else if !Splits(s, existed) then e == Run(s, true)
                else if e.ok then
                  r.messageId == Some(|s.w.messages|) && r.inflight.NoFlight? && r.mirror == []
                else
                  || (r.messageId == s.c.messageId && r.inflight == s.c.inflight && r.mirror == s.c.mirror)
                  || (r.messageId.None? && r.inflight.NoFlight? && r.mirror == []))
  {
    SealFields(o, s);
    hide SealIntermediate;
  }

  lemma FlushFields(o: Options, s: Sys, elem: Elem)
    ensures var r := FlushPending(o, s, elem).s.c;
            && Ids(r.mirror) == Ids(s.c.mirror) && r.cardIds == s.c.cardIds && r.messageId == s.c.messageId
            && r.idSeq == s.c.idSeq && r.inflight == s.c.inflight && r.isSealed == s.c.isSealed
  {
    hide TryPatch;
    if elem.id in s.c.pending {
      var merged := elem.data + s.c.pending[elem.id];
      var c := s.c.(pending := s.c.pending - {elem.id}, mirror := MirrorData(s.c.mirror, elem.id, merged));
      PatchedFields(o, s, c, Update(elem.id, Some(merged)));
      ShadowIds(s.c, elem);
    }
  }

  /** After its card is settled an append job only files the element in the shadow. */
  lemma JobFields(o: Options, s: Sys, elem: Elem)
    ensures var existed := HasId(s.c.mirror, elem.id);
            var e := EnterCard(o, s, existed);
            var r := AppendJob(o, s, elem).s.c;
            && r.messageId == e.s.c.messageId && r.inflight == e.s.c.inflight && r.isSealed == e.s.c.isSealed && r.idSeq == e.s.c.idSeq
            && (!e.ok || existed ==> Ids(r.mirror) == Ids(e.s.c.mirror) && r.cardIds == e.s.c.cardIds)
            && (e.ok && !existed ==> Ids(r.mirror) == Ids(e.s.c.mirror) + [elem.id] && elem.id in r.cardIds)
  {
    EnterFields(o, s, HasId(s.c.mirror, elem.id));
    hide TryPatch, EnterCard, FlushPending;
    var existed := HasId(s.c.mirror, elem.id);
    var e := EnterCard(o, s, existed);
    if e.ok {
      var c := Shadow(e.s.c, elem, existed, e.s.c.messageId.value);
      var op := if existed then Update(elem.id, Some(elem.data)) else Append(Some(elem));
      PatchedFields(o, e.s, c, op);
      ShadowIds(e.s.c, elem);
      FlushFields(o, TryPatch(o, e.s.(c := c), op).s, elem);
    }
  }

  lemma UpdateFields(o: Options, s: Sys, id: string, data: Data)
    ensures var r := UpdateCall(o, s, id, data).s.c;
            && Ids(r.mirror) == Ids(s.c.mirror) && r.cardIds == s.c.cardIds && r.messageId == s.c.messageId
            && r.idSeq == s.c.idSeq && r.inflight == s.c.inflight && r.isSealed == s.c.isSealed
  {
    hide TryPatch, Send;
    if HasId(s.c.mirror, id) {
      var merged := s.c.mirror[IndexOf(s.c.mirror, id)].data + data;
      PatchedFields(o, s, s.c.(mirror := MirrorData(s.c.mirror, id, merged)), Update(id, Some(merged)));
      ShadowIds(s.c, Elem("", id, map[]));
    }
  }

  lemma FinishFields(o: Options, s: Sys, footer: Data)
    ensures var r := FinishFull(o, s, footer).s.c;
            && Ids(r.mirror) == Ids(s.c.mirror) + [ElementIds.FooterId(s.c.footerSeq + 1)]
            && r.cardIds == s.c.cardIds && r.messageId == s.c.messageId && r.idSeq == s.c.idSeq && r.inflight == s.c.inflight
    ensures var r := FinishEmpty(o, s).s.c;
            && r.mirror == s.c.mirror
            && r.cardIds == s.c.cardIds && r.messageId == s.c.messageId && r.idSeq == s.c.idSeq && r.inflight == s.c.inflight
  {
    hide TryPatch, FooterData, ElementIds.FooterId;
    PatchedFields(o, s, s.c.(state := "done"), SetState("done"));
    var elem := Elem("footer", ElementIds.FooterId(s.c.footerSeq + 1), FooterData(footer));
    var c1 := s.c.(footerSeq := s.c.footerSeq + 1, mirror := s.c.mirror + [elem]);
    PatchedFields(o, s, c1, Append(Some(elem)));
    ShadowIds(s.c, elem);
    var added := TryPatch(o, s.(c := c1), Append(Some(elem))).s;
    PatchedFields(o, added, added.c.(state := "done"), SetState("done"));
    var done := TryPatch(o, added.(c := added.c.(state := "done")), SetState("done")).s;
    assert done.(c := done.c) == done;
    PatchedFields(o, done, done.c, SetSilent(Some(false)));
  }
}
