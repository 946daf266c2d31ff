// When the server's card equals the shadow: a heal makes them equal whatever
// the server held, and a call that returns normally keeps them equal.

module CardSync {
  import opened Prelude
  import opened CardContent
  import opened Wire
  import opened CardSpec
  import opened CardFaults
  import ElementIds

  ghost predicate Same(card: Card, c: Client) {
    card.elements == c.mirror && card.state == c.state && card.segment == c.segment
  }

  /** The current card, unless it is recalled, is what the shadow says it is. */
  ghost predicate InSync(s: Sys) {
    Live(s.w, s.c.messageId) ==> Same(s.w.messages[s.c.messageId.value].card, s.c)
  }

  /** How many full replaces have been requested. */
  function Heals(log: seq<Sent>): nat {
    if log == [] then 0
    else Heals(log[..|log| - 1]) + if log[|log| - 1].request.Replace? then 1 else 0
  }

  lemma HealsSnoc(log: seq<Sent>, x: Sent)
    ensures Heals(log + [x]) == Heals(log) + if x.request.Replace? then 1 else 0
  {
    assert (log + [x])[..|log|] == log;
  }

  /** The shadow already holds what op, or its retry after a full replace, would do to it. */
  ghost predicate Absorbs(c: Client, op: Op) {
    var v := ApplyOp(ShadowCard(c), RetryOp(op));
    v.Accept? ==> Same(v.card, c)
  }

  /** op is the step from the shadow before to the shadow after. */
  ghost predicate Advances(before: Client, after: Client, op: Op) {
    var v := ApplyOp(ShadowCard(before), op);
    v.Accept? ==> Same(v.card, after)
  }

  /** What an op does to elements, state and segment does not depend on silent. */
  lemma ApplySame(card: Card, c: Client, op: Op)
    requires Same(card, c)
    ensures ApplyOp(card, op).Accept? <==> ApplyOp(ShadowCard(c), op).Accept?
    ensures ApplyOp(card, op).Accept? ==>
              var a, b := ApplyOp(card, op).card, ApplyOp(ShadowCard(c), op).card;
              a.elements == b.elements && a.state == b.state && a.segment == b.segment
  {
  }

  /** The first request of a tryPatch, when it is acknowledged. */
  lemma SendDirect(s: Sys, before: Client, op: Op)
    requires Live(s.w, s.c.messageId)
    requires Send(s.w, s.c.messageId, Delta(op)).ok
    requires Advances(before, s.c, op)
    ensures var w' := Send(s.w, s.c.messageId, Delta(op)).w;
            && Live(w', s.c.messageId)
            && (Same(s.w.messages[s.c.messageId.value].card, before) ==> Same(w'.messages[s.c.messageId.value].card, s.c))
            && Heals(w'.log) == Heals(s.w.log)
  {
    var x := SendShape(s.w, s.c.messageId, Delta(op));
    HealsSnoc(s.w.log, x);
    var card := s.w.messages[s.c.messageId.value].card;
    if Same(card, before) {
      ApplySame(card, before, op);
    }
  }

  /** Whatever the server held, an acknowledged full replace and retry leave it equal to the shadow. */
  lemma SendHeal(w: World, c: Client, op: Op)
    requires Live(w, c.messageId) && Absorbs(c, op)
    requires Send(w, c.messageId, Replace(ShadowCard(c))).ok
    requires Send(Send(w, c.messageId, Replace(ShadowCard(c))).w, c.messageId, Delta(RetryOp(op))).ok
    ensures var w' := Send(Send(w, c.messageId, Replace(ShadowCard(c))).w, c.messageId, Delta(RetryOp(op))).w;
            && Live(w', c.messageId)
            && Same(w'.messages[c.messageId.value].card, c)
            && Heals(w'.log) == Heals(w.log) + 1
            && w'.messages[c.messageId.value].card.silent ==
               if op.SetSilent? then op.silent else w.messages[c.messageId.value].card.silent
  {
    hide Send;
    var healed := Send(w, c.messageId, Replace(ShadowCard(c))).w;
    AppliedWhenOk(w, c.messageId, Replace(ShadowCard(c)));
    var card := healed.messages[c.messageId.value].card;
    assert Same(card, c) && card.silent == w.messages[c.messageId.value].card.silent;
    AppliedWhenOk(healed, c.messageId, Delta(RetryOp(op)));
    ApplySame(card, c, RetryOp(op));
    HealedSilent(card, op);
  }

  /** An acknowledged request has been applied. */
  lemma AppliedWhenOk(w: World, target: Option<nat>, r: Request)
    requires Send(w, target, r).ok
    ensures Live(w, target) && Live(Send(w, target, r).w, target)
    ensures var v := ApplyRequest(w.messages[target.value].card, r);
            v.Accept? && Send(w, target, r).w.messages[target.value].card == v.card
    ensures Heals(Send(w, target, r).w.log) == Heals(w.log) + if r.Replace? then 1 else 0
  {
    var x := SendShape(w, target, r);
    HealsSnoc(w.log, x);
    hide ApplyRequest;
  }

  lemma HealedSilent(card: Card, op: Op)
    requires ApplyOp(card, RetryOp(op)).Accept?
    ensures ApplyOp(card, RetryOp(op)).card.silent == if op.SetSilent? then op.silent else card.silent
  {
  }

  lemma SendKeepsLive(w: World, target: Option<nat>, r: Request)
    requires Live(w, target)
    ensures Live(Send(w, target, r).w, target)
    ensures r.Delta? ==> Heals(Send(w, target, r).w.log) == Heals(w.log)
  {
    var x := SendShape(w, target, r);
    HealsSnoc(w.log, x);
  }

  /** The heal branch of tryPatch: its first request was not acknowledged, yet it returned. */
  lemma HealConverges(o: Options, s: Sys, op: Op)
    requires Live(s.w, s.c.messageId) && Absorbs(s.c, op)
    requires !Send(s.w, s.c.messageId, Delta(op)).ok && TryPatch(o, s, op).ok
    ensures var r := TryPatch(o, s, op).s;
            && Live(r.w, r.c.messageId)
            && Same(r.w.messages[r.c.messageId.value].card, r.c)
            && r.c.failures == 0
            && o.selfHeal && s.c.failures >= 2
    ensures var r := TryPatch(o, s, op).s;
            var sent := Send(s.w, s.c.messageId, Delta(op)).w;
            r.w.messages[r.c.messageId.value].card.silent ==
            if op.SetSilent? then op.silent else sent.messages[s.c.messageId.value].card.silent
    ensures Heals(TryPatch(o, s, op).s.w.log) == Heals(s.w.log) + 1
  {
    hide Send;
    SendKeepsLive(s.w, s.c.messageId, Delta(op));
    var first := Send(s.w, s.c.messageId, Delta(op));
    SendHeal(first.w, s.c.(failures := s.c.failures + 1), op);
  }

  /** tryPatch that returns: in sync if it was in sync, and in sync if it healed. */
  lemma TryPatchSync(o: Options, s: Sys, before: Client, op: Op)
    requires Live(s.w, s.c.messageId)
    requires Advances(before, s.c, op) && Absorbs(s.c, op)
    requires TryPatch(o, s, op).ok
    ensures var r := TryPatch(o, s, op).s;
            && r.c == s.c.(failures := 0)
            && Live(r.w, r.c.messageId)
            && Heals(r.w.log) >= Heals(s.w.log)
            && (Same(s.w.messages[s.c.messageId.value].card, before) || Heals(r.w.log) > Heals(s.w.log) ==>
                  Same(r.w.messages[r.c.messageId.value].card, r.c))
  {
    if Send(s.w, s.c.messageId, Delta(op)).ok {
      SendDirect(s, before, op);
    } else {
      HealConverges(o, s, op);
    }
  }

  // ------------------------------------------------- what the ops stand for

  lemma UpdateAdvances(c: Client, after: Client, id: string, data: Data)
    requires Distinct(Ids(c.mirror))
    requires after.mirror == MirrorData(c.mirror, id, data)
    requires after.state == c.state && after.segment == c.segment
    ensures Advances(c, after, Update(id, Some(data))) && Absorbs(after, Update(id, Some(data)))
  {
    SetDataIsMirrorData(c.mirror, id, data);
    assert Ids(after.mirror) == Ids(c.mirror);
    SetDataIsMirrorData(after.mirror, id, data);
    assert MirrorData(after.mirror, id, data) == after.mirror;
  }

  lemma SetDataIsMirrorData(es: seq<Elem>, id: string, data: Data)
    requires Distinct(Ids(es))
    ensures SetData(es, id, data) == MirrorData(es, id, data)
  {
    var i := IndexOf(es, id);
    forall k | 0 <= k < |es| ensures SetData(es, id, data)[k] == MirrorData(es, id, data)[k] {
      if es[k].id == id {
        HasIdAt(es, k);
      }
    }
  }

  lemma AppendAdvances(c: Client, after: Client, e: Elem)
    requires after.mirror == c.mirror + [e] && Distinct(Ids(after.mirror))
    requires after.state == c.state && after.segment == c.segment
    ensures Advances(c, after, Append(Some(e))) && Absorbs(after, Append(Some(e)))
  {
    var n := |c.mirror|;
    HasIdAt(after.mirror, n);
    assert SetData(after.mirror, e.id, e.data) == after.mirror;
  }

  /** Re-appending keeps the server's type; the shadow takes the new one. */
  lemma ReappendAdvances(c: Client, after: Client, e: Elem)
    requires Distinct(Ids(c.mirror)) && HasId(c.mirror, e.id)
    requires c.mirror[IndexOf(c.mirror, e.id)].kind == e.kind
    requires after.mirror == MirrorElem(c.mirror, e)
    requires after.state == c.state && after.segment == c.segment
    ensures after.mirror == MirrorData(c.mirror, e.id, e.data)
    ensures Advances(c, after, Update(e.id, Some(e.data))) && Absorbs(after, Update(e.id, Some(e.data)))
  {
    forall k | 0 <= k < |c.mirror| ensures MirrorElem(c.mirror, e)[k] == MirrorData(c.mirror, e.id, e.data)[k] {
      HasIdAt(c.mirror, k);
    }
    UpdateAdvances(c, after, e.id, e.data);
  }

  // -------------------------------------------------------- call by call

  /** After a call or a part of one: in sync if it started in sync or healed on the way. */
  ghost predicate Kept(start: Sys, s: Sys) {
    && Heals(s.w.log) >= Heals(start.w.log)
    && (InSync(start) || Heals(s.w.log) > Heals(start.w.log) ==> InSync(s))
  }

  /** A patch addressed to a message that is gone never returns normally. */
  lemma DeadPatch(o: Options, s: Sys, op: Op)
    requires !Live(s.w, s.c.messageId)
    ensures !TryPatch(o, s, op).ok
    ensures !Live(TryPatch(o, s, op).s.w, s.c.messageId)
  {
    hide Send;
    DeadSend(s.w, s.c.messageId, Delta(op));
    var first := Send(s.w, s.c.messageId, Delta(op)).w;
    DeadSend(first, s.c.messageId, Replace(ShadowCard(s.c.(failures := s.c.failures + 1))));
  }

  lemma DeadSend(w: World, target: Option<nat>, r: Request)
    requires !Live(w, target)
    ensures !Send(w, target, r).ok && !Live(Send(w, target, r).w, target)
  {
  }

  lemma PatchKept(o: Options, start: Sys, before: Sys, after: Client, op: Op)
    requires Kept(start, before) && Live(before.w, before.c.messageId) && after.messageId == before.c.messageId
    requires Advances(before.c, after, op) && Absorbs(after, op)
    requires TryPatch(o, Sys(after, before.w), op).ok
    ensures var r := TryPatch(o, Sys(after, before.w), op).s;
            Kept(start, r) && r.c == after.(failures := 0) && Live(r.w, r.c.messageId)
  {
    hide TryPatch, Advances, Absorbs;
    TryPatchSync(o, Sys(after, before.w), before.c, op);
  }

  lemma CreateKept(start: Sys, s: Sys)
    requires Heals(s.w.log) >= Heals(start.w.log)
    requires s.c.messageId.None? && s.c.mirror == [] && CreateCard(s).ok
    ensures Kept(start, CreateCard(s).s)
    ensures Live(CreateCard(s).s.w, CreateCard(s).s.c.messageId)
  {
  }

  lemma EnsureKept(s: Sys)
    requires Sound(s)
    ensures var r := EnsureCard(s);
            && Sound(r.s) && Heals(r.s.w.log) == Heals(s.w.log)
            && (r.ok ==> Kept(s, r.s) && !r.s.c.isSealed)
  {
    EnsureCardSound(s);
    var c := if s.c.isSealed then ResetRound(s.c) else s.c;
    if c.messageId.None? && c.inflight == NoFlight && CreateCard(s.(c := c)).ok {
      CreateKept(s, s.(c := c));
    }
  }

  lemma MakeRoomKept(o: Options, start: Sys, s: Sys, existed: bool)
    requires Sound(s) && Kept(start, s) && !s.c.isSealed
    requires s.c.messageId.Some? ==> Live(s.w, s.c.messageId)
    requires MakeRoom(o, s, existed).ok
    ensures var r := MakeRoom(o, s, existed).s;
            && Kept(start, r) && !r.c.isSealed
            && (r.c.messageId.Some? ==> Live(r.w, r.c.messageId))
  {
    hide TryPatch;
    if !existed && |s.c.mirror| >= MAX_ELEMENTS {
      var segment := if s.c.segmentIndex == 0 then "first" else "middle";
      var c0 := s.c.(segment := Some(segment), state := "done");
      var s0 := s.(c := c0);
      TryPatchPlain(o, s0, SetState("done"));
      var done := TryPatch(o, s0, SetState("done"));
      TryPatchLive(o, s0, SetState("done"));
      TryPatchLive(o, done.s, SetSegment(segment));
    }
  }

  lemma TryPatchLive(o: Options, s: Sys, op: Op)
    requires Live(s.w, s.c.messageId)
    ensures Live(TryPatch(o, s, op).s.w, s.c.messageId)
    ensures TryPatch(o, s, op).s.c == s.c.(failures := TryPatch(o, s, op).s.c.failures)
    ensures Heals(TryPatch(o, s, op).s.w.log) >= Heals(s.w.log)
  {
    hide Send;
    SendKeepsLive(s.w, s.c.messageId, Delta(op));
    var first := Send(s.w, s.c.messageId, Delta(op));
    var r := Replace(ShadowCard(s.c.(failures := s.c.failures + 1)));
    SendKeepsLive(first.w, s.c.messageId, r);
    ReplaceHeals(first.w, s.c.messageId, r.card);
    SendKeepsLive(Send(first.w, s.c.messageId, r).w, s.c.messageId, Delta(RetryOp(op)));
  }

  lemma ReplaceHeals(w: World, target: Option<nat>, card: Card)
    ensures Heals(Send(w, target, Replace(card)).w.log) == Heals(w.log) + 1
  {
    var x := SendShape(w, target, Replace(card));
    HealsSnoc(w.log, x);
  }

  lemma EnterKept(o: Options, start: Sys, s: Sys, existed: bool)
    requires Sound(s) && Kept(start, s) && !s.c.isSealed
    requires s.c.messageId.Some? ==> Live(s.w, s.c.messageId)
    requires EnterCard(o, s, existed).ok
    ensures var r := EnterCard(o, s, existed).s;
            Kept(start, r) && !r.c.isSealed && Live(r.w, r.c.messageId) && Sound(r)
  {
    hide MakeRoom, Sound, Kept;
    MakeRoomSound(o, s, existed);
    MakeRoomKept(o, start, s, existed);
    EnterCardSound(o, s, existed);
    var room := MakeRoom(o, s, existed).s;
    if room.c.messageId.None? {
      EmptyWithoutCard(room, start);
      CreateKept(start, room);
    }
  }

  lemma EmptyWithoutCard(s: Sys, start: Sys)
    requires Sound(s) && Kept(start, s)
    ensures s.c.messageId.None? ==> s.c.mirror == []
    ensures Heals(s.w.log) >= Heals(start.w.log)
  {
  }

  lemma FlushKept(o: Options, start: Sys, s: Sys, elem: Elem)
    requires Sound(s) && Kept(start, s) && Live(s.w, s.c.messageId)
    requires FlushPending(o, s, elem).ok
    ensures Kept(start, FlushPending(o, s, elem).s)
    ensures Live(FlushPending(o, s, elem).s.w, FlushPending(o, s, elem).s.c.messageId)
  {
    hide TryPatch, Kept;
    if elem.id in s.c.pending {
      var merged := elem.data + s.c.pending[elem.id];
      var c := s.c.(pending := s.c.pending - {elem.id}, mirror := MirrorData(s.c.mirror, elem.id, merged));
      UpdateAdvances(s.c, c, elem.id, merged);
      PatchKept(o, start, s, c, Update(elem.id, Some(merged)));
    }
  }

  /** The element id names an element of the shadow of another type. */
  ghost predicate Retypes(c: Client, elem: Elem) {
    HasId(c.mirror, elem.id) && c.mirror[IndexOf(c.mirror, elem.id)].kind != elem.kind
  }

  lemma AppendJobKept(o: Options, start: Sys, s: Sys, elem: Elem)
    requires Sound(s) && Kept(start, s) && !s.c.isSealed && !IsFooter(elem) && !Retypes(s.c, elem)
    requires AppendJob(o, s, elem).ok
    ensures Kept(start, AppendJob(o, s, elem).s)
  {
    hide TryPatch, FlushPending, Kept, Advances, Absorbs;
    var existed := HasId(s.c.mirror, elem.id);
    if s.c.messageId.Some? {
      AppendNeedsCard(o, s, elem);
    }
    hide EnterCard;
    EnterKept(o, start, s, existed);
    EnterCardSound(o, s, existed);
    var carded := EnterCard(o, s, existed).s;
    var c1 := Shadow(carded.c, elem, existed, carded.c.messageId.value);
    var op := if existed then Update(elem.id, Some(elem.data)) else Append(Some(elem));
    if existed {
      ReappendAdvances(carded.c, c1, elem);
      assert Ids(c1.mirror) == Ids(carded.c.mirror);
      TryPatchPlain(o, carded.(c := c1), op);
    } else {
      HasIdIffInIds(s.c.mirror, elem.id);
      ShadowGrows(carded.c, elem);
      AppendAdvances(carded.c, c1, elem);
      assert c1.mirror[..|c1.mirror| - 1] == carded.c.mirror;
      TryPatchAppend(o, carded.(c := c1), elem);
    }
    PatchKept(o, start, carded, c1, op);
    FlushKept(o, start, TryPatch(o, carded.(c := c1), op).s, elem);
  }

  lemma AppendNeedsCard(o: Options, s: Sys, elem: Elem)
    requires AppendJob(o, s, elem).ok && s.c.messageId.Some?
    ensures Live(s.w, s.c.messageId)
  {
    hide TryPatch;
    if !Live(s.w, s.c.messageId) {
      var existed := HasId(s.c.mirror, elem.id);
      var segment := if s.c.segmentIndex == 0 then "first" else "middle";
      DeadPatch(o, s.(c := s.c.(segment := Some(segment), state := "done")), SetState("done"));
      DeadPatch(o, s.(c := Shadow(s.c, elem, existed, s.c.messageId.value)),
                if existed then Update(elem.id, Some(elem.data)) else Append(Some(elem)));
    }
  }

  ghost predicate IsFooter(elem: Elem) {
    ElementIds.IsFooterId(elem.id)
  }

  /** The call appends under the id of an element of the open card that has another type. */
  ghost predicate RetypesCall(s: Sys, call: Call) {
    call.AppendOf? && EnsureCard(s).ok && Retypes(EnsureCard(s).s.c, NewElem(EnsureCard(s).s.c, call.kind, call.data))
  }

  lemma AppendCallKept(o: Options, s: Sys, kind: string, data: Data)
    requires Sound(s) && NoFooterId(AppendOf(kind, data)) && !RetypesCall(s, AppendOf(kind, data))
    requires AppendCall(o, s, kind, data).ok
    ensures Kept(s, AppendCall(o, s, kind, data).s)
  {
    hide AppendJob, EnsureCard;
    EnsureKept(s);
    var ensured := EnsureCard(s).s;
    ElementIds.GeneratedFooterIds(kind, ensured.c.idSeq + 1);
    AppendJobKept(o, s, ensured.(c := TakeId(ensured.c, data)), NewElem(ensured.c, kind, data));
  }

  lemma UpdateCallKept(o: Options, s: Sys, id: string, data: Data)
    requires Sound(s)
    requires UpdateCall(o, s, id, data).ok
    ensures Kept(s, UpdateCall(o, s, id, data).s)
  {
    hide TryPatch, Send;
    if s.c.isSealed {
    } else if HasId(s.c.mirror, id) {
      var merged := s.c.mirror[IndexOf(s.c.mirror, id)].data + data;
      var c := s.c.(mirror := MirrorData(s.c.mirror, id, merged));
      if Live(s.w, s.c.messageId) {
        UpdateAdvances(s.c, c, id, merged);
        PatchKept(o, s, s, c, Update(id, Some(merged)));
      } else {
        DeadPatch(o, s.(c := c), Update(id, Some(merged)));
      }
    } else if id in s.c.cardIds && Some(s.c.cardIds[id]) != s.c.messageId {
      var x := SendShape(s.w, Some(s.c.cardIds[id]), Delta(Update(id, Some(data))));
      HealsSnoc(s.w.log, x);
    }
  }

  lemma FinishFullKept(o: Options, start: Sys, s: Sys, footer: Data)
    requires Sound(s) && Kept(start, s) && s.c.messageId.Some?
    requires FinishFull(o, s, footer).ok
    ensures Kept(start, FinishFull(o, s, footer).s)
  {
    hide TryPatch, Kept, Advances, Absorbs;
    var k := s.c.footerSeq + 1;
    var elem := Elem("footer", ElementIds.FooterId(k), FooterData(footer));
    var c1 := s.c.(footerSeq := k, mirror := s.c.mirror + [elem]);
    var op1 := Append(Some(elem));
    if !Live(s.w, s.c.messageId) {
      DeadPatch(o, s.(c := c1), op1);
    }
    FooterGrows(s.c, elem);
    AppendAdvances(s.c, c1, elem);
    PatchKept(o, start, s, c1, op1);
    var added := TryPatch(o, s.(c := c1), op1).s;
    var c2 := added.c.(state := "done");
    DoneAdvances(added.c, c2);
    PatchKept(o, start, added, c2, SetState("done"));
    var done := TryPatch(o, added.(c := c2), SetState("done")).s;
    SilentAdvances(done.c);
    PatchKept(o, start, done, done.c, SetSilent(Some(false)));
    KeptWhenSealed(start, TryPatch(o, done, SetSilent(Some(false))).s);
  }

  lemma DoneAdvances(c: Client, after: Client)
    requires after.mirror == c.mirror && after.state == "done" && after.segment == c.segment
    ensures Advances(c, after, SetState("done")) && Absorbs(after, SetState("done"))
  {
  }

  lemma SilentAdvances(c: Client)
    ensures Advances(c, c, SetSilent(Some(false))) && Absorbs(c, SetSilent(Some(false)))
  {
  }

  lemma KeptWhenSealed(start: Sys, s: Sys)
    requires Kept(start, s)
    ensures Kept(start, s.(c := s.c.(isSealed := true)))
  {
  }

  lemma FinishEmptyKept(o: Options, start: Sys, s: Sys)
    requires Kept(start, s) && s.c.messageId.Some?
    requires FinishEmpty(o, s).ok
    ensures Kept(start, FinishEmpty(o, s).s)
  {
    hide TryPatch;
    if !o.canRecall {
      var c := s.c.(state := "done");
      if !Live(s.w, s.c.messageId) {
        DeadPatch(o, s.(c := c), SetState("done"));
      }
      DoneAdvances(s.c, c);
      PatchKept(o, start, s, c, SetState("done"));
      KeptWhenSealed(start, TryPatch(o, s.(c := c), SetState("done")).s);
    }
  }

  lemma FinishCallKept(o: Options, s: Sys, footer: Data)
    requires Sound(s)
    requires FinishCall(o, s, footer).ok
    ensures Kept(s, FinishCall(o, s, footer).s)
  {
    hide FinishEmpty, FinishFull, EnsureCard;
    if !s.c.isSealed {
      EnsureKept(s);
      var ensured := EnsureCard(s).s;
      if ensured.c.messageId.Some? {
        if RecallEmptyCard(o, ensured.c) {
          FinishEmptyKept(o, s, ensured);
        } else {
          FinishFullKept(o, s, ensured, footer);
        }
      }
    }
  }

  // ---------------------------------------------------------- main results

  /** A call that returns normally leaves server and shadow in sync if they were, or if it had to heal. */
  lemma ReturningCallKeepsSync(o: Options, s: Sys, call: Call)
    requires Sound(s) && NoFooterId(call) && !RetypesCall(s, call)
    requires Perform(o, s, call).ok
    ensures var r := Perform(o, s, call).s;
            InSync(s) || Heals(r.w.log) > Heals(s.w.log) ==> InSync(r)
  {
    match call
    case AppendOf(kind, data) => AppendCallKept(o, s, kind, data);
    case UpdateOf(id, data) => UpdateCallKept(o, s, id, data);
    case FinishOf(footer) => FinishCallKept(o, s, footer);
    case InterruptOf => FinishCallKept(o, s, INTERRUPT_FOOTER);
  }

  /** How a drift begins: the first of fewer than three lost patches in a row. */
  lemma LostAppendDrifts(o: Options, s: Sys, elem: Elem)
    requires Live(s.w, s.c.messageId) && InSync(s) && NextOutcome(s.w).Lost?
    requires !HasId(s.c.mirror, elem.id) && |s.c.mirror| < MAX_ELEMENTS
    requires !o.selfHeal || s.c.failures < 2
    ensures var r := AppendJob(o, s, elem); !r.ok && !InSync(r.s) && r.s.c.failures == s.c.failures + 1
  {
    var c1 := Shadow(s.c, elem, false, s.c.messageId.value);
    assert |c1.mirror| == |s.c.mirror| + 1;
  }
}
