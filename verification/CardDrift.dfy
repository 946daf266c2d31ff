// When exactly a returning call leaves server and shadow equal: its first
// request was not acknowledged, so that it had to heal, or the two already
// agreed on everything the call does not overwrite.

module CardDrift {
  import opened Prelude
  import opened CardContent
  import opened Wire
  import opened CardSpec
  import opened CardFaults
  import opened CardSync
  import ElementIds

  // ------------------------------------------------- what can be checked first

  /** The server will take op, and its answer will arrive. */
  predicate Acked(s: Sys, op: Op) {
    NextOutcome(s.w).Delivered? && Live(s.w, s.c.messageId) && ApplyOp(s.w.messages[s.c.messageId.value].card, op).Accept?
  }

  /** The two lists agree, except that under id only the place and the given kind count. */
  ghost predicate AgreeBut(es: seq<Elem>, ms: seq<Elem>, id: string, kind: string) {
    && |es| == |ms|
    && forall k :: 0 <= k < |es| ==>
         if ms[k].id == id then es[k].id == id && es[k].kind == kind else es[k] == ms[k]
  }

  ghost predicate SameMarks(card: Card, c: Client) {
    card.state == c.state && card.segment == c.segment
  }

  /** The current card and the shadow agree on everything but the data under id. */
  ghost predicate SameBut(s: Sys, id: string, kind: string) {
    Live(s.w, s.c.messageId) ==>
      var card := s.w.messages[s.c.messageId.value].card;
      SameMarks(card, s.c) && AgreeBut(card.elements, s.c.mirror, id, kind)
  }

  /** The current card and the shadow agree on everything but the state. */
  ghost predicate SameButState(s: Sys) {
    Live(s.w, s.c.messageId) ==>
      var card := s.w.messages[s.c.messageId.value].card;
      card.elements == s.c.mirror && card.segment == s.c.segment
  }

  /** The state and op of the first patch a call sends to the current card. */
  datatype Patch = Patch(s: Sys, op: Op)

  function AppendPatch(o: Options, s: Sys, elem: Elem): Option<Patch> {
    var existed := HasId(s.c.mirror, elem.id);
    if !existed && |s.c.mirror| >= MAX_ELEMENTS && s.c.messageId.Some? then
      var segment := if s.c.segmentIndex == 0 then "first" else "middle";
      Some(Patch(s.(c := s.c.(segment := Some(segment), state := "done")), SetState("done")))
    else
      var e := EnterCard(o, s, existed).s;
      if e.c.messageId.None? then None
      else Some(Patch(e.(c := Shadow(e.c, elem, existed, e.c.messageId.value)),
                      if existed then Update(elem.id, Some(elem.data)) else Append(Some(elem))))
  }

  function FinishPatch(o: Options, s: Sys, footer: Data): Option<Patch> {
    if s.c.messageId.None? then None
    else if !RecallEmptyCard(o, s.c) then
      var elem := Elem("footer", ElementIds.FooterId(s.c.footerSeq + 1), FooterData(footer));
      Some(Patch(s.(c := s.c.(footerSeq := s.c.footerSeq + 1, mirror := s.c.mirror + [elem])), Append(Some(elem))))
    else if o.canRecall then None
    else Some(Patch(s.(c := s.c.(state := "done")), SetState("done")))
  }

  function FirstPatch(o: Options, s: Sys, call: Call): Option<Patch> {
    match call
    case AppendOf(kind, data) =>
      var e := EnsureCard(s);
      if !e.ok then None else AppendPatch(o, e.s.(c := TakeId(e.s.c, data)), NewElem(e.s.c, kind, data))
    case UpdateOf(id, data) =>
      if s.c.isSealed || !HasId(s.c.mirror, id) then None
      else
        var merged := s.c.mirror[IndexOf(s.c.mirror, id)].data + data;
        Some(Patch(s.(c := s.c.(mirror := MirrorData(s.c.mirror, id, merged))), Update(id, Some(merged))))
    case FinishOf(footer) => if s.c.isSealed || !EnsureCard(s).ok then None else FinishPatch(o, EnsureCard(s).s, footer)
    case InterruptOf => if s.c.isSealed || !EnsureCard(s).ok then None else FinishPatch(o, EnsureCard(s).s, INTERRUPT_FOOTER)
  }

  /** The first patch will not be acknowledged: a call that returns all the same has to heal. */
  predicate MustHeal(o: Options, s: Sys, call: Call) {
    var p := FirstPatch(o, s, call);
    p.Some? && !Acked(p.value.s, p.value.op)
  }

  /** The same for an element that joins the open card, or splits it. */
  ghost predicate EntryAgrees(s: Sys, elem: Elem) {
    if HasId(s.c.mirror, elem.id) then SameBut(s, elem.id, elem.kind)
    else |s.c.mirror| >= MAX_ELEMENTS || InSync(s)
  }

  predicate EntryHeals(o: Options, s: Sys, elem: Elem) {
    var p := AppendPatch(o, s, elem);
    p.Some? && !Acked(p.value.s, p.value.op)
  }

  /** Before the call the two already agree on all that the call does not overwrite or leave behind. */
  ghost predicate AgreesBefore(o: Options, s: Sys, call: Call) {
    match call
    case AppendOf(kind, data) =>
      s.c.isSealed || s.c.messageId.None? || EntryAgrees(s, NewElem(s.c, kind, data))
    case UpdateOf(id, _) =>
      if !s.c.isSealed && HasId(s.c.mirror, id) then SameBut(s, id, s.c.mirror[IndexOf(s.c.mirror, id)].kind) else InSync(s)
    case _ =>
      if s.c.isSealed then InSync(s)
      else s.c.messageId.None? || (RecallEmptyCard(o, s.c) && o.canRecall) || SameButState(s)
  }

  // --------------------------------------------------------- patches that return

  lemma AckedSend(s: Sys, op: Op)
    ensures Send(s.w, s.c.messageId, Delta(op)).ok <==> Acked(s, op)
    ensures Acked(s, op) ==>
              var w' := Send(s.w, s.c.messageId, Delta(op)).w;
              && Live(w', s.c.messageId)
              && w'.messages[s.c.messageId.value].card == ApplyOp(s.w.messages[s.c.messageId.value].card, op).card
              && Heals(w'.log) == Heals(s.w.log)
  {
    var x := SendShape(s.w, s.c.messageId, Delta(op));
    HealsSnoc(s.w.log, x);
  }

  /** A patch that returns was acknowledged at once, or healed. */
  lemma PatchReturns(o: Options, s: Sys, op: Op)
    requires TryPatch(o, s, op).ok
    ensures var r := TryPatch(o, s, op).s;
            && r.c == s.c.(failures := 0) && Live(r.w, r.c.messageId) && Live(s.w, s.c.messageId)
            && (Acked(s, op) ==>
                  r.w.messages[r.c.messageId.value].card == ApplyOp(s.w.messages[s.c.messageId.value].card, op).card
                  && Heals(r.w.log) == Heals(s.w.log))
            && (!Acked(s, op) ==>
                  && o.selfHeal && s.c.failures >= 2
                  && (Absorbs(s.c, op) ==> Same(r.w.messages[r.c.messageId.value].card, r.c)))
  {
    AckedSend(s, op);
    if !Live(s.w, s.c.messageId) {
      DeadPatch(o, s, op);
    }
    if Acked(s, op) {
      hide Send, ApplyOp, Absorbs;
    } else {
      TryPatchLive(o, s, op);
      if Absorbs(s.c, op) {
        HealConverges(o, s, op);
      }
      hide Send, ApplyOp, Absorbs;
    }
  }

  // ------------------------------------------------------------------ lists

  /** Writing the same data under id on both sides makes them equal exactly if they agreed around it. */
  lemma WrittenAlike(es: seq<Elem>, ms: seq<Elem>, elem: Elem)
    requires Distinct(Ids(es)) && Distinct(Ids(ms)) && HasId(es, elem.id) && HasId(ms, elem.id)
    ensures SetData(es, elem.id, elem.data) == MirrorElem(ms, elem) <==> AgreeBut(es, ms, elem.id, elem.kind)
  {
    var a, b := SetData(es, elem.id, elem.data), MirrorElem(ms, elem);
    SetDataIsMirrorData(es, elem.id, elem.data);
    assert forall k :: 0 <= k < |es| ==> a[k] == if es[k].id == elem.id then es[k].(data := elem.data) else es[k];
    if a == b {
      forall k | 0 <= k < |es|
        ensures if ms[k].id == elem.id then es[k].id == elem.id && es[k].kind == elem.kind else es[k] == ms[k]
      {
        assert a[k] == b[k];
      }
    }
    if AgreeBut(es, ms, elem.id, elem.kind) {
      forall k | 0 <= k < |es| ensures a[k] == b[k] {
        if ms[k].id != elem.id && es[k].id == elem.id {
          assert es[k] == ms[k];
        }
      }
    }
  }

  lemma DataIsElem(ms: seq<Elem>, id: string, data: Data)
    requires Distinct(Ids(ms)) && HasId(ms, id)
    ensures MirrorData(ms, id, data) == MirrorElem(ms, Elem(ms[IndexOf(ms, id)].kind, id, data))
  {
    forall k | 0 <= k < |ms| && ms[k].id == id ensures k == IndexOf(ms, id) {
      HasIdAt(ms, k);
    }
  }

  lemma AppendedAlike(es: seq<Elem>, ms: seq<Elem>, e: Elem)
    ensures es + [e] == ms + [e] <==> es == ms
  {
    if es + [e] == ms + [e] {
      assert es == (es + [e])[..|es|] && ms == (ms + [e])[..|ms|];
    }
  }

  /** Where both sides hold the same data under id, overwriting it hides no difference. */
  lemma RewriteInjective(es: seq<Elem>, ms: seq<Elem>, id: string, was: Data, data: Data)
    requires Distinct(Ids(es)) && Distinct(Ids(ms))
    requires forall e <- es :: e.id == id ==> e.data == was
    requires forall e <- ms :: e.id == id ==> e.data == was
    ensures SetData(es, id, data) == MirrorData(ms, id, data) <==> es == ms
  {
    SetDataIsMirrorData(es, id, data);
    var a, b := MirrorData(es, id, data), MirrorData(ms, id, data);
    if a == b {
      forall k | 0 <= k < |es| ensures es[k] == ms[k] {
        assert a[k] == b[k] && es[k] in es && ms[k] in ms;
      }
    }
  }

  // -------------------------------------------------------------- call by call

  /** The two lists of the current card. */
  ghost predicate DistinctHere(s: Sys)
    requires Live(s.w, s.c.messageId)
  {
    Distinct(Ids(s.w.messages[s.c.messageId.value].card.elements)) && Distinct(Ids(s.c.mirror))
  }

  lemma SoundDistinct(s: Sys)
    requires Sound(s) && Live(s.w, s.c.messageId)
    ensures DistinctHere(s)
    ensures forall id :: !HasId(s.c.mirror, id) ==> id !in Ids(s.w.messages[s.c.messageId.value].card.elements)
  {
    var m := s.c.messageId.value;
    SubsequenceDistinct(IdsAt(s.w, m), Ids(s.c.mirror));
    forall id | !HasId(s.c.mirror, id) ensures id !in IdsAt(s.w, m) {
      HasIdIffInIds(s.c.mirror, id);
    }
  }

  lemma UpdateSyncIff(o: Options, s: Sys, id: string, data: Data)
    requires Sound(s) && UpdateCall(o, s, id, data).ok
    ensures var r := UpdateCall(o, s, id, data).s;
            && (InSync(r) <==> MustHeal(o, s, UpdateOf(id, data)) || AgreesBefore(o, s, UpdateOf(id, data)))
            && (!MustHeal(o, s, UpdateOf(id, data)) ==> Heals(r.w.log) == Heals(s.w.log))
  {
    hide TryPatch, Absorbs, Sound;
    if !s.c.isSealed && HasId(s.c.mirror, id) {
      var k := IndexOf(s.c.mirror, id);
      var merged := s.c.mirror[k].data + data;
      var c := s.c.(mirror := MirrorData(s.c.mirror, id, merged));
      var op := Update(id, Some(merged));
      PatchReturns(o, s.(c := c), op);
      SoundDistinct(s);
      UpdateAdvances(s.c, c, id, merged);
      DataIsElem(s.c.mirror, id, merged);
      var es := s.w.messages[s.c.messageId.value].card.elements;
      if Acked(s.(c := c), op) {
        WrittenAlike(es, s.c.mirror, Elem(s.c.mirror[k].kind, id, merged));
      }
    } else if !s.c.isSealed && id in s.c.cardIds && Some(s.c.cardIds[id]) != s.c.messageId {
      var x := SendShape(s.w, Some(s.c.cardIds[id]), Delta(Update(id, Some(data))));
      HealsSnoc(s.w.log, x);
    }
  }

  /** The flush after a returning append: its patch is acknowledged, and it hides no difference. */
  lemma FlushIff(o: Options, s: Sys, elem: Elem)
    requires Live(s.w, s.c.messageId) && DistinctHere(s) && s.c.failures == 0
    requires forall e <- s.w.messages[s.c.messageId.value].card.elements :: e.id == elem.id ==> e.data == elem.data
    requires forall e <- s.c.mirror :: e.id == elem.id ==> e.data == elem.data
    requires FlushPending(o, s, elem).ok
    ensures var r := FlushPending(o, s, elem).s;
            && Live(r.w, r.c.messageId) && Heals(r.w.log) == Heals(s.w.log)
            && (InSync(r) <==> InSync(s))
  {
    hide TryPatch;
    if elem.id in s.c.pending {
      var merged := elem.data + s.c.pending[elem.id];
      var c := s.c.(pending := s.c.pending - {elem.id}, mirror := MirrorData(s.c.mirror, elem.id, merged));
      PatchReturns(o, s.(c := c), Update(elem.id, Some(merged)));
      RewriteInjective(s.w.messages[s.c.messageId.value].card.elements, s.c.mirror, elem.id, elem.data, merged);
    }
  }

  /** The element enters a card the object is on: first patch, then the flush. */
  lemma EnteredIff(o: Options, s: Sys, elem: Elem)
    requires Sound(s) && s.c.messageId.Some? && !IsFooter(elem)
    requires var existed := HasId(s.c.mirror, elem.id);
             var c1 := Shadow(s.c, elem, existed, s.c.messageId.value);
             var op := if existed then Update(elem.id, Some(elem.data)) else Append(Some(elem));
             var sent := TryPatch(o, s.(c := c1), op);
             sent.ok && FlushPending(o, sent.s, elem).ok
    ensures var existed := HasId(s.c.mirror, elem.id);
            var c1 := Shadow(s.c, elem, existed, s.c.messageId.value);
            var op := if existed then Update(elem.id, Some(elem.data)) else Append(Some(elem));
            var r := FlushPending(o, TryPatch(o, s.(c := c1), op).s, elem).s;
            && (InSync(r) <==> !Acked(s.(c := c1), op) || (if existed then SameBut(s, elem.id, elem.kind) else InSync(s)))
            && (Acked(s.(c := c1), op) ==> Heals(r.w.log) == Heals(s.w.log))
  {
    hide TryPatch, FlushPending, Absorbs, Sound;
    var existed := HasId(s.c.mirror, elem.id);
    var c1 := Shadow(s.c, elem, existed, s.c.messageId.value);
    var op := if existed then Update(elem.id, Some(elem.data)) else Append(Some(elem));
    var sent := TryPatch(o, s.(c := c1), op).s;
    PatchReturns(o, s.(c := c1), op);
    SoundDistinct(s);
    if existed {
      RewrittenEntry(o, s, elem, c1);
    } else {
      FreshEntry(o, s, elem, c1);
    }
    FlushIff(o, sent, elem);
  }

  lemma RewrittenEntry(o: Options, s: Sys, elem: Elem, c1: Client)
    requires Live(s.w, s.c.messageId) && DistinctHere(s) && HasId(s.c.mirror, elem.id)
    requires c1 == s.c.(mirror := MirrorElem(s.c.mirror, elem))
    requires TryPatch(o, s.(c := c1), Update(elem.id, Some(elem.data))).ok
    ensures var op := Update(elem.id, Some(elem.data));
            var r := TryPatch(o, s.(c := c1), op).s;
            && Live(r.w, r.c.messageId) && DistinctHere(r)
            && (forall e <- r.w.messages[r.c.messageId.value].card.elements :: e.id == elem.id ==> e.data == elem.data)
            && (forall e <- r.c.mirror :: e.id == elem.id ==> e.data == elem.data)
            && (InSync(r) <==> !Acked(s.(c := c1), op) || SameBut(s, elem.id, elem.kind))
  {
    hide TryPatch;
    var op := Update(elem.id, Some(elem.data));
    var es := s.w.messages[s.c.messageId.value].card.elements;
    assert Ids(c1.mirror) == Ids(s.c.mirror);
    RewriteAbsorbs(c1, elem);
    hide Absorbs;
    PatchReturns(o, s.(c := c1), op);
    if Acked(s.(c := c1), op) {
      WrittenAlike(es, s.c.mirror, elem);
      SetDataIsMirrorData(es, elem.id, elem.data);
      assert Ids(SetData(es, elem.id, elem.data)) == Ids(es);
    }
  }

  /** The shadow with elem in it absorbs the update that carries elem's data, whatever type the old element had. */
  lemma RewriteAbsorbs(c1: Client, elem: Elem)
    requires Distinct(Ids(c1.mirror)) && forall e <- c1.mirror :: e.id == elem.id ==> e.data == elem.data
    ensures Absorbs(c1, Update(elem.id, Some(elem.data)))
  {
    SetDataIsMirrorData(c1.mirror, elem.id, elem.data);
    forall k | 0 <= k < |c1.mirror| ensures MirrorData(c1.mirror, elem.id, elem.data)[k] == c1.mirror[k] {
      assert c1.mirror[k] in c1.mirror;
    }
    assert MirrorData(c1.mirror, elem.id, elem.data) == c1.mirror;
  }

  lemma FreshEntry(o: Options, s: Sys, elem: Elem, c1: Client)
    requires Live(s.w, s.c.messageId) && DistinctHere(s) && !HasId(s.c.mirror, elem.id)
    requires elem.id !in Ids(s.w.messages[s.c.messageId.value].card.elements)
    requires c1 == Shadow(s.c, elem, false, s.c.messageId.value)
    requires TryPatch(o, s.(c := c1), Append(Some(elem))).ok
    ensures var op := Append(Some(elem));
            var r := TryPatch(o, s.(c := c1), op).s;
            && Live(r.w, r.c.messageId) && DistinctHere(r)
            && (forall e <- r.w.messages[r.c.messageId.value].card.elements :: e.id == elem.id ==> e.data == elem.data)
            && (forall e <- r.c.mirror :: e.id == elem.id ==> e.data == elem.data)
            && (InSync(r) <==> !Acked(s.(c := c1), op) || InSync(s))
  {
    hide TryPatch;
    var op := Append(Some(elem));
    var es := s.w.messages[s.c.messageId.value].card.elements;
    HasIdIffInIds(s.c.mirror, elem.id);
    FreshList(es, elem);
    FreshList(s.c.mirror, elem);
    AppendAdvances(s.c, c1, elem);
    hide Absorbs, Advances;
    PatchReturns(o, s.(c := c1), op);
    AppendedAlike(es, s.c.mirror, elem);
  }

  lemma FreshList(es: seq<Elem>, e: Elem)
    requires Distinct(Ids(es)) && e.id !in Ids(es)
    ensures Distinct(Ids(es + [e]))
    ensures forall x <- es + [e] :: x.id == e.id ==> x.data == e.data
  {
    IdsConcat(es, [e]);
    forall x | x in es ensures x.id != e.id {
      var k :| 0 <= k < |es| && es[k] == x;
      assert Ids(es)[k] == x.id;
    }
  }

  /** The append job on an ensured card. */
  lemma JobSyncIff(o: Options, s: Sys, elem: Elem)
    requires Sound(s) && !s.c.isSealed && !IsFooter(elem) && AppendJob(o, s, elem).ok
    ensures var r := AppendJob(o, s, elem).s;
            && (InSync(r) <==> EntryHeals(o, s, elem) || s.c.messageId.None? || EntryAgrees(s, elem))
            && (!EntryHeals(o, s, elem) ==> Heals(r.w.log) == Heals(s.w.log))
  {
    hide TryPatch, FlushPending, Sound, SealIntermediate, CreateCard;
    var existed := HasId(s.c.mirror, elem.id);
    EnterCardSound(o, s, existed);
    var e := EnterCard(o, s, existed);
    if s.c.messageId.Some? && (existed || |s.c.mirror| < MAX_ELEMENTS) {
      assert e == Run(s, true);
      EnteredIff(o, s, elem);
    } else {
      NewCardEntered(o, s, existed);
      assert !HasId(e.s.c.mirror, elem.id);
      SoundFresh(s, e.s, existed);
      EnteredIff(o, e.s, elem);
      if s.c.messageId.Some? {
        var c1 := Shadow(e.s.c, elem, false, e.s.c.messageId.value);
        PatchReturns(o, e.s.(c := c1), Append(Some(elem)));
      }
    }
  }

  lemma SoundFresh(s: Sys, e: Sys, existed: bool)
    requires Sound(s)
    ensures s.c.messageId.None? ==> s.c.mirror == []
  {
  }

  /** A card entered by creation is new: empty, live and in sync; splitting heals with its first patch if at all. */
  lemma NewCardEntered(o: Options, s: Sys, existed: bool)
    requires Sound(s) && EnterCard(o, s, existed).ok
    requires s.c.messageId.None? || (!existed && |s.c.mirror| >= MAX_ELEMENTS)
    ensures var e := EnterCard(o, s, existed).s;
            && e.c.mirror == [] && Live(e.w, e.c.messageId) && InSync(e)
            && (s.c.messageId.None? ==> Heals(e.w.log) == Heals(s.w.log))
            && (s.c.messageId.Some? ==> e.c.failures == 0)
    ensures s.c.messageId.Some? ==>
              var segment := if s.c.segmentIndex == 0 then "first" else "middle";
              var s0 := s.(c := s.c.(segment := Some(segment), state := "done"));
              Acked(s0, SetState("done")) ==> Heals(EnterCard(o, s, existed).s.w.log) == Heals(s.w.log)
  {
    hide TryPatch;
    if s.c.messageId.Some? {
      var segment := if s.c.segmentIndex == 0 then "first" else "middle";
      var s0 := s.(c := s.c.(segment := Some(segment), state := "done"));
      PatchReturns(o, s0, SetState("done"));
      PatchReturns(o, TryPatch(o, s0, SetState("done")).s, SetSegment(segment));
    }
  }

  lemma AppendSyncIff(o: Options, s: Sys, kind: string, data: Data)
    requires Sound(s) && NoFooterId(AppendOf(kind, data)) && AppendCall(o, s, kind, data).ok
    ensures var call := AppendOf(kind, data);
            var r := AppendCall(o, s, kind, data).s;
            && (InSync(r) <==> MustHeal(o, s, call) || AgreesBefore(o, s, call))
            && (!MustHeal(o, s, call) ==> Heals(r.w.log) == Heals(s.w.log))
  {
    EnsureKept(s);
    EnsureShape(s);
    hide AppendJob, EnsureCard, AppendPatch, Sound, EntryAgrees, Acked, Kept, InSync;
    var ensured := EnsureCard(s).s;
    var elem := NewElem(ensured.c, kind, data);
    ElementIds.GeneratedFooterIds(kind, ensured.c.idSeq + 1);
    SoundIgnoresIds(ensured, data);
    EntryIgnoresIds(ensured, elem, data);
    JobSyncIff(o, ensured.(c := TakeId(ensured.c, data)), elem);
  }

  lemma EntryIgnoresIds(s: Sys, elem: Elem, data: Data)
    ensures var s1 := s.(c := TakeId(s.c, data));
            && (EntryAgrees(s1, elem) <==> EntryAgrees(s, elem))
            && (s.c.mirror == [] && InSync(s) ==> EntryAgrees(s, elem))
  {
    hide ExplicitId;
  }

  lemma SoundIgnoresIds(s: Sys, data: Data)
    requires Sound(s)
    ensures Sound(s.(c := TakeId(s.c, data)))
  {
    hide ExplicitId;
  }

  /** ensureCard leaves an open card alone, and otherwise a new one in sync. */
  lemma EnsureShape(s: Sys)
    requires Sound(s) && EnsureCard(s).ok
    ensures var e := EnsureCard(s).s;
            && (!s.c.isSealed && s.c.messageId.Some? ==> e == s)
            && (s.c.isSealed || s.c.messageId.None? ==> InSync(e) && e.c.mirror == [])
  {
  }

  lemma FinishFullSyncIff(o: Options, s: Sys, footer: Data)
    requires Sound(s) && s.c.messageId.Some? && FinishFull(o, s, footer).ok
    ensures var elem := Elem("footer", ElementIds.FooterId(s.c.footerSeq + 1), FooterData(footer));
            var s1 := s.(c := s.c.(footerSeq := s.c.footerSeq + 1, mirror := s.c.mirror + [elem]));
            var r := FinishFull(o, s, footer).s;
            && (InSync(r) <==> !Acked(s1, Append(Some(elem))) || SameButState(s))
            && (Acked(s1, Append(Some(elem))) ==> Heals(r.w.log) == Heals(s.w.log))
  {
    hide TryPatch, Absorbs, Sound, FooterData, ElementIds.FooterId;
    var elem := Elem("footer", ElementIds.FooterId(s.c.footerSeq + 1), FooterData(footer));
    var s1 := s.(c := s.c.(footerSeq := s.c.footerSeq + 1, mirror := s.c.mirror + [elem]));
    FooterAbsorbed(s, elem, s1.c);
    PatchReturns(o, s1, Append(Some(elem)));
    var added := TryPatch(o, s1, Append(Some(elem))).s;
    var s2 := added.(c := added.c.(state := "done"));
    PatchReturns(o, s2, SetState("done"));
    PatchReturns(o, TryPatch(o, s2, SetState("done")).s, SetSilent(Some(false)));
    AppendedAlike(s.w.messages[s.c.messageId.value].card.elements, s.c.mirror, elem);
  }

  lemma FooterAbsorbed(s: Sys, elem: Elem, c1: Client)
    requires Sound(s) && elem.id == ElementIds.FooterId(s.c.footerSeq + 1)
    requires c1 == s.c.(footerSeq := s.c.footerSeq + 1, mirror := s.c.mirror + [elem])
    ensures Absorbs(c1, Append(Some(elem)))
  {
    FooterGrows(s.c, elem);
    AppendAdvances(s.c, c1, elem);
  }

  lemma FinishSyncIff(o: Options, s: Sys, footer: Data)
    requires Sound(s) && FinishCall(o, s, footer).ok
    ensures var call := FinishOf(footer);
            var r := FinishCall(o, s, footer).s;
            && (InSync(r) <==> MustHeal(o, s, call) || AgreesBefore(o, s, call))
            && (!MustHeal(o, s, call) ==> Heals(r.w.log) == Heals(s.w.log))
  {
    hide FinishFull, FinishEmpty, EnsureCard, Sound;
    if !s.c.isSealed {
      EnsureKept(s);
      EnsureShape(s);
      var ensured := EnsureCard(s).s;
      if ensured.c.messageId.Some? {
        if RecallEmptyCard(o, ensured.c) {
          FinishEmptySyncIff(o, ensured);
        } else {
          FinishFullSyncIff(o, ensured, footer);
        }
      }
    }
  }

  lemma FinishEmptySyncIff(o: Options, s: Sys)
    requires s.c.messageId.Some? && FinishEmpty(o, s).ok
    ensures var r := FinishEmpty(o, s).s;
            var s1 := s.(c := s.c.(state := "done"));
            && (o.canRecall ==> InSync(r) && Heals(r.w.log) == Heals(s.w.log))
            && (!o.canRecall ==>
                  && (InSync(r) <==> !Acked(s1, SetState("done")) || SameButState(s))
                  && (Acked(s1, SetState("done")) ==> Heals(r.w.log) == Heals(s.w.log)))
  {
    if !o.canRecall {
      hide TryPatch, Absorbs;
      var s1 := s.(c := s.c.(state := "done"));
      DoneAdvances(s.c, s1.c);
      PatchReturns(o, s1, SetState("done"));
    }
  }

  // ------------------------------------------------------------ main results

  /**
   * Every returning call, in every state: server and shadow are equal
   * afterwards exactly if its first patch cannot be acknowledged, so that it
   * heals, or they agreed before on all the call does not overwrite or leave.
   */
  lemma ReturningCallSyncIff(o: Options, s: Sys, call: Call)
    requires Sound(s) && NoFooterId(call) && Perform(o, s, call).ok
    ensures InSync(Perform(o, s, call).s) <==> MustHeal(o, s, call) || AgreesBefore(o, s, call)
    ensures Heals(Perform(o, s, call).s.w.log) > Heals(s.w.log) ==> MustHeal(o, s, call)
  {
    hide AppendCall, UpdateCall, FinishCall, MustHeal, AgreesBefore;
    match call {
      case AppendOf(kind, data) => AppendSyncIff(o, s, kind, data);
      case UpdateOf(id, data) => UpdateSyncIff(o, s, id, data);
      case FinishOf(footer) => FinishSyncIff(o, s, footer);
      case InterruptOf =>
        FinishSyncIff(o, s, INTERRUPT_FOOTER);
        InterruptIsFinish(o, s);
    }
  }

  lemma InterruptIsFinish(o: Options, s: Sys)
    ensures MustHeal(o, s, InterruptOf) <==> MustHeal(o, s, FinishOf(INTERRUPT_FOOTER))
    ensures AgreesBefore(o, s, InterruptOf) <==> AgreesBefore(o, s, FinishOf(INTERRUPT_FOOTER))
  {
  }

  /** The same at every point of every run, under every pattern of failures. */
  lemma RunSyncIff(o: Options, faults: seq<Outcome>, t: Trace, i: nat)
    requires IsTrace(o, NewSys(faults), t) && NoFooterIds(t.calls) && i < |t.calls| && t.oks[i]
    ensures InSync(t.states[i + 1]) <==> MustHeal(o, t.states[i], t.calls[i]) || AgreesBefore(o, t.states[i], t.calls[i])
  {
    hide Perform, Sound, InSync, MustHeal, AgreesBefore;
    RunSound(o, faults, t, i);
    assert StepAt(o, t, i);
    ReturningCallSyncIff(o, t.states[i], t.calls[i]);
  }

  /** A call that had to heal leaves the two in sync, however far they had drifted apart. */
  lemma HealedRunIsInSync(o: Options, faults: seq<Outcome>, t: Trace, i: nat)
    requires IsTrace(o, NewSys(faults), t) && NoFooterIds(t.calls) && i < |t.calls| && t.oks[i]
    requires Heals(t.states[i + 1].w.log) > Heals(t.states[i].w.log)
    ensures InSync(t.states[i + 1])
  {
    hide Perform, Sound, InSync, MustHeal, AgreesBefore;
    RunSound(o, faults, t, i);
    assert StepAt(o, t, i);
    ReturningCallSyncIff(o, t.states[i], t.calls[i]);
  }
}
