// Which messages the plugin touches: only the card in use, and it leaves none
// open behind it. Delivered calls, any signals.

module HermesMoves {
  import opened Prelude
  import opened CardContent
  import opened ElementIds
  import opened Wire
  import opened CardSpec
  import opened HermesSpec
  import opened HermesMirror
  import opened HermesSettle
  import opened HermesFinish
  import opened HermesShadow
  import opened HermesEvents
  import opened HermesRun
  import CardFaults
  import CardFaultFree
  import CardSplit

  // ------------------------------------------------------------------ relation

  /** The card in use: none between cards. */
  function CardInUse(h: Session): Option<nat> {
    if h.elements == [] then None else h.cardMsgId
  }

  ghost predicate Closed(message: Message) {
    message.recalled || message.card.state == "done"
  }

  /** From one store and card in use to the next: only the card in use was changed, and a card is closed when it is left. */
  ghost predicate Moves(w: World, cur: Option<nat>, w': World, cur': Option<nat>) {
    && |w.messages| <= |w'.messages|
    && (forall m :: 0 <= m < |w.messages| && cur != Some(m) ==> w'.messages[m] == w.messages[m])
    && (cur' == cur || cur'.None? || cur'.value >= |w.messages|)
    && (forall m :: 0 <= m < |w'.messages| && (cur == Some(m) || m >= |w.messages|) && cur' != Some(m) ==> Closed(w'.messages[m]))
  }

  lemma MovesTrans(w1: World, c1: Option<nat>, w2: World, c2: Option<nat>, w3: World, c3: Option<nat>)
    requires Moves(w1, c1, w2, c2) && Moves(w2, c2, w3, c3)
    requires c1.Some? ==> c1.value < |w1.messages|
    ensures Moves(w1, c1, w3, c3)
  {
  }

  lemma MovesRefl(w: World, cur: Option<nat>)
    ensures Moves(w, cur, w, cur)
  {
  }

  predicate IsQuestion(e: Elem) {
    e.kind == "permission_card"
  }

  /** The message is there, not recalled, and has an element called id. */
  ghost predicate HeldAt(w: World, m: nat, id: string) {
    Live(w, Some(m)) && HasId(w.messages[m].card.elements, id)
  }

  /** No approval of the card in use gets lost: it stays on the list, or on the card that was left. */
  ghost predicate Keeps(cur: Option<nat>, es: seq<Elem>, w': World, cur': Option<nat>, es': seq<Elem>) {
    cur.Some? ==> forall e <- es :: IsQuestion(e) ==> if cur' == cur then e in es' else HeldAt(w', cur.value, e.id)
  }

  lemma KeepsTrans(w1: World, c1: Option<nat>, es1: seq<Elem>, w2: World, c2: Option<nat>, es2: seq<Elem>,
                   w3: World, c3: Option<nat>, es3: seq<Elem>)
    requires Moves(w1, c1, w2, c2) && Moves(w2, c2, w3, c3) && (c1.Some? ==> c1.value < |w1.messages|)
    requires Keeps(c1, es1, w2, c2, es2) && Keeps(c2, es2, w3, c3, es3)
    ensures Keeps(c1, es1, w3, c3, es3)
  {
  }

  // ---------------------------------------------------------- one card at most

  /** Nothing but message m has changed. */
  ghost predicate OnlyAt(w: World, w': World, m: nat) {
    |w'.messages| == |w.messages| && forall k :: 0 <= k < |w.messages| && k != m ==> w'.messages[k] == w.messages[k]
  }

  lemma SendOnly(w: World, m: nat, r: Request)
    ensures OnlyAt(w, Send(w, Some(m), r).w, m)
  {
    var x := CardFaults.SendShape(w, Some(m), r);
  }

  lemma TryPatchOnly(o: Options, s: Sys, m: nat, op: Op)
    requires s.c.messageId == Some(m)
    ensures OnlyAt(s.w, TryPatch(o, s, op).s.w, m)
  {
    hide Send;
    SendOnly(s.w, m, Delta(op));
    var first := Send(s.w, Some(m), Delta(op)).w;
    var r := Replace(ShadowCard(s.c.(failures := s.c.failures + 1)));
    SendOnly(first, m, r);
    SendOnly(Send(first, Some(m), r).w, m, Delta(RetryOp(op)));
  }

  lemma UpdateOnly(h: Session, m: nat, id: string, data: Data)
    requires Attached(h, m) && HasId(h.elements, id)
    ensures OnlyAt(h.s.w, UpdateElement(h, id, data).s.w, m)
  {
    hide TryPatch, HasId, MirrorData;
    SameUnder(h.elements, h.s.c.mirror, h.seqNo, id);
    var merged := h.s.c.mirror[IndexOf(h.s.c.mirror, id)].data + data;
    TryPatchOnly(OPTIONS, h.s.(c := h.s.c.(mirror := MirrorData(h.s.c.mirror, id, merged))), m, Update(id, Some(merged)));
  }

  lemma DirectOnly(h: Session, m: nat, op: Op)
    ensures OnlyAt(h.s.w, DirectPatch(h, Some(m), op).s.w, m)
  {
    hide Send;
    SendOnly(h.s.w, m, Delta(op));
  }

  lemma InShadow(es: seq<Elem>, k: nat)
    requires k < |es|
    ensures HasId(es, es[k].id)
  {
    HasIdAt(es, k);
  }

  lemma SettleOneOnly(h: Session, m: nat, e: Elem)
    requires Attached(h, m) && e in h.elements
    ensures OnlyAt(h.s.w, SettleOne(h, e).s.w, m)
  {
    hide UpdateElement, DirectPatch, Attached, Blank;
    OwnerOf(h, m, e);
    var k :| 0 <= k < |h.elements| && h.elements[k] == e;
    InShadow(h.elements, k);
    DirectOnly(h, m, Remove(e.id));
    UpdateOnly(h, m, e.id, e.data["finished" := Bool(true)]);
    UpdateOnly(h, m, e.id, e.data + INTERRUPTED);
  }

  lemma {:induction false} SettleOnly(h: Session, m: nat, i: nat)
    requires Attached(h, m) && i <= |h.elements|
    ensures OnlyAt(h.s.w, SettleAll(h, h.elements[..i]).s.w, m)
  {
    hide Attached, SettleOne, Settled, SettledAll, SettleAll;
    SettleUnfolds(h, i);
    if i > 0 {
      SettleOnly(h, m, i - 1);
      SettleKeeps(h, m, i - 1);
      var before := SettleAll(h, h.elements[..i - 1]);
      assert h.elements[i - 1] == h.elements[i - 1..][0];
      assert h.elements[i - 1] in before.elements;
      SettleOneOnly(before, m, h.elements[i - 1]);
    }
  }

  lemma {:induction false} FailOnly(h: Session, m: nat, i: nat)
    requires Open(h, m) && i <= |h.elements|
    ensures OnlyAt(h.s.w, FailTools(h, h.elements[..i]).s.w, m)
  {
    hide Attached, UpdateElement, FailTools;
    FailUnfolds(h, i);
    AttachedCard(h, m);
    if i > 0 {
      FailOnly(h, m, i - 1);
      FailToolsKeeps(h, i - 1);
      var before := FailTools(h, h.elements[..i - 1]);
      var e := h.elements[i - 1];
      assert before.elements[i - 1] == e;
      InShadow(before.elements, i - 1);
      UpdateOnly(before, m, e.id, e.data + INTERRUPTED);
    }
  }

  // -------------------------------------------------------------- new elements

  lemma FitsOnly(h: Session, m: nat, elem: Elem)
    requires Attached(h, m) && Plain(elem.data) && |h.s.c.mirror| < MAX_ELEMENTS && !HasId(h.s.c.mirror, elem.id)
    ensures OnlyAt(h.s.w, PlaceElement(h, elem).s.w, m)
  {
    hide AppendCall, AppendJob, Mirrors, Filed, SplitsSettled;
    AppendCallOpen(h.s, elem);
    CardSplit.FitsEffect(OPTIONS, h.s, elem, m);
  }

  /** A split closes card m and opens the next one. */
  lemma SplitMoves(h: Session, m: nat, elem: Elem)
    requires Attached(h, m) && Plain(elem.data) && |h.s.c.mirror| >= MAX_ELEMENTS && !HasId(h.s.c.mirror, elem.id)
    ensures var w' := PlaceElement(h, elem).s.w;
            var n := |h.s.w.messages|;
            && |w'.messages| == n + 1 && m < n && w'.messages[m].card.state == "done" && !w'.messages[m].recalled
            && forall k :: 0 <= k < n && k != m ==> w'.messages[k] == h.s.w.messages[k]
  {
    hide AppendCall, AppendJob, Mirrors, Filed, SplitsSettled, CardSplit.LeftBehind;
    AppendCallOpen(h.s, elem);
    CardSplit.SplitEffect(OPTIONS, h.s, elem, m);
    CardSplit.LeftBehindShape(h.s.w, m, if h.s.c.segmentIndex == 0 then "first" else "middle");
  }

  lemma OpensMoves(h: Session, elem: Elem)
    requires Idle(h) && Plain(elem.data)
    ensures var w' := PlaceElement(h, elem).s.w;
            |w'.messages| == |h.s.w.messages| + 1 && forall k :: 0 <= k < |h.s.w.messages| ==> w'.messages[k] == h.s.w.messages[k]
  {
    hide AppendCall, AppendJob, SplitsSettled;
    var n := |h.s.w.messages|;
    var c := NewClient.(failures := h.s.c.failures, messageId := Some(n), inflight := Landed);
    var w := h.s.w.(messages := h.s.w.messages + [Message(EmptyCard(None), false)]);
    AppendCallIdle(h.s, elem);
    CardSplit.FitsEffect(OPTIONS, Sys(c, w), elem, n);
  }

  /** A new element joins the card in use if that has room, and otherwise opens the next message. */
  ghost predicate Lands(h: Session, h': Session) {
    && Moves(h.s.w, CardInUse(h), h'.s.w, CardInUse(h'))
    && Keeps(CardInUse(h), h.elements, h'.s.w, CardInUse(h'), h'.elements)
    && CardInUse(h') == (if h.elements == [] || |h.elements| >= MAX_ELEMENTS then Some(|h.s.w.messages|) else CardInUse(h))
  }

  lemma IdleLands(h: Session, elem: Elem)
    requires Idle(h) && Plain(elem.data) && IsNamed(elem.id, h.seqNo)
    ensures Lands(h, AppendElement(h, elem.kind, elem.data, elem.id))
  {
    hide PlaceElement, Attached, Settle, IsNamed;
    AppendOpens(h, elem);
    OpensMoves(h, elem);
  }

  lemma CardLands(h: Session, m: nat, elem: Elem)
    requires Open(h, m) && Plain(elem.data) && IsNamed(elem.id, h.seqNo)
    requires !HasId(h.s.c.mirror, elem.id) && !HasId(h.elements, elem.id)
    ensures Lands(h, AppendElement(h, elem.kind, elem.data, elem.id))
  {
    hide AppendElement, Attached, IsNamed, HasId, Plain;
    AttachedCard(h, m);
    CardOf(h, m);
    if |h.elements| < MAX_ELEMENTS {
      PlacesDirectly(h, elem);
      AppendFits(h, m, elem);
      FitsOnly(h, m, elem);
    } else {
      SplitStores(h, m, elem);
      SplitKeeps(h, m, elem);
      SettledQuestions(h.elements, true);
      HeldQuestions(AppendElement(h, elem.kind, elem.data, elem.id).s.w, m, h.elements);
    }
  }

  /** Settling leaves approvals alone. */
  lemma {:induction false} SettledQuestions(es: seq<Elem>, active: bool)
    ensures forall e <- es :: IsQuestion(e) ==> e in SettledAll(es, active)
  {
    hide Blank;
    if es != [] {
      SettledQuestions(es[..|es| - 1], active);
    }
  }

  lemma HeldQuestions(w: World, m: nat, es: seq<Elem>)
    requires Live(w, Some(m)) && forall e <- es :: IsQuestion(e) ==> e in w.messages[m].card.elements
    ensures forall e <- es :: IsQuestion(e) ==> HeldAt(w, m, e.id)
  {
    forall e | e in es && IsQuestion(e) ensures HeldAt(w, m, e.id) {
      var left := w.messages[m].card.elements;
      var k :| 0 <= k < |left| && left[k] == e;
      HasIdAt(left, k);
    }
  }

  lemma PlacesDirectly(h: Session, elem: Elem)
    requires !h.finalized && |h.elements| < MAX_ELEMENTS
    ensures AppendElement(h, elem.kind, elem.data, elem.id) == PlaceElement(h, elem)
  {
    hide PlaceElement, Settle, HasId;
  }

  /** What a split does to the messages: the full card is done, one is added, the others are as they were. */
  lemma SplitStores(h: Session, m: nat, elem: Elem)
    requires Open(h, m) && |h.elements| >= MAX_ELEMENTS && Plain(elem.data)
    requires !HasId(h.elements, elem.id) && !HasId(h.s.c.mirror, elem.id)
    ensures var w' := AppendElement(h, elem.kind, elem.data, elem.id).s.w;
            var n := |h.s.w.messages|;
            && |w'.messages| == n + 1 && m < n && w'.messages[m].card.state == "done" && !w'.messages[m].recalled
            && forall k :: 0 <= k < n && k != m ==> w'.messages[k] == h.s.w.messages[k]
  {
    hide PlaceElement, Attached, SettleAll, HasId, Plain;
    var es := h.elements;
    assert es[..|es|] == es;
    SettleOnly(h, m, |es|);
    SettleKeeps(h, m, |es|);
    FreshAfter(h, Settle(h), m, elem.id);
    SameLengths(h, Settle(h));
    SplitMoves(Settle(h), m, elem);
  }

  lemma AppendNewLands(h: Session, kind: string, data: Data)
    requires Ready(h) && Plain(data)
    ensures Lands(h, AppendNew(h, kind, data))
  {
    hide AppendElement, Ready, Idle, Open, NextId, HasId, IsNamed, Plain, Moves;
    var h1 := h.(seqNo := h.seqNo + 1);
    var elem := Elem(kind, NextId(kind, h1.seqNo), data);
    Renumbered(h, kind);
    if h.elements == [] {
      IdleLands(h1, elem);
    } else {
      CardLands(h1, h.cardMsgId.value, elem);
    }
  }

  // -------------------------------------------------------------------- events

  /** The id was on the card in use before, and that is still in use, or its number is new to the session. */
  ghost predicate KnownOrNew(h: Session, h': Session, id: string) {
    || (CardInUse(h') == CardInUse(h) && HasId(h.elements, id))
    || exists kind: string, k: nat :: h.seqNo < k <= h'.seqNo && id == NextId(kind, k)
  }

  /** Numbers only grow, and no other id appears. */
  ghost predicate Numbered(h: Session, h': Session) {
    h.seqNo <= h'.seqNo && forall e <- h'.elements :: KnownOrNew(h, h', e.id)
  }

  /** One step of the session, from one Ready session to the next. */
  ghost predicate Follows(h: Session, h': Session) {
    && Moves(h.s.w, CardInUse(h), h'.s.w, CardInUse(h')) && Numbered(h, h')
    && Keeps(CardInUse(h), h.elements, h'.s.w, CardInUse(h'), h'.elements)
  }

  lemma SameFollows(h: Session)
    ensures Follows(h, h)
  {
    SameIdsNumbered(h, h);
  }

  lemma SameIdsNumbered(h: Session, h': Session)
    requires h'.seqNo == h.seqNo && CardInUse(h') == CardInUse(h)
    requires forall e <- h'.elements :: e.id in Ids(h.elements)
    ensures Numbered(h, h')
    ensures forall e <- h.elements :: e.id in Ids(h.elements)
  {
    hide NextId;
    forall e | e in h'.elements ensures KnownOrNew(h, h', e.id) {
      HasIdIffInIds(h.elements, e.id);
    }
    IdsOf(h.elements);
  }

  lemma IdsOf(es: seq<Elem>)
    ensures forall e <- es :: e.id in Ids(es)
  {
    forall e | e in es ensures e.id in Ids(es) {
      var k :| 0 <= k < |es| && es[k] == e;
      assert Ids(es)[k] == e.id;
    }
  }

  lemma NumberedTrans(a: Session, b: Session, c: Session)
    requires Numbered(a, b) && Numbered(b, c)
    ensures Numbered(a, c)
  {
    hide NextId;
    forall e | e in c.elements ensures KnownOrNew(a, c, e.id) {
      assert KnownOrNew(b, c, e.id);
      if CardInUse(c) == CardInUse(b) && HasId(b.elements, e.id) {
        var x := b.elements[IndexOf(b.elements, e.id)];
        assert x in b.elements && KnownOrNew(a, b, x.id);
      }
    }
  }

  lemma FollowsTrans(a: Session, b: Session, c: Session)
    requires Ready(a) && Follows(a, b) && Follows(b, c)
    ensures Follows(a, c)
  {
    hide Moves, Numbered, Keeps;
    InUseIsStored(a);
    KeepsTrans(a.s.w, CardInUse(a), a.elements, b.s.w, CardInUse(b), b.elements, c.s.w, CardInUse(c), c.elements);
    MovesTrans(a.s.w, CardInUse(a), b.s.w, CardInUse(b), c.s.w, CardInUse(c));
    NumberedTrans(a, b, c);
  }

  lemma InUseIsStored(h: Session)
    requires Ready(h)
    ensures CardInUse(h).Some? ==> CardInUse(h).value < |h.s.w.messages| && Open(h, CardInUse(h).value)
  {
    hide Mirrors, Filed, SplitsSettled;
  }

  lemma OnlyFollows(h: Session, h': Session)
    requires CardInUse(h).Some? && CardInUse(h') == CardInUse(h) && OnlyAt(h.s.w, h'.s.w, CardInUse(h).value)
    requires h'.seqNo == h.seqNo && forall e <- h'.elements :: e.id in Ids(h.elements)
    requires forall e <- h.elements :: IsQuestion(e) ==> e in h'.elements
    ensures Follows(h, h')
  {
    SameIdsNumbered(h, h');
  }

  lemma OnlyMoves(w: World, w': World, m: nat)
    requires OnlyAt(w, w', m)
    ensures Moves(w, Some(m), w', Some(m))
  {
  }

  lemma AppendFollows(h: Session, kind: string, data: Data)
    requires Ready(h) && Plain(data)
    ensures Follows(h, AppendNew(h, kind, data)) && Ready(AppendNew(h, kind, data))
  {
    hide AppendNew, Attached, NextId, Moves, Keeps;
    AppendNewLands(h, kind, data);
    AppendNewKeeps(h, kind, data);
    var h' := AppendNew(h, kind, data);
    IdsOf(h.elements);
    forall e | e in h'.elements ensures KnownOrNew(h, h', e.id) {
      HasIdIffInIds(h.elements, e.id);
      if e !in h.elements || CardInUse(h') != CardInUse(h) {
        assert e.id == NextId(kind, h.seqNo + 1);
      }
    }
  }

  lemma UpdateMoves(h: Session, k: nat, data: Data)
    requires Ready(h) && k < |h.elements|
    ensures var h' := UpdateElement(h, h.elements[k].id, data);
            && Ready(h') && CardInUse(h).Some? && CardInUse(h') == CardInUse(h) && OnlyAt(h.s.w, h'.s.w, CardInUse(h).value)
            && h'.elements == h.elements[k := h.elements[k].(data := h.elements[k].data + data)] && h'.seqNo == h.seqNo
            && forall e <- h'.elements :: e.id in Ids(h.elements)
  {
    hide UpdateElement, Attached;
    InUseIsStored(h);
    UpdateAt(h, k, data);
    InShadow(h.elements, k);
    UpdateOnly(h, h.cardMsgId.value, h.elements[k].id, data);
    IdsOf(h.elements);
    assert h.elements[k] in h.elements;
  }

  lemma UpdateFollows(h: Session, k: nat, data: Data)
    requires Ready(h) && k < |h.elements| && !IsQuestion(h.elements[k])
    ensures var h' := UpdateElement(h, h.elements[k].id, data); Follows(h, h') && Ready(h')
  {
    hide UpdateElement, Ready;
    UpdateMoves(h, k, data);
    ReplacedIds(h.elements, k, h.elements[k].(data := h.elements[k].data + data));
    OnlyFollows(h, UpdateElement(h, h.elements[k].id, data));
  }

  lemma ReorderFollows(h: Session, p: seq<Elem>)
    requires Ready(h) && h.elements != [] && multiset(p) == multiset(h.elements)
    ensures Follows(h, ReorderTo(h, Ids(p)))
  {
    hide DirectPatch, Attached;
    InUseIsStored(h);
    DirectOnly(h, h.cardMsgId.value, Op.Reorder(Ids(p)));
    hide ReorderTo;
    ReorderReady(h, p);
    assert p != [] by {
      assert h.elements[0] in multiset(p);
    }
    ReorderIs(h, Ids(p));
    IdsOf(h.elements);
    forall e | e in p ensures e.id in Ids(h.elements) {
      assert e in multiset(p);
    }
    forall e | e in h.elements ensures e in p {
      assert e in multiset(h.elements);
    }
    OnlyFollows(h, ReorderTo(h, Ids(p)));
  }

  lemma ReorderIs(h: Session, order: seq<string>)
    ensures ReorderTo(h, order).s.w == DirectPatch(h, h.cardMsgId, Op.Reorder(order)).s.w
  {
    hide DirectPatch;
  }

  lemma ThoughtFollows(h: Session, data: Data)
    requires Ready(h) && Plain(data)
    ensures Follows(h, AppendReasoning(h, data))
  {
    hide AppendNew, ReorderTo, Attached, NextId, Placed, Without, HasId, Ids, Follows;
    AppendFollows(h, "reasoning", data);
    AppendNewKeeps(h, "reasoning", data);
    var h1 := AppendNew(h, "reasoning", data);
    var x, e := RoomIn(h.elements), Elem("reasoning", NextId("reasoning", h.seqNo + 1), data);
    ShadowDistinct(h1, h1.cardMsgId.value);
    WithoutLast(x, e);
    PlacedIds(x, e);
    PlacedPermutes(x, e);
    ReorderFollows(h1, Placed(x, e));
    FollowsTrans(h, h1, AppendReasoning(h, data));
  }

  lemma ReappendFollows(h: Session, k: nat, text: string)
    requires Ready(h) && k < |h.elements| && IsMarkdown(h.elements[k]) && StoredText(h.elements[k].data)
    ensures Follows(h, AppendElement(h, "markdown", MarkdownData(text), h.elements[k].id))
  {
    hide AppendElement, Ready, Follows, StoredText, Open, OnlyAt;
    InUseIsStored(h);
    InUseThere(h);
    ReplaceMarkdown(h, k, text);
    ReappendOnly(h, h.cardMsgId.value, k, text);
    ReappendStays(h, k, text);
    ReplacedIds(h.elements, k, h.elements[k].(data := MarkdownData(text)));
    OnlyFollows(h, AppendElement(h, "markdown", MarkdownData(text), h.elements[k].id));
  }

  lemma InUseThere(h: Session)
    requires Ready(h)
    ensures h.elements != [] ==> CardInUse(h).Some? && CardInUse(h) == h.cardMsgId
  {
    hide Attached;
  }

  lemma ReplacedIds(es: seq<Elem>, k: nat, e: Elem)
    requires k < |es| && e.id == es[k].id && !IsQuestion(es[k])
    ensures forall x <- es[k := e] :: x.id in Ids(es)
    ensures forall x <- es :: IsQuestion(x) ==> x in es[k := e]
  {
    IdsOf(es);
    assert es[k] in es;
    forall x | x in es && IsQuestion(x) ensures x in es[k := e] {
      var i :| 0 <= i < |es| && es[i] == x;
      assert es[k := e][i] == x;
    }
  }

  lemma ReappendOnly(h: Session, m: nat, k: nat, text: string)
    requires Open(h, m) && k < |h.elements|
    ensures OnlyAt(h.s.w, AppendElement(h, "markdown", MarkdownData(text), h.elements[k].id).s.w, m)
  {
    hide AppendCall, AppendJob, Mirrors, Filed, SplitsSettled, Settle;
    var elem := Elem("markdown", h.elements[k].id, MarkdownData(text));
    InShadow(h.elements, k);
    SameUnder(h.elements, h.s.c.mirror, h.seqNo, elem.id);
    AppendCallOpen(h.s, elem);
    ReappendEffect(h.s, m, elem);
  }

  lemma ReappendStays(h: Session, k: nat, text: string)
    requires Ready(h) && k < |h.elements| && IsMarkdown(h.elements[k])
    ensures var h' := AppendElement(h, "markdown", MarkdownData(text), h.elements[k].id);
            CardInUse(h') == CardInUse(h) && h'.seqNo == h.seqNo
  {
    hide PlaceElement, Attached, Settle;
    var m := h.cardMsgId.value;
    InShadow(h.elements, k);
    ShadowDistinct(h, m);
    HasIdAt(h.elements, k);
    ReappendKeeps(h, m, Elem("markdown", h.elements[k].id, MarkdownData(text)));
  }

  lemma MarkdownFollows(h: Session, raw: string)
    requires Proper(h)
    ensures Follows(h, AppendOrMergeMarkdown(h, raw))
  {
    hide AppendNew, AppendElement, Attached, NextId, Strip, Filter, Follows;
    SameFollows(h);
    var last := LastWhere(h.elements, IsMarkdown);
    PlainParts(Strip(raw), false, "", Null);
    AppendFollows(h, "markdown", MarkdownData(Strip(raw)));
    if last.Some? {
      var k := LastWhereAt(h.elements, IsMarkdown);
      assert WellFormed(last.value);
      ReappendFollows(h, k, Strip(raw));
    }
  }

  lemma FinalFollows(h: Session, raw: string)
    requires Proper(h)
    ensures Follows(h, OnEvent(h, Markdown(raw)))
  {
    hide AppendOrMergeMarkdown, Tidy, Attached, Filter, ReorderTo, Ids, Follows;
    MarkdownFollows(h, raw);
    MarkdownProper(h, raw);
    var h1 := AppendOrMergeMarkdown(h, raw);
    SameFollows(h1);
    FilterSplits(h1.elements);
    if h1.elements != [] {
      ReorderFollows(h1, MarkdownLast(h1.elements));
    } else {
      NoMarkdownAtAll(h1.elements);
    }
    FollowsTrans(h, h1, ReorderMarkdownToEnd(h1));
  }

  lemma NoMarkdownAtAll(es: seq<Elem>)
    ensures es == [] ==> Filter(es, IsMarkdown) == []
  {
  }

  lemma ThinkingFollows(h: Session, text: string)
    requires Proper(h)
    ensures Follows(h, OnReasoning(h, text)) && Follows(h, OnReasoningDelta(h, text))
  {
    hide UpdateElement, AppendReasoning, Tidy, Attached, Strip, Finished, Blank, Follows;
    SameFollows(h);
    PlainParts(text, true, "", Null);
    PlainParts(text, false, "", Null);
    ThoughtFollows(h, ThinkingData(text, true));
    ThoughtFollows(h, ThinkingData(text, false));
    if LastWhere(h.elements, IsOpenReasoning).Some? {
      var k := LastWhereAt(h.elements, IsOpenReasoning);
      UpdateFollows(h, k, ThinkingData(text, true));
    }
    var last := LastWhere(h.elements, IsReasoning);
    if last.Some? {
      var k := LastWhereAt(h.elements, IsReasoning);
      UpdateFollows(h, k, ThinkingData(text, false));
      var data := ThinkingData(Strip(TextOf(last.value.data)), true);
      UpdateFollows(h, k, data);
      var ended := UpdateElement(h, last.value.id, data);
      ThoughtFollows(ended, ThinkingData(text, false));
      FollowsTrans(h, ended, AppendReasoning(ended, ThinkingData(text, false)));
    }
  }

  lemma ToolEndFollows(h: Session, e: Event)
    requires Proper(h) && e.ToolEnd?
    ensures Follows(h, OnToolEnd(h, e))
  {
    hide UpdateElement, Tidy, Attached, ToolResult, Says, Follows;
    SameFollows(h);
    var p := (x: Elem) => IsRunningTool(x) && Says(x.data, "name", e.name);
    if LastWhere(h.elements, p).Some? {
      var k := LastWhereAt(h.elements, p);
      UpdateFollows(h, k, ToolResult(e));
    }
  }

  lemma EventFollows(h: Session, e: Event)
    requires Proper(h) && !e.RoundEnd?
    ensures Follows(h, OnEvent(h, e))
  {
    hide AppendNew, Tidy, Attached, Follows, Ready, OnToolEnd, OnReasoning, OnReasoningDelta, AppendOrMergeMarkdown, ReorderMarkdownToEnd;
    SameFollows(h);
    match e {
      case PreLlmCall =>
        PlainParts("", false, "", Null);
        AppendFollows(h, "reasoning", ThinkingData("", false));
      case ToolStart(name, args) =>
        PlainParts("", false, name, args);
        AppendFollows(h, "tool_card", ToolData(name, args));
      case ToolEnd(_, _, _, _, _, _) => ToolEndFollows(h, e);
      case Reasoning(text) => ThinkingFollows(h, text);
      case ReasoningDelta(text) => ThinkingFollows(h, text);
      case Markdown(text) => FinalFollows(h, text);
      case MarkdownUpdate(text) => MarkdownFollows(h, text);
    }
  }

  // -------------------------------------------------------- finish, interrupt

  /** A finish closes the card in use, or recalls the one it had to open. */
  lemma FinishMoves(h: Session, footer: Data)
    requires Ready(h)
    ensures Moves(h.s.w, CardInUse(h), Finish(h, footer).s.w, None)
  {
    hide Mirrors, Filed, SplitsSettled;
    if h.elements == [] {
      FinishIdleMoves(h, footer);
    } else {
      FinishOpenMoves(h, h.cardMsgId.value, footer);
    }
  }

  lemma FinishOpenMoves(h: Session, m: nat, footer: Data)
    requires Open(h, m)
    ensures m < |h.s.w.messages| && OnlyAt(h.s.w, Finish(h, footer).s.w, m) && Closed(Finish(h, footer).s.w.messages[m])
  {
    hide SettleAll, SettledAll, RecallIfEmpty, CloseCard, Mirrors, Filed, SplitsSettled;
    var h1 := h.(finalized := true);
    var es := h.elements;
    SettleOnly(h1, m, |es|);
    SettleKeeps(h1, m, |es|);
    assert es[..|es|] == es;
    ClosingKeeps(Settle(h1), m, footer);
  }

  lemma FinishIdleMoves(h: Session, footer: Data)
    requires Idle(h)
    ensures Moves(h.s.w, None, Finish(h, footer).s.w, None)
  {
    hide FinishCall, SettleAll, SplitsSettled;
    if h.cardMsgId.None? {
      var h1 := h.(finalized := true);
      NothingToSettle(h1);
      FinishFresh(h.s, footer);
    }
  }

  lemma InterruptMoves(h: Session)
    requires Proper(h)
    ensures Moves(h.s.w, CardInUse(h), OnInterrupt(h).s.w, None)
  {
    hide Attached, Finish, FailTools, Tidy, Moves;
    InUseIsStored(h);
    assert h.elements[..|h.elements|] == h.elements;
    FailToolsKeeps(h, |h.elements|);
    var h1 := FailTools(h, h.elements);
    if h.elements == [] {
      FailUnfolds(h, 0);
      assert h1 == h;
      MovesRefl(h.s.w, None);
    } else {
      FailOnly(h, h.cardMsgId.value, |h.elements|);
      OnlyMoves(h.s.w, h1.s.w, h.cardMsgId.value);
    }
    FinishMoves(h1, INTERRUPT);
    MovesTrans(h.s.w, CardInUse(h), h1.s.w, CardInUse(h1), Finish(h1, INTERRUPT).s.w, None);
  }

  // --------------------------------------------------------------- permissions

  lemma SilenceFollows(h: Session, silent: bool)
    requires Proper(h) && h.elements != []
    ensures Follows(h, DirectPatch(h, h.cardMsgId, SetSilent(Some(silent))))
  {
    hide DirectPatch, Tidy, Attached;
    InUseIsStored(h);
    SilenceReady(h, silent);
    DirectOnly(h, h.cardMsgId.value, SetSilent(Some(silent)));
    DirectKeepsCard(h, SetSilent(Some(silent)));
    IdsOf(h.elements);
    OnlyFollows(h, DirectPatch(h, h.cardMsgId, SetSilent(Some(silent))));
  }

  lemma DirectKeepsCard(h: Session, op: Op)
    ensures var h' := DirectPatch(h, h.cardMsgId, op);
            h'.cardMsgId == h.cardMsgId && h'.seqNo == h.seqNo && h'.elements == h.elements
  {
  }

  lemma PermissionCardFollows(h: Session, request: string, action: Json, resources: Json, title: Json)
    requires Proper(h)
    ensures Follows(h, OnPermissionCard(h, request, action, resources, title))
  {
    hide AppendNew, DirectPatch, Tidy, Attached, Follows;
    var data := PermissionData(request, action, resources, title);
    assert Plain(data);
    AppendOther(h, "permission_card", data);
    AppendNewKeeps(h, "permission_card", data);
    AppendFollows(h, "permission_card", data);
    var asked := AppendNew(h, "permission_card", data);
    SilenceFollows(asked, false);
    FollowsTrans(h, asked, OnPermissionCard(h, request, action, resources, title));
  }

  lemma FollowsMoves(h: Session, h': Session)
    requires Follows(h, h')
    ensures Moves(h.s.w, CardInUse(h), h'.s.w, CardInUse(h')) && Numbered(h, h')
  {
  }

  /** A decision on the card in use: only that card changes, and no id appears. */
  lemma PermissionDecidedMoves(h: Session, request: string, decision: string)
    requires Proper(h)
    ensures var h' := OnPermissionDecided(h, request, decision);
            CardInUse(h') == CardInUse(h) && Moves(h.s.w, CardInUse(h), h'.s.w, CardInUse(h')) && Numbered(h, h')
  {
    hide UpdateElement, UpdateCall, DirectPatch, Tidy, Attached, DecisionData, PermissionData, Moves, Numbered;
    MovesRefl(h.s.w, CardInUse(h));
    SameFollows(h);
    var p := (e: Elem) => IsPending(e, request);
    if LastWhere(h.elements, p).Some? && request != "" {
      var k := LastWhereAt(h.elements, p);
      var data := DecisionData(request, decision);
      UpdateProper(h, k, data);
      UpdateMoves(h, k, data);
      var h1 := UpdateElement(h, h.elements[k].id, data);
      OnlyMoves(h.s.w, h1.s.w, CardInUse(h).value);
      SameIdsNumbered(h, h1);
      InUseIsStored(h1);
      OwnerOf(h1, h1.cardMsgId.value, h1.elements[k]);
      SilenceFollows(h1, true);
      InUseIsStored(h);
      DirectKeepsCard(h1, SetSilent(Some(true)));
      var h2 := DirectPatch(h1, h1.cardMsgId, SetSilent(Some(true)));
      FollowsMoves(h1, h2);
      MovesTrans(h.s.w, CardInUse(h), h1.s.w, CardInUse(h1), h2.s.w, CardInUse(h2));
      NumberedTrans(h, h1, h2);
    }
  }
}
