// Delivered calls only: the plugin's shadow, the SDK's mirror and the server's
// card stay the same card through every primitive of the session, although
// reorder and remove go past the SDK.

module HermesMirror {
  import opened Prelude
  import opened CardContent
  import opened ElementIds
  import opened Wire
  import opened CardSpec
  import opened Reorder
  import opened HermesSpec
  import CardFaultFree
  import CardSplit
  import CardSync

  // -------------------------------------------------------------- invariant

  ghost predicate IsNamed(id: string, n: nat) {
    exists kind: string, k: nat :: k <= n && id == NextId(kind, k)
  }

  ghost predicate Named(es: seq<Elem>, n: nat) {
    forall e <- es :: IsNamed(e.id, n)
  }

  predicate Loose(e: Elem) {
    IsOpenReasoning(e) || IsRunningTool(e)
  }

  /** The mark only a split leaves behind. */
  predicate IsSplitOff(card: Card) {
    card.segment == Some("first") || card.segment == Some("middle")
  }

  /** Every card a split has closed is settled: no unfinished reasoning, no running tool. */
  ghost predicate SplitsSettled(w: World) {
    forall m :: 0 <= m < |w.messages| && IsSplitOff(w.messages[m].card) ==> forall e <- w.messages[m].card.elements :: !Loose(e)
  }

  ghost predicate Filed(es: seq<Elem>, owners: map<string, nat>, m: nat) {
    forall e <- es :: e.id in owners && owners[e.id] == m
  }

  ghost predicate Mirrors(shadow: seq<Elem>, mirror: seq<Elem>, n: nat) {
    Distinct(Ids(shadow)) && Distinct(Ids(mirror)) && (forall e <- shadow :: e in mirror) && Named(mirror, n)
  }

  /** The SDK object is on message m, which the store holds open. */
  ghost predicate OnCard(s: Sys, m: nat) {
    && s.w.faults == [] && s.c.messageId == Some(m) && Live(s.w, Some(m))
    && !s.c.isSealed && s.c.pending == map[] && s.c.cardIds != map[]
    && s.w.messages[m].card.state == "generating" && !IsSplitOff(s.w.messages[m].card) && SplitsSettled(s.w)
  }

  /** The session is on card m, and the server's card is its shadow, element for element. */
  ghost predicate Attached(h: Session, m: nat) {
    && OnCard(h.s, m) && h.cardMsgId == Some(m)
    && (h.finishedCard.Some? ==> h.finishedCard.value != m && h.finishedCard.value < |h.s.w.messages|)
    && h.s.w.messages[m].card.elements == h.elements
    && Mirrors(h.elements, h.s.c.mirror, h.seqNo)
    && Filed(h.elements, h.elementCards, m)
  }

  ghost predicate Open(h: Session, m: nat) {
    Attached(h, m) && !h.finalized && 1 <= |h.elements| == |h.s.c.mirror| <= MAX_ELEMENTS
  }

  /** Between cards: nothing created yet, or the last card finished. */
  ghost predicate Idle(h: Session) {
    && h.elements == [] && !h.finalized && h.s.w.faults == [] && SplitsSettled(h.s.w)
    && h.finishedCard == h.cardMsgId
    && (h.cardMsgId.Some? ==> h.s.c.isSealed && h.cardMsgId.value < |h.s.w.messages|)
    && (h.cardMsgId.None? ==> h.s.c == NewClient)
  }

  ghost predicate Ready(h: Session) {
    if h.elements == [] then Idle(h) else h.cardMsgId.Some? && Open(h, h.cardMsgId.value)
  }

  ghost predicate Done(h: Session) {
    && h.finalized && h.s.w.faults == [] && SplitsSettled(h.s.w) && h.s.c.isSealed
    && h.cardMsgId.Some? && h.finishedCard == h.cardMsgId && h.cardMsgId.value < |h.s.w.messages|
  }

  // ------------------------------------------------------------------- names

  lemma FreshName(es: seq<Elem>, n: nat, kind: string)
    requires Named(es, n)
    ensures !HasId(es, NextId(kind, n + 1))
  {
    var id := NextId(kind, n + 1);
    if HasId(es, id) {
      var e := es[IndexOf(es, id)];
      assert e in es && IsNamed(e.id, n);
      var kind', k: nat :| k <= n && e.id == NextId(kind', k);
      SuffixDecides(kind', kind, k, n + 1);
    }
  }

  lemma NamedNotEmpty(id: string, n: nat)
    requires IsNamed(id, n)
    ensures id != ""
  {
  }

  lemma NamedLater(es: seq<Elem>, n: nat, k: nat)
    requires Named(es, n) && n <= k
    ensures Named(es, k)
  {
  }

  // ----------------------------------------------------- the parts of Mirrors

  /** Both lists hold the same element under id. */
  lemma SameUnder(shadow: seq<Elem>, mirror: seq<Elem>, n: nat, id: string)
    requires Mirrors(shadow, mirror, n) && HasId(shadow, id)
    ensures HasId(mirror, id) && mirror[IndexOf(mirror, id)] == shadow[IndexOf(shadow, id)] && id != ""
  {
    var e := shadow[IndexOf(shadow, id)];
    assert e in mirror;
    var k :| 0 <= k < |mirror| && mirror[k] == e;
    HasIdAt(mirror, k);
    NamedNotEmpty(e.id, n);
  }

  /** Replacing the data under one id on both sides. */
  lemma MirrorsUpdate(shadow: seq<Elem>, mirror: seq<Elem>, n: nat, id: string, data: Data)
    requires Mirrors(shadow, mirror, n)
    ensures Mirrors(MirrorData(shadow, id, data), MirrorData(mirror, id, data), n)
  {
    var s', m' := MirrorData(shadow, id, data), MirrorData(mirror, id, data);
    assert Ids(s') == Ids(shadow) && Ids(m') == Ids(mirror);
    forall e | e in s' ensures e in m' {
      var i :| 0 <= i < |s'| && s'[i] == e;
      assert shadow[i] in mirror;
      var k :| 0 <= k < |mirror| && mirror[k] == shadow[i];
      assert m'[k] == e;
    }
    forall e | e in m' ensures IsNamed(e.id, n) {
      var k :| 0 <= k < |m'| && m'[k] == e;
      assert mirror[k] in mirror;
    }
  }

  lemma MirrorsGrow(shadow: seq<Elem>, mirror: seq<Elem>, n: nat, elem: Elem)
    requires Mirrors(shadow, mirror, n) && !HasId(mirror, elem.id) && IsNamed(elem.id, n)
    ensures Mirrors(shadow + [elem], mirror + [elem], n)
  {
    HasIdIffInIds(mirror, elem.id);
    IdsConcat(shadow, [elem]);
    IdsConcat(mirror, [elem]);
    forall i | 0 <= i < |shadow| ensures shadow[i].id != elem.id {
      assert shadow[i] in mirror;
      var k :| 0 <= k < |mirror| && mirror[k] == shadow[i];
      assert Ids(mirror)[k] == shadow[i].id;
    }
  }

  lemma MirrorsAlone(elem: Elem, n: nat)
    requires IsNamed(elem.id, n)
    ensures Mirrors([elem], [elem], n)
  {
  }

  lemma FiledUpdate(shadow: seq<Elem>, owners: map<string, nat>, m: nat, id: string, data: Data)
    requires Filed(shadow, owners, m)
    ensures Filed(MirrorData(shadow, id, data), owners, m)
  {
    var s' := MirrorData(shadow, id, data);
    forall e | e in s' ensures e.id in owners && owners[e.id] == m {
      var i :| 0 <= i < |s'| && s'[i] == e;
      assert shadow[i] in shadow;
    }
  }

  lemma SplitsKept(w: World, m: nat, message: Message)
    requires SplitsSettled(w) && m < |w.messages|
    requires IsSplitOff(message.card) ==> forall e <- message.card.elements :: !Loose(e)
    ensures SplitsSettled(w.(messages := w.messages[m := message]))
  {
  }

  lemma SplitsGrow(w: World, message: Message)
    requires SplitsSettled(w) && !IsSplitOff(message.card)
    ensures SplitsSettled(w.(messages := w.messages + [message]))
  {
  }

  ghost predicate SameStore(v: World, w: World) {
    v.messages == w.messages && v.faults == w.faults
  }

  // ---------------------------------------------------------- SDK, delivered

  lemma UpdateEffect(s: Sys, m: nat, id: string, data: Data)
    requires OnCard(s, m) && HasId(s.c.mirror, id) && HasId(s.w.messages[m].card.elements, id) && id != ""
    ensures var merged := s.c.mirror[IndexOf(s.c.mirror, id)].data + data;
            var card := s.w.messages[m].card;
            var after := card.(elements := SetData(card.elements, id, merged));
            UpdateCall(OPTIONS, s, id, data) ==
            Run(Sys(s.c.(mirror := MirrorData(s.c.mirror, id, merged), failures := 0),
                    CardFaultFree.Taken(s.w, m, Delta(Update(id, Some(merged))), after)), true)
  {
    hide TryPatch, MirrorData, SetData;
    var merged := s.c.mirror[IndexOf(s.c.mirror, id)].data + data;
    CardFaultFree.TryPatchTaken(OPTIONS, s.(c := s.c.(mirror := MirrorData(s.c.mirror, id, merged))), m, Update(id, Some(merged)));
  }

  lemma ReappendEffect(s: Sys, m: nat, elem: Elem)
    requires OnCard(s, m) && HasId(s.c.mirror, elem.id) && HasId(s.w.messages[m].card.elements, elem.id) && elem.id != ""
    ensures var card := s.w.messages[m].card;
            var after := card.(elements := SetData(card.elements, elem.id, elem.data));
            AppendJob(OPTIONS, s, elem) ==
            Run(Sys(s.c.(mirror := MirrorElem(s.c.mirror, elem), failures := 0),
                    CardFaultFree.Taken(s.w, m, Delta(Update(elem.id, Some(elem.data))), after)), true)
  {
    hide TryPatch, MirrorElem, SetData;
    var c1 := s.c.(mirror := MirrorElem(s.c.mirror, elem));
    assert EnterCard(OPTIONS, s, true) == Run(s, true);
    CardFaultFree.TryPatchTaken(OPTIONS, s.(c := c1), m, Update(elem.id, Some(elem.data)));
  }

  ghost predicate Plain(data: Data) {
    forall key <- ENVELOPE_KEYS :: key !in data
  }

  /** On an open card the append call is its job, with the element as given. */
  lemma AppendCallOpen(s: Sys, elem: Elem)
    requires !s.c.isSealed && s.c.messageId.Some? && Plain(elem.data)
    ensures AppendCall(OPTIONS, s, elem.kind, elem.data["element_id" := Text(elem.id)]) == AppendJob(OPTIONS, s, elem)
  {
    hide AppendJob;
    assert elem.data["element_id" := Text(elem.id)] - ENVELOPE_KEYS == elem.data;
  }

  /** Between cards it opens message |w.messages| first. */
  lemma AppendCallIdle(s: Sys, elem: Elem)
    requires s.w.faults == [] && Plain(elem.data) && (s.c.isSealed || s.c == NewClient)
    ensures var n := |s.w.messages|;
            var c := NewClient.(failures := s.c.failures, messageId := Some(n), inflight := Landed);
            var w := s.w.(messages := s.w.messages + [Message(EmptyCard(None), false)]);
            AppendCall(OPTIONS, s, elem.kind, elem.data["element_id" := Text(elem.id)]) == AppendJob(OPTIONS, Sys(c, w), elem)
  {
    hide AppendJob;
    assert elem.data["element_id" := Text(elem.id)] - ENVELOPE_KEYS == elem.data;
  }

  // -------------------------------------------------------------- primitives

  /** h' differs from h only in what is on the card: the same ids in the mirror, no new message. */
  ghost predicate SameCard(h: Session, h': Session) {
    && h' == h.(s := h'.s, elements := h'.elements)
    && Ids(h'.s.c.mirror) == Ids(h.s.c.mirror) && h'.s.c.segmentIndex == h.s.c.segmentIndex && h'.s.c.footerSeq == h.s.c.footerSeq
    && |h'.s.w.messages| == |h.s.w.messages|
  }

  /** update_element of an element of the current card. */
  lemma UpdateKeeps(h: Session, m: nat, id: string, data: Data)
    requires Attached(h, m) && !h.finalized && HasId(h.elements, id)
    ensures var h' := UpdateElement(h, id, data);
            && Attached(h', m) && h'.elements == MergeData(h.elements, id, data)
            && SameCard(h, h')
            && UpdateCall(OPTIONS, h.s, id, data).ok
  {
    hide UpdateCall, Mirrors, Filed, SplitsSettled;
    Distincts(h.elements, h.s.c.mirror, h.seqNo);
    SameUnder(h.elements, h.s.c.mirror, h.seqNo, id);
    UpdateEffect(h.s, m, id, data);
    var k := IndexOf(h.elements, id);
    var merged := h.elements[k].data + data;
    UpdateIsMirrorData(h.elements, id, data, merged);
    MirrorsUpdate(h.elements, h.s.c.mirror, h.seqNo, id, merged);
    FiledUpdate(h.elements, h.elementCards, m, id, merged);
    var card := h.s.w.messages[m].card;
    OnCardTaken(h.s, m, Delta(Update(id, Some(merged))), card.(elements := SetData(card.elements, id, merged)));
  }

  lemma OnCardTaken(s: Sys, m: nat, r: Request, card: Card)
    requires OnCard(s, m) && !IsSplitOff(card) && card.state == "generating"
    ensures var w := CardFaultFree.Taken(s.w, m, r, card);
            forall c: Client ::
              c.messageId == Some(m) && !c.isSealed && c.pending == map[] && c.cardIds != map[] ==>
                OnCard(Sys(c, w), m) && w.messages[m].card == card
  {
  }

  lemma UpdateIsMirrorData(es: seq<Elem>, id: string, data: Data, merged: Data)
    requires Distinct(Ids(es)) && HasId(es, id) && merged == es[IndexOf(es, id)].data + data
    ensures MergeData(es, id, data) == MirrorData(es, id, merged) == SetData(es, id, merged)
  {
    var k := IndexOf(es, id);
    forall i | 0 <= i < |es| && i != k ensures es[i].id != id {
      assert Ids(es)[i] != Ids(es)[k];
    }
    assert MergeData(es, id, data) == es[k := es[k].(data := merged)];
    assert MirrorData(es, id, merged) == es[k := es[k].(data := merged)];
  }

  /** Appending over an element of the same kind replaces its data. */
  lemma ReappendKeeps(h: Session, m: nat, elem: Elem)
    requires Attached(h, m) && Plain(elem.data)
    requires HasId(h.elements, elem.id) && h.elements[IndexOf(h.elements, elem.id)].kind == elem.kind
    ensures var h' := PlaceElement(h, elem);
            && Attached(h', m) && h'.elements == MirrorData(h.elements, elem.id, elem.data)
            && SameCard(h, h')
  {
    hide AppendCall, AppendJob, Mirrors, Filed, SplitsSettled;
    Distincts(h.elements, h.s.c.mirror, h.seqNo);
    SameUnder(h.elements, h.s.c.mirror, h.seqNo, elem.id);
    AppendCallOpen(h.s, elem);
    ReappendEffect(h.s, m, elem);
    SameReplacement(h.elements, elem);
    SameReplacement(h.s.c.mirror, elem);
    MirrorsUpdate(h.elements, h.s.c.mirror, h.seqNo, elem.id, elem.data);
    FiledUpdate(h.elements, h.elementCards, m, elem.id, elem.data);
    var card := h.s.w.messages[m].card;
    OnCardTaken(h.s, m, Delta(Update(elem.id, Some(elem.data))), card.(elements := SetData(card.elements, elem.id, elem.data)));
  }

  lemma Distincts(shadow: seq<Elem>, mirror: seq<Elem>, n: nat)
    requires Mirrors(shadow, mirror, n)
    ensures Distinct(Ids(shadow)) && Distinct(Ids(mirror))
  {
  }

  lemma SameReplacement(es: seq<Elem>, elem: Elem)
    requires Distinct(Ids(es)) && HasId(es, elem.id) && es[IndexOf(es, elem.id)].kind == elem.kind
    ensures MirrorElem(es, elem) == MirrorData(es, elem.id, elem.data) == SetData(es, elem.id, elem.data)
  {
    var k := IndexOf(es, elem.id);
    forall i | 0 <= i < |es| && i != k ensures es[i].id != elem.id {
      assert Ids(es)[i] != Ids(es)[k];
    }
    assert MirrorElem(es, elem) == es[k := elem];
    assert MirrorData(es, elem.id, elem.data) == es[k := elem];
  }

  ghost predicate Alone(h: Session, h': Session, m: nat, elem: Elem) {
    && Attached(h', m) && h'.elements == [elem] && |h'.s.c.mirror| == 1
    && h'.finalized == h.finalized && h'.seqNo == h.seqNo && h'.finishedCard == h.finishedCard
  }

  lemma FiledMore(es: seq<Elem>, owners: map<string, nat>, m: nat, elem: Elem)
    requires Filed(es, owners, m)
    ensures Filed(es + [elem], owners[elem.id := m], m)
  {
  }

  /** A new element joins a card that has room. */
  lemma AppendFits(h: Session, m: nat, elem: Elem)
    requires Attached(h, m) && Plain(elem.data) && |h.s.c.mirror| < MAX_ELEMENTS
    requires !HasId(h.elements, elem.id) && !HasId(h.s.c.mirror, elem.id) && IsNamed(elem.id, h.seqNo)
    ensures var h' := PlaceElement(h, elem);
            && Attached(h', m) && h'.elements == h.elements + [elem] && |h'.s.c.mirror| == |h.s.c.mirror| + 1
            && h' == h.(s := h'.s, elements := h'.elements, elementCards := h'.elementCards)
  {
    hide AppendCall, AppendJob, Mirrors, Filed, SplitsSettled;
    AppendCallOpen(h.s, elem);
    CardSplit.FitsEffect(OPTIONS, h.s, elem, m);
    MirrorsGrow(h.elements, h.s.c.mirror, h.seqNo, elem);
    FiledMore(h.elements, h.elementCards, m, elem);
    var card := h.s.w.messages[m].card;
    OnCardTaken(h.s, m, Delta(Append(Some(elem))), card.(elements := card.elements + [elem]));
  }

  /** A card a split has left. */
  function SplitOff(card: Card, segmentIndex: nat): Card {
    card.(state := "done", segment := Some(if segmentIndex == 0 then "first" else "middle"))
  }

  /** A new element on a full card: the old card is closed as it stands, and the element is alone on a new one. */
  lemma AppendSplits(h: Session, m: nat, elem: Elem)
    requires Attached(h, m) && Plain(elem.data) && |h.s.c.mirror| >= MAX_ELEMENTS
    requires !HasId(h.elements, elem.id) && !HasId(h.s.c.mirror, elem.id) && IsNamed(elem.id, h.seqNo)
    requires forall e <- h.elements :: !Loose(e)
    ensures var h' := PlaceElement(h, elem);
            var n := |h.s.w.messages|;
            && Alone(h, h', n, elem) && h'.cardMsgId == Some(n)
            && h'.s.w.messages[m].card == SplitOff(h.s.w.messages[m].card, h.s.c.segmentIndex)
  {
    hide AppendCall, AppendJob, Mirrors, SplitsSettled, CardSplit.LeftBehind;
    var segment := if h.s.c.segmentIndex == 0 then "first" else "middle";
    var n := |h.s.w.messages|;
    AppendCallOpen(h.s, elem);
    CardSplit.SplitEffect(OPTIONS, h.s, elem, m);
    CardSplit.LeftBehindShape(h.s.w, m, segment);
    MirrorsAlone(elem, h.seqNo);
    assert [] + [elem] == [elem];
    var left := h.s.w.messages[m];
    var closed := left.(card := SplitOff(left.card, h.s.c.segmentIndex));
    SplitsKept(h.s.w, m, closed);
    var w1 := h.s.w.(messages := h.s.w.messages[m := closed]);
    SplitsGrow(w1, Message(Card([elem], "generating", Some("last"), Some(true)), false));
    SameSplits(w1.(messages := w1.messages + [Message(Card([elem], "generating", Some("last"), Some(true)), false)]),
               AppendJob(OPTIONS, h.s, elem).s.w);
  }

  lemma SameSplits(v: World, w: World)
    requires SplitsSettled(v) && v.messages == w.messages
    ensures SplitsSettled(w)
  {
  }

  /** The first element after a reset, or ever: it gets a card of its own. */
  lemma AppendOpens(h: Session, elem: Elem)
    requires Idle(h) && Plain(elem.data) && IsNamed(elem.id, h.seqNo)
    ensures var h' := PlaceElement(h, elem);
            var n := |h.s.w.messages|;
            Alone(h, h', n, elem) && h'.cardMsgId == Some(n)
  {
    hide AppendCall, AppendJob, Mirrors, SplitsSettled;
    var n := |h.s.w.messages|;
    var c := NewClient.(failures := h.s.c.failures, messageId := Some(n), inflight := Landed);
    var w := h.s.w.(messages := h.s.w.messages + [Message(EmptyCard(None), false)]);
    AppendCallIdle(h.s, elem);
    assert [] + [elem] == [elem];
    CardSplit.FitsEffect(OPTIONS, Sys(c, w), elem, n);
    MirrorsAlone(elem, h.seqNo);
    SplitsGrow(h.s.w, Message(EmptyCard(None), false));
    var card := EmptyCard(None).(elements := [elem]);
    SplitsKept(w, n, Message(card, false));
    var s' := AppendJob(OPTIONS, Sys(c, w), elem).s;
    assert s'.w.messages == w.messages[n := Message(card, false)];
    SameSplits(w.(messages := w.messages[n := Message(card, false)]), s'.w);
  }
}
