// Settling a card before it is left, reordering it, and closing it.

module HermesSettle {
  import opened Prelude
  import opened CardContent
  import opened ElementIds
  import opened Wire
  import opened CardSpec
  import opened Reorder
  import opened HermesSpec
  import opened HermesMirror
  import CardFaultFree

  // ---------------------------------------------------- what settling leaves

  /** What becomes of one element; once the session is finalized only the removal still works. */
  function Settled(e: Elem, active: bool): seq<Elem> {
    if IsOpenReasoning(e) && Blank(e.data) then []
    else if !active then [e]
    else if IsOpenReasoning(e) then [e.(data := e.data["finished" := Bool(true)])]
    else if IsRunningTool(e) then [e.(data := e.data + INTERRUPTED)]
    else [e]
  }

  function SettledAll(es: seq<Elem>, active: bool): seq<Elem> {
    if es == [] then [] else SettledAll(es[..|es| - 1], active) + Settled(es[|es| - 1], active)
  }

  lemma SettledIsNotLoose(e: Elem)
    ensures forall x <- Settled(e, true) :: !Loose(x)
  {
  }

  /** Nothing loose is left on a card that is settled before it is finalized. */
  lemma {:induction false} SettlingLeavesNothingLoose(es: seq<Elem>)
    ensures forall e <- SettledAll(es, true) :: !Loose(e)
  {
    hide Loose, Settled;
    if es != [] {
      SettlingLeavesNothingLoose(es[..|es| - 1]);
      SettledIsNotLoose(es[|es| - 1]);
    }
  }

  // -------------------------------------------------------- one element of it

  lemma {:induction false} WithoutConcat(a: seq<Elem>, b: seq<Elem>, id: string)
    ensures Without(a + b, id) == Without(a, id) + Without(b, id)
  {
    if a == [] {
      assert a + b == b;
    } else {
      assert (a + b)[1..] == a[1..] + b;
      WithoutConcat(a[1..], b, id);
    }
  }

  lemma {:induction false} WithoutAbsent(es: seq<Elem>, id: string)
    requires forall e <- es :: e.id != id
    ensures Without(es, id) == es
  {
    if es != [] {
      WithoutAbsent(es[1..], id);
      assert es == [es[0]] + es[1..];
    }
  }

  lemma OthersDiffer(pre: seq<Elem>, e: Elem, post: seq<Elem>)
    requires Distinct(Ids(pre + [e] + post))
    ensures forall x <- pre + post :: x.id != e.id
    ensures Distinct(Ids(pre + post))
  {
    var all := pre + [e] + post;
    var k := |pre|;
    assert all[k] == e;
    forall i | 0 <= i < |pre + post| ensures (pre + post)[i].id != e.id {
      var j := if i < k then i else i + 1;
      assert (pre + post)[i] == all[j];
      assert Ids(all)[j] != Ids(all)[k];
    }
    forall i, j | 0 <= i < j < |pre + post| ensures (pre + post)[i].id != (pre + post)[j].id {
      var i', j' := if i < k then i else i + 1, if j < k then j else j + 1;
      assert Ids(all)[i'] != Ids(all)[j'];
    }
  }

  lemma MergeOne(pre: seq<Elem>, e: Elem, post: seq<Elem>, data: Data)
    requires Distinct(Ids(pre + [e] + post))
    ensures HasId(pre + [e] + post, e.id)
    ensures MergeData(pre + [e] + post, e.id, data) == pre + [e.(data := e.data + data)] + post
  {
    var all := pre + [e] + post;
    OthersDiffer(pre, e, post);
    HasIdAt(all, |pre|);
    forall x | x in pre || x in post ensures x.id != e.id {
      assert x in pre + post;
    }
  }

  lemma RemoveOne(h: Session, m: nat, pre: seq<Elem>, e: Elem, post: seq<Elem>)
    requires Attached(h, m) && h.elements == pre + [e] + post
    ensures Without(h.elements, e.id) == pre + post
    ensures var h' := DirectPatch(h, Some(m), Remove(e.id)).(elements := Without(h.elements, e.id));
            Attached(h', m) && h'.elements == pre + post && SameCard(h, h')
  {
    hide SplitsSettled, Named;
    Distincts(h.elements, h.s.c.mirror, h.seqNo);
    OthersDiffer(pre, e, post);
    WithoutConcat(pre + [e], post, e.id);
    WithoutConcat(pre, [e], e.id);
    WithoutAbsent(pre, e.id) by { forall x | x in pre ensures x.id != e.id { assert x in pre + post; } }
    WithoutAbsent(post, e.id) by { forall x | x in post ensures x.id != e.id { assert x in pre + post; } }
    assert Without([e], e.id) == [] by { assert [e][1..] == []; }
    assert pre + [] == pre;
    assert e in h.elements && e in h.s.c.mirror;
    NameOf(h.s.c.mirror, e, h.seqNo);
    hide Without;
    var card := h.s.w.messages[m].card;
    CardFaultFree.SendTaken(h.s.w, m, Remove(e.id));
    OnCardTaken(h.s, m, Delta(Remove(e.id)), card.(elements := pre + post));
    forall x | x in pre + post ensures x in h.elements {
    }
  }

  lemma NameOf(es: seq<Elem>, e: Elem, n: nat)
    requires Named(es, n) && e in es
    ensures e.id != ""
  {
    NamedNotEmpty(e.id, n);
  }

  lemma SettleOneKeeps(h: Session, m: nat, pre: seq<Elem>, e: Elem, post: seq<Elem>)
    requires Attached(h, m) && h.elements == pre + [e] + post
    ensures var h' := SettleOne(h, e);
            && Attached(h', m) && h'.elements == pre + Settled(e, !h.finalized) + post
            && SameCard(h, h')
  {
    hide UpdateElement, DirectPatch, Attached, Blank, Without;
    assert pre + [] + post == pre + post;
    if IsOpenReasoning(e) && Blank(e.data) {
      OwnerOf(h, m, e);
      RemoveOne(h, m, pre, e, post);
    } else if h.finalized {
      NoUpdates(h, e);
    } else if IsOpenReasoning(e) {
      UpdateOne(h, m, pre, e, post, e.data["finished" := Bool(true)]);
      assert e.data + e.data["finished" := Bool(true)] == e.data["finished" := Bool(true)];
    } else if IsRunningTool(e) {
      UpdateOne(h, m, pre, e, post, e.data + INTERRUPTED);
      assert e.data + (e.data + INTERRUPTED) == e.data + INTERRUPTED;
    }
  }

  lemma OwnerOf(h: Session, m: nat, e: Elem)
    requires Attached(h, m) && e in h.elements
    ensures e.id in h.elementCards && h.elementCards[e.id] == m
  {
  }

  lemma NoUpdates(h: Session, e: Elem)
    requires h.finalized
    ensures forall id: string, data: Data :: UpdateElement(h, id, data) == h
  {
  }

  lemma UpdateOne(h: Session, m: nat, pre: seq<Elem>, e: Elem, post: seq<Elem>, data: Data)
    requires Attached(h, m) && !h.finalized && h.elements == pre + [e] + post
    ensures var h' := UpdateElement(h, e.id, data);
            && Attached(h', m) && h'.elements == pre + [e.(data := e.data + data)] + post
            && SameCard(h, h')
  {
    hide UpdateElement;
    Distincts(h.elements, h.s.c.mirror, h.seqNo);
    MergeOne(pre, e, post, data);
    UpdateKeeps(h, m, e.id, data);
  }

  /** Settling touches the current card only, and what it leaves is SettledAll of the shadow. */
  lemma {:induction false} SettleKeeps(h: Session, m: nat, i: nat)
    requires Attached(h, m) && i <= |h.elements|
    ensures var h' := SettleAll(h, h.elements[..i]);
            && Attached(h', m) && h'.elements == SettledAll(h.elements[..i], !h.finalized) + h.elements[i..]
            && SameCard(h, h')
  {
    hide Attached, SettleOne, Settled, SettledAll, SettleAll;
    var es := h.elements;
    SettleUnfolds(h, i);
    if i > 0 {
      SettleKeeps(h, m, i - 1);
      var before := SettleAll(h, es[..i - 1]);
      var pre, e, post := SettledAll(es[..i - 1], !h.finalized), es[i - 1], es[i..];
      assert es[i - 1..] == [e] + post;
      assert before.elements == pre + [e] + post;
      SettleOneKeeps(before, m, pre, e, post);
    } else {
      assert [] + es[0..] == es;
    }
  }

  lemma SettleUnfolds(h: Session, i: nat)
    requires i <= |h.elements|
    ensures var es := h.elements;
            if i == 0 then SettleAll(h, es[..i]) == h && SettledAll(es[..i], !h.finalized) == []
            else
              && SettleAll(h, es[..i]) == SettleOne(SettleAll(h, es[..i - 1]), es[i - 1])
              && SettledAll(es[..i], !h.finalized) == SettledAll(es[..i - 1], !h.finalized) + Settled(es[i - 1], !h.finalized)
  {
    hide SettleOne, Settled;
    var es := h.elements;
    if i > 0 {
      assert es[..i][..i - 1] == es[..i - 1];
      assert es[..i][i - 1] == es[i - 1];
    }
  }

  // ------------------------------------------------------------------ append

  /** What a new element finds on the card it joins. */
  function RoomIn(es: seq<Elem>): seq<Elem> {
    if |es| >= MAX_ELEMENTS then [] else es
  }

  lemma CardOf(h: Session, m: nat)
    requires Attached(h, m)
    ensures m < |h.s.w.messages| && h.s.w.messages[m].card.elements == h.elements
  {
  }

  lemma FreshAfter(h: Session, h': Session, m: nat, id: string)
    requires Attached(h', m) && SameCard(h, h') && !HasId(h.s.c.mirror, id)
    ensures !HasId(h'.s.c.mirror, id) && !HasId(h'.elements, id)
  {
    HasIdIffInIds(h.s.c.mirror, id);
    HasIdIffInIds(h'.s.c.mirror, id);
    if HasId(h'.elements, id) {
      SameUnder(h'.elements, h'.s.c.mirror, h'.seqNo, id);
    }
  }

  /** The full card m is closed by a split: its shadow settled, the new element alone on the next card. */
  lemma SplitKeeps(h: Session, m: nat, elem: Elem)
    requires Open(h, m) && |h.elements| >= MAX_ELEMENTS && Plain(elem.data)
    requires !HasId(h.elements, elem.id) && !HasId(h.s.c.mirror, elem.id) && IsNamed(elem.id, h.seqNo)
    ensures var h' := AppendElement(h, elem.kind, elem.data, elem.id);
            && Alone(h, h', |h.s.w.messages|, elem) && h'.cardMsgId == Some(|h.s.w.messages|)
            && m < |h'.s.w.messages|
            && h'.s.w.messages[m].card.elements == SettledAll(h.elements, true)
            && IsSplitOff(h'.s.w.messages[m].card)
  {
    hide PlaceElement, Attached, SettleAll;
    var es := h.elements;
    assert es[..|es|] == es;
    SettleKeeps(h, m, |es|);
    SettlingLeavesNothingLoose(es);
    var settled := Settle(h);
    assert SettledAll(es, true) + es[|es|..] == SettledAll(es, true);
    assert Attached(settled, m);
    FreshAfter(h, settled, m, elem.id);
    assert settled.elements == SettledAll(es, true);
    hide SettledAll, Settle, HasId;
    AppendSplits(settled, m, elem);
    CardOf(settled, m);
    CardOf(PlaceElement(settled, elem), |h.s.w.messages|);
  }

  lemma OpenFresh(h: Session, m: nat, kind: string)
    requires Attached(h, m)
    ensures !HasId(h.s.c.mirror, NextId(kind, h.seqNo + 1)) && !HasId(h.elements, NextId(kind, h.seqNo + 1))
    ensures Attached(h.(seqNo := h.seqNo + 1), m)
  {
    FreshName(h.s.c.mirror, h.seqNo, kind);
    NamedLater(h.s.c.mirror, h.seqNo, h.seqNo + 1);
    if HasId(h.elements, NextId(kind, h.seqNo + 1)) {
      SameUnder(h.elements, h.s.c.mirror, h.seqNo, NextId(kind, h.seqNo + 1));
    }
  }

  ghost predicate NewElement(h: Session, h': Session, elem: Elem) {
    && h'.cardMsgId.Some? && Open(h', h'.cardMsgId.value)
    && h'.elements == RoomIn(h.elements) + [elem] && h'.seqNo == h.seqNo
  }

  lemma NewOnIdle(h: Session, elem: Elem)
    requires Idle(h) && Plain(elem.data) && IsNamed(elem.id, h.seqNo)
    ensures NewElement(h, AppendElement(h, elem.kind, elem.data, elem.id), elem)
  {
    hide PlaceElement, Attached, Settle, IsNamed;
    AppendOpens(h, elem);
    assert [] + [elem] == [elem];
  }

  lemma NewOnCard(h: Session, m: nat, elem: Elem)
    requires Open(h, m) && Plain(elem.data) && IsNamed(elem.id, h.seqNo)
    requires !HasId(h.s.c.mirror, elem.id) && !HasId(h.elements, elem.id)
    ensures NewElement(h, AppendElement(h, elem.kind, elem.data, elem.id), elem)
  {
    hide PlaceElement, Attached, Settle, IsNamed, HasId;
    if |h.elements| < MAX_ELEMENTS {
      AppendFits(h, m, elem);
      AttachedCard(PlaceElement(h, elem), m);
    } else {
      SplitKeeps(h, m, elem);
      assert [] + [elem] == [elem];
    }
  }

  /** A new element always ends up last on the current card, alone if that card had to be opened for it. */
  lemma AppendNewKeeps(h: Session, kind: string, data: Data)
    requires Ready(h) && Plain(data)
    ensures var h' := AppendNew(h, kind, data);
            var elem := Elem(kind, NextId(kind, h.seqNo + 1), data);
            && h'.cardMsgId.Some? && Open(h', h'.cardMsgId.value)
            && h'.elements == RoomIn(h.elements) + [elem] && h'.seqNo == h.seqNo + 1
  {
    hide AppendElement, Ready, Idle, Open, NextId, HasId, IsNamed, RoomIn, Plain;
    var h1 := h.(seqNo := h.seqNo + 1);
    var elem := Elem(kind, NextId(kind, h1.seqNo), data);
    Renumbered(h, kind);
    if h.elements == [] {
      NewOnIdle(h1, elem);
    } else {
      NewOnCard(h1, h.cardMsgId.value, elem);
    }
  }

  /** Taking the next number leaves the session ready, and its id is new to the card. */
  lemma Renumbered(h: Session, kind: string)
    requires Ready(h)
    ensures var h1 := h.(seqNo := h.seqNo + 1);
            var id := NextId(kind, h1.seqNo);
            && IsNamed(id, h1.seqNo)
            && (h.elements == [] ==> Idle(h1))
            && (h.elements != [] ==> h.cardMsgId.Some? && Open(h1, h.cardMsgId.value)
                                     && !HasId(h.s.c.mirror, id) && !HasId(h.elements, id))
  {
    var h1 := h.(seqNo := h.seqNo + 1);
    assert IsNamed(NextId(kind, h1.seqNo), h1.seqNo);
    hide NextId, HasId, Attached;
    if h.elements != [] {
      OpenFresh(h, h.cardMsgId.value, kind);
    }
  }

  lemma AttachedCard(h: Session, m: nat)
    requires Attached(h, m)
    ensures h.cardMsgId == Some(m)
  {
  }

  // ----------------------------------------------------------------- reorder

  lemma {:induction false} FilterSplits(es: seq<Elem>)
    ensures multiset(MarkdownLast(es)) == multiset(es)
  {
    hide IsMarkdown;
    if es != [] {
      var n := |es| - 1;
      FilterSplits(es[..n]);
      assert es == es[..n] + [es[n]];
    }
  }

  /** Listing a permutation of distinct elements by id yields that permutation. */
  lemma ReorderedToAny(es: seq<Elem>, p: seq<Elem>)
    requires Distinct(Ids(es)) && multiset(p) == multiset(es)
    ensures Distinct(Ids(p)) && Reordered(es, Ids(p)) == p
    ensures forall id <- Ids(p) :: ById(es, id).Some?
  {
    SameElementsSameIds(es, p);
    forall e | e in p ensures ById(es, e.id) == Some(e) {
      assert e in multiset(es);
      FoundById(es, e);
    }
    PickedAll(es, p, |p|);
    assert p[..|p|] == p && Ids(p)[..|p|] == Ids(p);
    UnlistedNone(es, Ids(p)) by {
      forall e | e in es ensures e.id in Ids(p) {
        assert e in multiset(p);
        var k :| 0 <= k < |p| && p[k] == e;
        assert Ids(p)[k] == e.id;
      }
    }
    assert p + [] == p;
    forall id | id in Ids(p) ensures ById(es, id).Some? {
      var k :| 0 <= k < |p| && Ids(p)[k] == id;
      assert p[k] in p;
    }
  }

  lemma FoundById(es: seq<Elem>, e: Elem)
    requires Distinct(Ids(es)) && e in es
    ensures ById(es, e.id) == Some(e)
  {
    ByIdIffHas(es, e.id);
    var k :| 0 <= k < |es| && es[k] == e;
    assert Ids(es)[k] == e.id;
    var x := ById(es, e.id).value;
    var j :| 0 <= j < |es| && es[j] == x;
    assert Ids(es)[j] == Ids(es)[k];
  }

  lemma {:induction false} PickedAll(es: seq<Elem>, p: seq<Elem>, k: nat)
    requires k <= |p| && Distinct(Ids(p)) && forall e <- p :: ById(es, e.id) == Some(e)
    ensures Picked(es, Ids(p)[..k]) == p[..k]
  {
    hide ById;
    if k > 0 {
      PickedAll(es, p, k - 1);
      var order := Ids(p)[..k];
      assert order[..k - 1] == Ids(p)[..k - 1];
      assert order[k - 1] == p[k - 1].id && order[k - 1] !in order[..k - 1];
      assert p[..k] == p[..k - 1] + [p[k - 1]];
      assert p[k - 1] in p;
    }
  }

  lemma {:induction false} UnlistedNone(es: seq<Elem>, order: seq<string>)
    requires forall e <- es :: e.id in order
    ensures Unlisted(es, order) == []
  {
    if es != [] {
      UnlistedNone(es[..|es| - 1], order);
    }
  }

  /** Reordering to a permutation p of the shadow makes both the shadow and the server's card p. */
  lemma ReorderKeeps(h: Session, m: nat, p: seq<Elem>)
    requires Attached(h, m) && h.elements != [] && multiset(p) == multiset(h.elements)
    ensures var h' := ReorderTo(h, Ids(p));
            Attached(h', m) && h'.elements == p && SameCard(h, h')
  {
    hide Mirrors, SplitsSettled, Reordered, SortByRank, ById;
    Distincts(h.elements, h.s.c.mirror, h.seqNo);
    ReorderedToAny(h.elements, p);
    ServerReorderIsStableSort(h.elements, Ids(p));
    assert p != [] by {
      assert h.elements[0] in multiset(p);
    }
    var card := h.s.w.messages[m].card;
    CardFaultFree.SendTaken(h.s.w, m, Op.Reorder(Ids(p)));
    OnCardTaken(h.s, m, Delta(Op.Reorder(Ids(p))), card.(elements := p));
    MirrorsPermuted(h.elements, p, h.s.c.mirror, h.seqNo);
    FiledPermuted(h.elements, p, h.elementCards, m);
  }

  lemma MirrorsPermuted(es: seq<Elem>, p: seq<Elem>, mirror: seq<Elem>, n: nat)
    requires Mirrors(es, mirror, n) && multiset(p) == multiset(es)
    ensures Mirrors(p, mirror, n) && |p| == |es|
  {
    SameElementsSameIds(es, p);
    assert |multiset(p)| == |p|;
    forall e | e in p ensures e in mirror {
      assert e in multiset(es);
    }
  }

  lemma FiledPermuted(es: seq<Elem>, p: seq<Elem>, owners: map<string, nat>, m: nat)
    requires Filed(es, owners, m) && multiset(p) == multiset(es)
    ensures Filed(p, owners, m)
  {
    forall e | e in p ensures e in es {
      assert e in multiset(es);
    }
  }
}
