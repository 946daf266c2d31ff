// How many unread messages one round can count at most, over every pattern of
// failures, computed from the list of calls alone: each finish rings the card
// at hand once, and each new element on a full card may be refused, may open
// the next card, or may close the old one and find no new one.

module CardMost {
  import opened Prelude
  import opened CardContent
  import opened Wire
  import opened CardSpec
  import opened CardFaults
  import opened CardUnread
  import opened CardTwice
  import opened CardScript
  import CardWedge
  import ElementIds

  // -------------------------------------------------------------- computation

  /** The current card as far as it matters: its content ids, its size with footers, whether it has rung; and how many cards have. */
  datatype Look = Look(ids: set<string>, size: nat, rung: bool, rings: nat)

  const BLANK: Look := Look({}, 0, false, 0)

  function Added(look: Look, id: string): Look {
    look.(ids := look.ids + {id}, size := look.size + 1)
  }

  function NewCard(look: Look, ids: set<string>): Look {
    look.(ids := ids, size := |ids|, rung := false)
  }

  function Ringing(look: Look): Look {
    look.(size := look.size + 1, rung := true, rings := look.rings + if look.rung then 0 else 1)
  }

  /** What call i can make of the card. */
  function Nexts(o: Options, calls: seq<Call>, i: nat, look: Look): (looks: seq<Look>)
    requires i < |calls|
    ensures |looks| == 1 || |looks| == 3
  {
    if calls[i].AppendOf? then
      var id := IdAt(calls, i);
      if id in look.ids then [look]
      else if look.size < MAX_ELEMENTS then [Added(look, id)]
      else [look, NewCard(look, {id}), NewCard(look, {})]
    else if Entering(o, calls, i) then [Ringing(look)]
    else [look]
  }

  /** The most cards that can have rung when the list is done. */
  function Most(o: Options, calls: seq<Call>, i: nat, look: Look): nat
    requires i <= |calls|
    decreases |calls| - i
  {
    if i == |calls| then look.rings
    else
      var looks := Nexts(o, calls, i, look);
      var first := Most(o, calls, i + 1, looks[0]);
      if |looks| == 1 then first
      else
        var second, third := Most(o, calls, i + 1, looks[1]), Most(o, calls, i + 1, looks[2]);
        if first >= second && first >= third then first else if second >= third then second else third
  }

  lemma MostOfNext(o: Options, calls: seq<Call>, i: nat, look: Look)
    requires i < |calls|
    ensures forall k :: 0 <= k < |Nexts(o, calls, i, look)| ==>
              Most(o, calls, i + 1, Nexts(o, calls, i, look)[k]) <= Most(o, calls, i, look)
    ensures exists k :: 0 <= k < |Nexts(o, calls, i, look)|
                     && Most(o, calls, i + 1, Nexts(o, calls, i, look)[k]) == Most(o, calls, i, look)
  {
    hide Nexts;
    var looks := Nexts(o, calls, i, look);
    assert 0 < |looks|;
  }

  lemma {:induction false} MostGrows(o: Options, calls: seq<Call>, i: nat, look: Look)
    requires i <= |calls|
    ensures look.rings <= Most(o, calls, i, look)
    decreases |calls| - i
  {
    if i < |calls| {
      MostOfNext(o, calls, i, look);
      var next := Nexts(o, calls, i, look)[0];
      MostGrows(o, calls, i + 1, next);
    }
  }

  // --------------------------------------------------------------- the shadow

  /** The card object's shadow looks like that before call i. */
  ghost predicate Looks(o: Options, calls: seq<Call>, i: nat, c: Client, look: Look)
    requires i <= |calls|
  {
    && c.idSeq == Generated(calls, i)
    && |c.mirror| == look.size
    && (forall id :: !ElementIds.IsFooterId(id) ==> (id in Ids(c.mirror) <==> id in look.ids))
    && (o.recallEmpty ==> (c.cardIds == map[] <==> !AppendsBefore(calls, i)) && (c.cardIds == map[] ==> look.size == 0))
  }

  lemma AppendId(calls: seq<Call>, i: nat, c: Client)
    requires i < |calls| && calls[i].AppendOf? && c.idSeq == Generated(calls, i) && NoFooterId(calls[i])
    ensures NewElem(c, calls[i].kind, calls[i].data).id == IdAt(calls, i) && !ElementIds.IsFooterId(IdAt(calls, i))
    ensures TakeId(c, calls[i].data).idSeq == Generated(calls, i + 1)
  {
    NotFooter(c, calls[i]);
  }

  lemma AppendedOnce(calls: seq<Call>, i: nat)
    requires i < |calls| && calls[i].AppendOf?
    ensures AppendsBefore(calls, i + 1)
  {
  }

  /** The shadow keeps its ids: an update, a finish of an empty card, or an append that is refused or there already. */
  lemma LooksSame(o: Options, calls: seq<Call>, i: nat, c: Client, c': Client, look: Look)
    requires i < |calls| && Looks(o, calls, i, c, look)
    requires Ids(c'.mirror) == Ids(c.mirror) && c'.cardIds == c.cardIds && c'.idSeq == Generated(calls, i + 1)
    requires calls[i].AppendOf? && o.recallEmpty ==> c.cardIds != map[]
    ensures Looks(o, calls, i + 1, c', look)
  {
    assert |c'.mirror| == |Ids(c'.mirror)| == |c.mirror|;
    if calls[i].AppendOf? {
      AppendedOnce(calls, i);
    } else {
      AppendsBeforeStep(calls, i);
    }
    hide ElementIds.IsFooterId, AppendsBefore, Generated;
  }

  lemma LooksAdded(o: Options, calls: seq<Call>, i: nat, c: Client, c': Client, look: Look)
    requires i < |calls| && Looks(o, calls, i, c, look) && calls[i].AppendOf?
    requires Ids(c'.mirror) == Ids(c.mirror) + [IdAt(calls, i)] && c'.cardIds != map[] && c'.idSeq == Generated(calls, i + 1)
    ensures Looks(o, calls, i + 1, c', Added(look, IdAt(calls, i)))
  {
    assert |c'.mirror| == |Ids(c'.mirror)| == |c.mirror| + 1;
    AppendedOnce(calls, i);
    hide ElementIds.IsFooterId, AppendsBefore, Generated, IdAt;
  }

  lemma LooksFooted(o: Options, calls: seq<Call>, i: nat, c: Client, c': Client, look: Look, footer: string)
    requires i < |calls| && Looks(o, calls, i, c, look) && !calls[i].AppendOf? && ElementIds.IsFooterId(footer)
    requires Ids(c'.mirror) == Ids(c.mirror) + [footer] && c'.cardIds == c.cardIds && c'.idSeq == c.idSeq
    requires !RecallEmptyCard(o, c)
    ensures Looks(o, calls, i + 1, c', Ringing(look))
  {
    assert |c'.mirror| == |Ids(c'.mirror)| == |c.mirror| + 1;
    AppendsBeforeStep(calls, i);
    hide ElementIds.IsFooterId, AppendsBefore;
  }

  lemma LooksNew(o: Options, calls: seq<Call>, i: nat, c: Client, c': Client, look: Look, ids: seq<string>)
    requires i < |calls| && Looks(o, calls, i, c, look) && calls[i].AppendOf? && look.size > 0
    requires ids == [] || ids == [IdAt(calls, i)]
    requires Ids(c'.mirror) == ids && c'.idSeq == Generated(calls, i + 1)
    requires c.cardIds != map[] ==> c'.cardIds != map[]
    ensures Looks(o, calls, i + 1, c', NewCard(look, if ids == [] then {} else {IdAt(calls, i)}))
  {
    assert |c'.mirror| == |Ids(c'.mirror)| == |ids|;
    AppendedOnce(calls, i);
    hide ElementIds.IsFooterId, AppendsBefore, Generated, IdAt;
  }

  /** Whether the id is on the card, and whether a finish finds the card empty, can be read off the look. */
  lemma LooksTell(o: Options, calls: seq<Call>, i: nat, c: Client, look: Look)
    requires i < |calls| && Looks(o, calls, i, c, look) && NoFooterId(calls[i])
    ensures calls[i].AppendOf? ==> (HasId(c.mirror, IdAt(calls, i)) <==> IdAt(calls, i) in look.ids)
    ensures Finishes(calls[i]) ==> (Entering(o, calls, i) <==> !RecallEmptyCard(o, c))
    ensures calls[i].AppendOf? && o.recallEmpty && look.size > 0 ==> c.cardIds != map[]
  {
    if calls[i].AppendOf? {
      AppendId(calls, i, c);
      HasIdIffInIds(c.mirror, IdAt(calls, i));
    }
  }
}
