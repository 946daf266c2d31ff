// Two reorderings of the same elements: the server's reorder op (pick the
// listed ids, append the rest) and the plugin's stable sort of its shadow by
// rank. They agree when the order repeats no id; ReorderExact says when they
// agree for an order that does.

module Reorder {
  import opened Prelude
  import opened CardContent

  /** The rank a listed id gets: where it is listed last. */
  function LastPosition(order: seq<string>, id: string): (p: Option<nat>)
    ensures p.None? <==> id !in order
    ensures p.Some? ==> p.value < |order| && order[p.value] == id
  {
    if order == [] then None
    else if order[|order| - 1] == id then Some(|order| - 1)
    else LastPosition(order[..|order| - 1], id)
  }

  /** An unlisted id ranks as high as the number of different ids listed. */
  function Rank(order: seq<string>, id: string): nat {
    var p := LastPosition(order, id);
    if p.Some? then p.value else |(set x <- order)|
  }

  lemma RankWhenDistinct(order: seq<string>, id: string)
    requires Distinct(order)
    ensures id in order ==> Rank(order, id) < |order| && order[Rank(order, id)] == id
    ensures id !in order ==> Rank(order, id) == |order|
  {
    DistinctCount(order);
  }

  lemma DistinctCount(order: seq<string>)
    requires Distinct(order)
    ensures |(set x <- order)| == |order|
  {
    if order != [] {
      var before, last := order[..|order| - 1], order[|order| - 1];
      DistinctCount(before);
      assert (set x <- order) == (set x <- before) + {last} by {
        assert order == before + [last];
      }
    }
  }

  /** Stable insertion: e goes in front of everything ranked no lower than it. */
  function Insert(e: Elem, es: seq<Elem>, order: seq<string>): seq<Elem> {
    if es == [] || Rank(order, e.id) <= Rank(order, es[0].id) then [e] + es
    else [es[0]] + Insert(e, es[1..], order)
  }

  /** The stable sort of the elements by rank. */
  function SortByRank(es: seq<Elem>, order: seq<string>): seq<Elem> {
    if es == [] then [] else Insert(es[0], SortByRank(es[1..], order), order)
  }

  ghost predicate Ranked(es: seq<Elem>, order: seq<string>) {
    forall i, j :: 0 <= i < j < |es| ==> Rank(order, es[i].id) <= Rank(order, es[j].id)
  }

  // ------------------------------------------------ the sort is a stable sort

  lemma {:induction false} InsertPermutes(e: Elem, es: seq<Elem>, order: seq<string>)
    ensures multiset(Insert(e, es, order)) == multiset(es) + multiset{e}
    ensures forall x <- Insert(e, es, order) :: x == e || x in es
  {
    hide Rank;
    if es == [] || Rank(order, e.id) <= Rank(order, es[0].id) {
    } else {
      InsertPermutes(e, es[1..], order);
      assert es == [es[0]] + es[1..];
    }
  }

  lemma {:induction false} InsertRanked(e: Elem, es: seq<Elem>, order: seq<string>)
    requires Ranked(es, order)
    ensures Ranked(Insert(e, es, order), order)
  {
    hide Rank;
    if es == [] || Rank(order, e.id) <= Rank(order, es[0].id) {
    } else {
      InsertRanked(e, es[1..], order);
      InsertPermutes(e, es[1..], order);
      forall x | x in Insert(e, es[1..], order) ensures Rank(order, es[0].id) <= Rank(order, x.id) {
      }
    }
  }

  lemma {:induction false} SortIsSorting(es: seq<Elem>, order: seq<string>)
    ensures Ranked(SortByRank(es, order), order)
    ensures multiset(SortByRank(es, order)) == multiset(es)
  {
    hide Rank, Insert, Ranked;
    if es == [] {
      EmptyRanked(order);
    } else {
      SortIsSorting(es[1..], order);
      InsertRanked(es[0], SortByRank(es[1..], order), order);
      InsertPermutes(es[0], SortByRank(es[1..], order), order);
      assert es == [es[0]] + es[1..];
    }
  }

  lemma EmptyRanked(order: seq<string>)
    ensures Ranked([], order)
  {
  }

  lemma {:induction false} SortOfRanked(es: seq<Elem>, order: seq<string>)
    requires Ranked(es, order)
    ensures SortByRank(es, order) == es
  {
    if es != [] {
      SortOfRanked(es[1..], order);
    }
  }

  lemma InsertBetween(e: Elem, front: seq<Elem>, back: seq<Elem>, order: seq<string>)
    requires forall x <- front :: Rank(order, x.id) < Rank(order, e.id)
    requires forall x <- back :: Rank(order, e.id) <= Rank(order, x.id)
    ensures Insert(e, front + back, order) == front + [e] + back
  {
    hide Rank;
    if front == [] {
      assert front + back == back;
    } else {
      assert (front + back)[1..] == front[1..] + back;
      InsertBetween(e, front[1..], back, order);
    }
  }

  // ------------------------------------------- the server's pick, front first

  lemma ByIdFront(e: Elem, es: seq<Elem>, id: string)
    ensures ById([e] + es, id) == if ById(es, id).Some? then ById(es, id) else if e.id == id then Some(e) else None
  {
    var all := [e] + es;
    if es != [] {
      assert all[..|all| - 1] == [e] + es[..|es| - 1];
      ByIdFront(e, es[..|es| - 1], id);
    }
  }

  lemma ByIdIffHas(es: seq<Elem>, id: string)
    ensures ById(es, id).Some? <==> id in Ids(es)
    ensures ById(es, id).Some? ==> ById(es, id).value in es && ById(es, id).value.id == id
  {
    if es != [] {
      var n := |es| - 1;
      ByIdIffHas(es[..n], id);
      if id in Ids(es) {
        var k :| 0 <= k < |es| && Ids(es)[k] == id;
        assert k == n || Ids(es[..n])[k] == id;
      }
      if id in Ids(es[..n]) {
        var k :| 0 <= k < n && Ids(es[..n])[k] == id;
        assert Ids(es)[k] == id;
      }
      assert Ids(es)[n] == es[n].id;
    }
  }

  lemma PrefixRanks(order: seq<string>)
    requires Distinct(order) && order != []
    ensures var before := order[..|order| - 1];
            forall x <- before :: Rank(order, x) == Rank(before, x) < |before|
    ensures Rank(order, order[|order| - 1]) == |order| - 1
  {
    var before := order[..|order| - 1];
    forall x | x in before ensures Rank(order, x) == Rank(before, x) < |before| {
      RankWhenDistinct(order, x);
      RankWhenDistinct(before, x);
    }
    RankWhenDistinct(order, order[|order| - 1]);
  }

  /** Picking from [e] + es instead of es adds exactly e, at the place its rank gives it. */
  lemma PickedFront(e: Elem, es: seq<Elem>, order: seq<string>) returns (front: seq<Elem>, back: seq<Elem>)
    requires Distinct(order) && e.id !in Ids(es)
    ensures Picked(es, order) == front + back
    ensures Picked([e] + es, order) == if e.id in order then front + [e] + back else front + back
    ensures forall x <- front :: x.id in order && x.id != e.id
    ensures forall x <- back :: x.id in order && x.id != e.id
    ensures e.id in order ==> forall x <- front :: Rank(order, x.id) < Rank(order, e.id)
    ensures e.id in order ==> forall x <- back :: Rank(order, e.id) < Rank(order, x.id)
    ensures e.id !in order ==> back == []
  {
    hide Rank;
    front, back := [], [];
    if order != [] {
      var n := |order| - 1;
      var id, before := order[n], order[..n];
      assert order == before + [id];
      front, back := PickedFront(e, es, before);
      ByIdFront(e, es, id);
      ByIdIffHas(es, id);
      PrefixRanks(order);
      if id == e.id {
        front, back := Picked(es, before), [];
      } else if ById(es, id).Some? {
        var x := ById(es, id).value;
        if e.id in before {
          back := back + [x];
        } else {
          front := front + [x];
        }
      }
    }
  }

  lemma UnlistedFront(e: Elem, es: seq<Elem>, order: seq<string>)
    ensures Unlisted([e] + es, order) == (if e.id in order then [] else [e]) + Unlisted(es, order)
  {
    var all := [e] + es;
    if es != [] {
      assert all[..|all| - 1] == [e] + es[..|es| - 1];
      UnlistedFront(e, es[..|es| - 1], order);
    }
  }

  lemma UnlistedAreUnlisted(es: seq<Elem>, order: seq<string>)
    ensures forall x <- Unlisted(es, order) :: x.id !in order && x in es
  {
  }

  // ---------------------------------------------------------- main results

  /** Putting e in front of es moves the server's result exactly as stable insertion does. */
  lemma ReorderedFront(e: Elem, es: seq<Elem>, order: seq<string>)
    requires Distinct(order) && e.id !in Ids(es)
    ensures Reordered([e] + es, order) == Insert(e, Reordered(es, order), order)
  {
    hide Rank, Insert, Picked, Unlisted;
    var front, back := PickedFront(e, es, order);
    var tail := Unlisted(es, order);
    UnlistedFront(e, es, order);
    if e.id in order {
      RankBelowTail(e, es, order);
      InsertAmong(e, front, back, tail, order);
      assert [] + tail == tail;
    } else {
      assert front + back == front;
      UnlistedAreUnlisted(es, order);
      InsertUnlisted(e, front, tail, order);
      assert front + ([e] + tail) == front + [e] + tail;
    }
  }

  lemma RankBelowTail(e: Elem, es: seq<Elem>, order: seq<string>)
    requires Distinct(order)
    ensures forall x <- Unlisted(es, order) :: Rank(order, e.id) <= Rank(order, x.id)
  {
    hide LastPosition;
    RankWhenDistinct(order, e.id);
    TailRanksLast(es, order);
  }

  lemma InsertUnlisted(e: Elem, front: seq<Elem>, tail: seq<Elem>, order: seq<string>)
    requires Distinct(order) && e.id !in order
    requires forall x <- front :: x.id in order
    requires forall x <- tail :: x.id !in order
    ensures Insert(e, front + tail, order) == front + [e] + tail
  {
    hide LastPosition;
    RankWhenDistinct(order, e.id);
    ListedRankLow(front, order);
    forall x | x in tail ensures Rank(order, x.id) == |order| {
      RankWhenDistinct(order, x.id);
    }
    InsertBetween(e, front, tail, order);
  }

  lemma InsertAmong(e: Elem, front: seq<Elem>, back: seq<Elem>, tail: seq<Elem>, order: seq<string>)
    requires forall x <- front :: Rank(order, x.id) < Rank(order, e.id)
    requires forall x <- back :: Rank(order, e.id) <= Rank(order, x.id)
    requires forall x <- tail :: Rank(order, e.id) <= Rank(order, x.id)
    ensures Insert(e, (front + back) + tail, order) == (front + [e] + back) + tail
  {
    hide Rank, Insert;
    InsertBetween(e, front, back + tail, order);
    assert (front + back) + tail == front + (back + tail);
    assert (front + [e] + back) + tail == front + [e] + (back + tail);
  }

  lemma TailRanksLast(es: seq<Elem>, order: seq<string>)
    requires Distinct(order)
    ensures forall x <- Unlisted(es, order) :: Rank(order, x.id) == |order|
  {
    UnlistedAreUnlisted(es, order);
    forall x | x in Unlisted(es, order) ensures Rank(order, x.id) == |order| {
      RankWhenDistinct(order, x.id);
    }
  }

  lemma ListedRankLow(es: seq<Elem>, order: seq<string>)
    requires Distinct(order) && forall x <- es :: x.id in order
    ensures forall x <- es :: Rank(order, x.id) < |order|
  {
    forall x | x in es ensures Rank(order, x.id) < |order| {
      RankWhenDistinct(order, x.id);
    }
  }

  /** For distinct ids and a repeat-free order the server and the shadow compute the same sequence. */
  lemma {:induction false} ServerReorderIsStableSort(es: seq<Elem>, order: seq<string>)
    requires Distinct(Ids(es)) && Distinct(order)
    ensures Reordered(es, order) == SortByRank(es, order)
  {
    hide Rank, Insert, Picked, Unlisted, Distinct;
    if es == [] {
      PickedNothing(order);
    } else {
      var e, rest := es[0], es[1..];
      assert es == [e] + rest;
      DistinctRest(es);
      ServerReorderIsStableSort(rest, order);
      ReorderedFront(e, rest, order);
    }
  }

  lemma DistinctRest(es: seq<Elem>)
    requires es != [] && Distinct(Ids(es))
    ensures Distinct(Ids(es[1..])) && es[0].id !in Ids(es[1..])
  {
    assert Ids(es[1..]) == Ids(es)[1..];
  }

  lemma PickedNothing(order: seq<string>)
    ensures Picked([], order) == []
    ensures Reordered([], order) == []
  {
  }

  /** reorder loses and invents nothing, leaves the unlisted elements at the tail in order, and is idempotent. */
  lemma ReorderLaws(es: seq<Elem>, order: seq<string>)
    requires Distinct(Ids(es)) && Distinct(order)
    ensures multiset(Reordered(es, order)) == multiset(es) && |Reordered(es, order)| == |es|
    ensures Distinct(Ids(Reordered(es, order)))
    ensures Reordered(Reordered(es, order), order) == Reordered(es, order)
    ensures exists k :: 0 <= k <= |es| && Reordered(es, order)[k..] == Unlisted(es, order)
                     && forall i :: 0 <= i < k ==> Reordered(es, order)[i].id in order
  {
    hide Rank, Insert, Picked, Unlisted, SortByRank, Distinct;
    ServerReorderIsStableSort(es, order);
    SortIsSorting(es, order);
    var r := Reordered(es, order);
    SameElementsSameIds(es, r);
    ServerReorderIsStableSort(r, order);
    SortOfRanked(r, order);
    assert |multiset(r)| == |r| && |multiset(es)| == |es|;
    PickedAreListed(es, order);
    var k := |Picked(es, order)|;
    assert r[..k] == Picked(es, order) && r[k..] == Unlisted(es, order);
    forall i | 0 <= i < k ensures r[i].id in order {
      assert r[i] in Picked(es, order);
    }
  }

  lemma PickedAreListed(es: seq<Elem>, order: seq<string>)
    ensures forall x <- Picked(es, order) :: x.id in order && x in es
  {
    if order != [] {
      ByIdIffHas(es, order[|order| - 1]);
      PickedAreListed(es, order[..|order| - 1]);
    }
  }

  lemma SameElementsSameIds(a: seq<Elem>, b: seq<Elem>)
    requires multiset(a) == multiset(b) && Distinct(Ids(a))
    ensures Distinct(Ids(b))
  {
    forall i, j | 0 <= i < j < |b| ensures b[i].id != b[j].id {
      assert b[i] in multiset(a) && b[j] in multiset(a);
      if b[i].id == b[j].id {
        var k :| 0 <= k < |a| && a[k] == b[i];
        var l :| 0 <= l < |a| && a[l] == b[j];
        assert Ids(a)[k] == Ids(a)[l];
        CountTwo(b, i, j);
        CountAtMostOne(a, k);
      }
    }
  }

  lemma CountTwo(b: seq<Elem>, i: nat, j: nat)
    requires i < j < |b| && b[i] == b[j]
    ensures multiset(b)[b[i]] >= 2
  {
    var front, back := b[..j], b[j..];
    assert b == front + back;
    assert b[i] in front && b[i] in back by {
      assert front[i] == b[i] && back[0] == b[j];
    }
  }

  lemma CountAtMostOne(a: seq<Elem>, k: nat)
    requires k < |a| && Distinct(Ids(a))
    ensures multiset(a)[a[k]] == 1
  {
    assert a == a[..k] + [a[k]] + a[k + 1..];
    forall i | 0 <= i < |a| && i != k ensures a[i] != a[k] {
      assert Ids(a)[i] != Ids(a)[k];
    }
    assert a[k] !in a[..k] && a[k] !in a[k + 1..];
  }

  /** A repeated id tells the two apart: the server keeps its first place, the sort its last. */
  lemma RepeatedIdsTellThemApart(x: Elem, y: Elem)
    requires x.id != y.id
    ensures var order := [x.id, y.id, x.id];
            Reordered([x, y], order) == [x, y] && SortByRank([x, y], order) == [y, x]
  {
    var es, order := [x, y], [x.id, y.id, x.id];
    RepeatRanks(x.id, y.id);
    RepeatPicks(x, y);
    hide Rank, Picked, Unlisted;
    assert es[1..] == [y] && [y][1..] == [];
    assert SortByRank([y], order) == [y];
    assert Insert(x, [y], order) == [y, x];
  }

  lemma RepeatRanks(a: string, b: string)
    requires a != b
    ensures Rank([a, b, a], a) == 2 && Rank([a, b, a], b) == 1
  {
    var order := [a, b, a];
    assert order[..2] == [a, b];
    assert LastPosition(order[..2], b) == Some(1);
  }

  lemma RepeatPicks(x: Elem, y: Elem)
    requires x.id != y.id
    ensures Picked([x, y], [x.id, y.id, x.id]) == [x, y]
    ensures Unlisted([x, y], [x.id, y.id, x.id]) == []
  {
    var es, order := [x, y], [x.id, y.id, x.id];
    assert es[..1] == [x] && [x][..0] == [];
    assert ById([x], x.id) == Some(x);
    var two, one := order[..2], order[..1];
    assert two[..1] == one && one[..0] == [];
    assert Picked(es, one) == [x];
    assert Picked(es, two) == [x] + [y];
    assert Unlisted([x], order) == [];
  }
}
