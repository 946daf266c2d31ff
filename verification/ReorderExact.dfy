// When exactly the server's reorder and the plugin's sort agree, for an order
// that may repeat ids: the first occurrences of the ids present come in the
// same order as the last ones, and no listed element ranks behind an unlisted
// one.

module ReorderExact {
  import opened Prelude
  import opened CardContent
  import opened Reorder

  /** The position at which id is first listed, or the length of the order. */
  function FirstPosition(order: seq<string>, id: string): (p: nat)
    ensures p <= |order| && (p < |order| <==> id in order)
    ensures p < |order| ==> order[p] == id
    ensures forall k :: 0 <= k < p ==> order[k] != id
  {
    if order == [] then 0
    else
      var p := FirstPosition(order[..|order| - 1], id);
      if p < |order| - 1 then p
      else if order[|order| - 1] == id then |order| - 1
      else |order|
  }

  /** In the sorted shadow x comes before y. */
  predicate SortBefore(es: seq<Elem>, order: seq<string>, x: Elem, y: Elem) {
    Rank(order, x.id) < Rank(order, y.id)
    || (Rank(order, x.id) == Rank(order, y.id) && IndexOf(es, x.id) < IndexOf(es, y.id))
  }

  /** On the server's card x comes before y. */
  predicate ServerBefore(es: seq<Elem>, order: seq<string>, x: Elem, y: Elem) {
    if x.id in order && y.id in order then FirstPosition(order, x.id) < FirstPosition(order, y.id)
    else if x.id in order then true
    else y.id !in order && IndexOf(es, x.id) < IndexOf(es, y.id)
  }

  ghost predicate SortOrdered(r: seq<Elem>, es: seq<Elem>, order: seq<string>) {
    forall i, j :: 0 <= i < j < |r| ==> SortBefore(es, order, r[i], r[j])
  }

  ghost predicate ServerOrdered(r: seq<Elem>, es: seq<Elem>, order: seq<string>) {
    forall i, j :: 0 <= i < j < |r| ==> ServerBefore(es, order, r[i], r[j])
  }

  // ------------------------------------------------------------------ the sort

  lemma IndexShift(e: Elem, es: seq<Elem>, id: string)
    ensures IndexOf([e] + es, id) == if e.id == id then 0 else 1 + IndexOf(es, id)
  {
    assert ([e] + es)[1..] == es;
  }

  lemma {:induction false} InsertOrdered(e: Elem, es: seq<Elem>, r: seq<Elem>, order: seq<string>)
    requires e.id !in Ids(es) && (forall x <- r :: x in es) && SortOrdered(r, [e] + es, order)
    ensures SortOrdered(Insert(e, r, order), [e] + es, order)
  {
    hide Rank, IndexOf;
    var all := [e] + es;
    IndexShift(e, es, e.id);
    forall x | x in r ensures IndexOf(all, x.id) > 0 && x.id != e.id {
      var k :| 0 <= k < |es| && es[k] == x;
      assert Ids(es)[k] == x.id;
      IndexShift(e, es, x.id);
    }
    if r == [] {
    } else if Rank(order, e.id) <= Rank(order, r[0].id) {
      forall x | x in r ensures SortBefore(all, order, e, x) {
        var k :| 0 <= k < |r| && r[k] == x;
        assert k > 0 ==> SortBefore(all, order, r[0], r[k]);
      }
    } else {
      assert SortOrdered(r[1..], all, order);
      InsertOrdered(e, es, r[1..], order);
      InsertPermutes(e, r[1..], order);
      forall x | x in Insert(e, r[1..], order) ensures SortBefore(all, order, r[0], x) {
        if x in r[1..] {
          var k :| 0 <= k < |r[1..]| && r[1..][k] == x;
          assert SortBefore(all, order, r[0], r[k + 1]);
        }
      }
    }
  }

  lemma {:induction false} SortIsOrdered(es: seq<Elem>, order: seq<string>)
    requires Distinct(Ids(es))
    ensures SortOrdered(SortByRank(es, order), es, order)
  {
    hide Rank, Insert, IndexOf;
    if es != [] {
      var e, rest := es[0], es[1..];
      assert es == [e] + rest;
      DistinctRest(es);
      SortIsOrdered(rest, order);
      var r := SortByRank(rest, order);
      SortIsSorting(rest, order);
      assert forall x <- r :: x in rest by {
        forall x | x in r ensures x in rest {
          assert x in multiset(r);
        }
      }
      forall i, j | 0 <= i < j < |r| ensures SortBefore(es, order, r[i], r[j]) {
        assert r[i] in r && r[j] in r;
        assert SortBefore(rest, order, r[i], r[j]);
        NotFirst(e, rest, r[i]);
        NotFirst(e, rest, r[j]);
      }
      InsertOrdered(e, rest, r, order);
    }
  }

  lemma NotFirst(e: Elem, es: seq<Elem>, x: Elem)
    requires e.id !in Ids(es) && x in es
    ensures x.id != e.id && IndexOf([e] + es, x.id) == 1 + IndexOf(es, x.id)
  {
    var k :| 0 <= k < |es| && es[k] == x;
    assert Ids(es)[k] == x.id;
    IndexShift(e, es, x.id);
  }

  // ---------------------------------------------------------------- the server

  lemma FirstSnoc(order: seq<string>, last: string, id: string)
    ensures FirstPosition(order + [last], id) ==
            if id in order then FirstPosition(order, id) else if id == last then |order| else |order| + 1
  {
    assert (order + [last])[..|order|] == order;
  }

  /** The picked elements are the listed ones present, in order of first listing. */
  lemma {:induction false} PickedOrdered(es: seq<Elem>, order: seq<string>)
    requires Distinct(Ids(es))
    ensures var r := Picked(es, order);
            && (forall x :: x in r <==> x in es && x.id in order)
            && (forall i, j :: 0 <= i < j < |r| ==> FirstPosition(order, r[i].id) < FirstPosition(order, r[j].id))
  {
    if order != [] {
      var n := |order| - 1;
      var before, id := order[..n], order[n];
      assert order == before + [id];
      PickedOrdered(es, before);
      ByIdIffHas(es, id);
      var rest, r := Picked(es, before), Picked(es, order);
      forall x | x in es && x.id == id ensures ById(es, id) == Some(x) {
        var k :| 0 <= k < |es| && es[k] == x;
        assert Ids(es)[k] == id;
        SameIdSame(es, ById(es, id).value, x);
      }
      hide ById, FirstPosition;
      forall i, j | 0 <= i < j < |r| ensures FirstPosition(order, r[i].id) < FirstPosition(order, r[j].id) {
        assert r[i] in rest;
        FirstSnoc(before, id, r[i].id);
        FirstSnoc(before, id, r[j].id);
        assert j < |rest| ==> r[j] in rest;
      }
    }
  }

  lemma SameIdSame(es: seq<Elem>, x: Elem, y: Elem)
    requires Distinct(Ids(es)) && x in es && y in es && x.id == y.id
    ensures x == y
  {
    var i :| 0 <= i < |es| && es[i] == x;
    var j :| 0 <= j < |es| && es[j] == y;
    assert Ids(es)[i] == Ids(es)[j];
  }

  lemma IndexOfAt(es: seq<Elem>, k: nat)
    requires Distinct(Ids(es)) && k < |es|
    ensures IndexOf(es, es[k].id) == k
  {
    HasIdAt(es, k);
  }

  ghost predicate ByIndex(r: seq<Elem>, es: seq<Elem>) {
    forall i, j :: 0 <= i < j < |r| ==> IndexOf(es, r[i].id) < IndexOf(es, r[j].id)
  }

  /** es is front with one element more. */
  ghost predicate Extends(es: seq<Elem>, front: seq<Elem>) {
    && |es| == |front| + 1 && Distinct(Ids(es)) && Distinct(Ids(front))
    && forall k :: 0 <= k < |front| ==> es[k] == front[k]
  }

  lemma IndexKept(front: seq<Elem>, es: seq<Elem>, x: Elem)
    requires Extends(es, front) && x in front
    ensures IndexOf(es, x.id) == IndexOf(front, x.id) < |front|
  {
    var k :| 0 <= k < |front| && front[k] == x;
    IndexOfAt(front, k);
    IndexOfAt(es, k);
  }

  lemma ByIndexSnoc(rest: seq<Elem>, front: seq<Elem>, es: seq<Elem>)
    requires ByIndex(rest, front) && (forall x <- rest :: x in front) && Extends(es, front)
    ensures ByIndex(rest, es) && ByIndex(rest + [es[|front|]], es)
  {
    IndexOfAt(es, |front|);
    hide IndexOf, Extends;
    forall i | 0 <= i < |rest| ensures IndexOf(es, rest[i].id) == IndexOf(front, rest[i].id) < |front| {
      assert rest[i] in rest;
      IndexKept(front, es, rest[i]);
    }
  }

  /** The unlisted elements keep their order. */
  lemma {:induction false} UnlistedOrdered(es: seq<Elem>, order: seq<string>)
    requires Distinct(Ids(es))
    ensures forall x :: x in Unlisted(es, order) <==> x in es && x.id !in order
    ensures ByIndex(Unlisted(es, order), es)
  {
    hide ByIndex;
    if es == [] {
      NoneByIndex(es);
    } else {
      var n := |es| - 1;
      var front := es[..n];
      assert es == front + [es[n]];
      assert Ids(front) == Ids(es)[..n];
      UnlistedOrdered(front, order);
      ByIndexSnoc(Unlisted(front, order), front, es);
    }
  }

  lemma NoneByIndex(es: seq<Elem>)
    ensures ByIndex([], es)
  {
  }

  lemma ServerIsOrdered(es: seq<Elem>, order: seq<string>)
    requires Distinct(Ids(es))
    ensures ServerOrdered(Reordered(es, order), es, order)
    ensures forall x :: x in Reordered(es, order) <==> x in es
  {
    PickedOrdered(es, order);
    UnlistedOrdered(es, order);
    hide Picked, Unlisted, IndexOf, FirstPosition;
    var a, b := Picked(es, order), Unlisted(es, order);
    var r := a + b;
    forall i, j | 0 <= i < j < |r| ensures ServerBefore(es, order, r[i], r[j]) {
      assert i < |a| ==> r[i] in a;
      assert i >= |a| ==> r[i] in b;
      assert j < |a| ==> r[j] in a;
      assert j >= |a| ==> r[j] in b;
    }
  }

  // ------------------------------------------------------------- two orderings

  ghost predicate Agree(es: seq<Elem>, order: seq<string>) {
    forall x, y :: x in es && y in es && x != y ==> (SortBefore(es, order, x, y) <==> ServerBefore(es, order, x, y))
  }

  /** A strict order has at most one sequence of the same elements. */
  lemma {:induction false} OneOrdering(a: seq<Elem>, b: seq<Elem>, es: seq<Elem>, order: seq<string>)
    requires SortOrdered(a, es, order) && SortOrdered(b, es, order)
    requires forall x :: x in a <==> x in b
    ensures a == b
  {
    hide SortBefore;
    if a == [] {
      HasFirst(b);
    } else if b == [] {
      HasFirst(a);
    } else {
      SameFirst(a, b, es, order);
      NoRepeats(a, es, order);
      NoRepeats(b, es, order);
      forall z ensures z in a[1..] <==> z in b[1..] {
        assert z in a <==> z == a[0] || z in a[1..];
        assert z in b <==> z == b[0] || z in b[1..];
      }
      OneOrdering(a[1..], b[1..], es, order);
      assert a == [a[0]] + a[1..] && b == [b[0]] + b[1..];
    }
  }

  lemma HasFirst(b: seq<Elem>)
    ensures b != [] ==> b[0] in b
  {
  }

  lemma SameFirst(a: seq<Elem>, b: seq<Elem>, es: seq<Elem>, order: seq<string>)
    requires SortOrdered(a, es, order) && SortOrdered(b, es, order) && a != [] && b != []
    requires a[0] in b && b[0] in a
    ensures a[0] == b[0]
  {
    hide SortBefore;
    var i :| 0 <= i < |a| && a[i] == b[0];
    var j :| 0 <= j < |b| && b[j] == a[0];
    if a[0] != b[0] {
      assert SortBefore(es, order, a[0], a[i]);
      assert SortBefore(es, order, b[0], b[j]);
      Asymmetric(es, order, a[0], b[0]);
    }
  }

  lemma Asymmetric(es: seq<Elem>, order: seq<string>, x: Elem, y: Elem)
    ensures !(SortBefore(es, order, x, y) && SortBefore(es, order, y, x))
  {
  }

  lemma NoRepeats(a: seq<Elem>, es: seq<Elem>, order: seq<string>)
    requires SortOrdered(a, es, order)
    ensures Distinct(a)
  {
    forall i, j | 0 <= i < j < |a| ensures a[i] != a[j] {
      Asymmetric(es, order, a[i], a[j]);
    }
  }

  lemma ServerAsymmetric(es: seq<Elem>, order: seq<string>, x: Elem, y: Elem)
    ensures !(ServerBefore(es, order, x, y) && ServerBefore(es, order, y, x))
  {
  }

  lemma SameIffAgree(es: seq<Elem>, order: seq<string>)
    requires Distinct(Ids(es))
    ensures Reordered(es, order) == SortByRank(es, order) <==> Agree(es, order)
  {
    hide SortBefore, ServerBefore, Picked, Unlisted, Insert, Rank;
    var a, b := SortByRank(es, order), Reordered(es, order);
    SortIsOrdered(es, order);
    SortIsSorting(es, order);
    ServerIsOrdered(es, order);
    forall x ensures x in a <==> x in es {
      assert x in multiset(a) <==> x in multiset(es);
    }
    if a == b {
      forall x, y | x in es && y in es && x != y
        ensures SortBefore(es, order, x, y) <==> ServerBefore(es, order, x, y)
      {
        assert x in a && y in a;
        var i :| 0 <= i < |a| && a[i] == x;
        var j :| 0 <= j < |a| && a[j] == y;
        Asymmetric(es, order, x, y);
        ServerAsymmetric(es, order, x, y);
        if i < j {
          assert SortBefore(es, order, a[i], a[j]) && ServerBefore(es, order, b[i], b[j]);
        } else {
          assert SortBefore(es, order, a[j], a[i]) && ServerBefore(es, order, b[j], b[i]);
        }
      }
    }
    if Agree(es, order) {
      forall i, j | 0 <= i < j < |b| ensures SortBefore(es, order, b[i], b[j]) {
        assert b[i] in es && b[j] in es && ServerBefore(es, order, b[i], b[j]);
        ServerAsymmetric(es, order, b[i], b[j]);
      }
      OneOrdering(a, b, es, order);
    }
  }

  // -------------------------------------------------------------- main result

  /** The ids present are listed for the first time in the same order as for the last time. */
  ghost predicate FirstsLikeLasts(es: seq<Elem>, order: seq<string>) {
    forall x, y :: x in es && y in es && x.id in order && y.id in order
                   && FirstPosition(order, x.id) < FirstPosition(order, y.id) ==>
      LastPosition(order, x.id).value < LastPosition(order, y.id).value
  }

  /** No listed element ranks behind an unlisted one: its last place is below the number of ids listed, or ties with it in front. */
  ghost predicate ListedRankFirst(es: seq<Elem>, order: seq<string>) {
    forall x, z :: x in es && z in es && x.id in order && z.id !in order ==>
      var listed := |(set id <- order)|;
      var last := LastPosition(order, x.id).value;
      last < listed || (last == listed && IndexOf(es, x.id) < IndexOf(es, z.id))
  }

  /** For distinct ids and any order: the two reorderings agree exactly if both conditions hold. */
  lemma ReordersAgreeIff(es: seq<Elem>, order: seq<string>)
    requires Distinct(Ids(es))
    ensures Reordered(es, order) == SortByRank(es, order) <==> FirstsLikeLasts(es, order) && ListedRankFirst(es, order)
  {
    SameIffAgree(es, order);
    hide Reordered, SortByRank, Agree, FirstsLikeLasts, ListedRankFirst;
    if FirstsLikeLasts(es, order) && ListedRankFirst(es, order) {
      ConditionsAgree(es, order);
    }
    if Agree(es, order) {
      AgreeConditions(es, order);
    }
  }

  lemma ConditionsAgree(es: seq<Elem>, order: seq<string>)
    requires Distinct(Ids(es)) && FirstsLikeLasts(es, order) && ListedRankFirst(es, order)
    ensures Agree(es, order)
  {
    forall x, y | x in es && y in es && x != y
      ensures SortBefore(es, order, x, y) <==> ServerBefore(es, order, x, y)
    {
      DifferentIds(es, x, y);
      hide IndexOf, FirstPosition, LastPosition;
      OnePair(es, order, x, y);
    }
  }

  lemma OnePair(es: seq<Elem>, order: seq<string>, x: Elem, y: Elem)
    requires FirstsLikeLasts(es, order) && ListedRankFirst(es, order)
    requires x in es && y in es && x.id != y.id && IndexOf(es, x.id) != IndexOf(es, y.id)
    ensures SortBefore(es, order, x, y) <==> ServerBefore(es, order, x, y)
  {
    hide IndexOf, FirstPosition, LastPosition;
    if x.id in order && y.id in order {
      assert FirstPosition(order, x.id) != FirstPosition(order, y.id);
      hide ListedRankFirst;
    } else {
      hide FirstsLikeLasts;
    }
  }

  lemma AgreeConditions(es: seq<Elem>, order: seq<string>)
    requires Distinct(Ids(es)) && Agree(es, order)
    ensures FirstsLikeLasts(es, order) && ListedRankFirst(es, order)
  {
    hide IndexOf, FirstPosition, LastPosition;
    forall x, y | x in es && y in es && x.id in order && y.id in order
                  && FirstPosition(order, x.id) < FirstPosition(order, y.id)
      ensures LastPosition(order, x.id).value < LastPosition(order, y.id).value
    {
      assert SortBefore(es, order, x, y) <==> ServerBefore(es, order, x, y);
      DifferentIds(es, x, y);
    }
    forall x, z | x in es && z in es && x.id in order && z.id !in order
      ensures var listed := |(set id <- order)|;
              var last := LastPosition(order, x.id).value;
              last < listed || (last == listed && IndexOf(es, x.id) < IndexOf(es, z.id))
    {
      assert SortBefore(es, order, x, z) <==> ServerBefore(es, order, x, z);
    }
  }

  lemma DifferentIds(es: seq<Elem>, x: Elem, y: Elem)
    requires Distinct(Ids(es)) && x in es && y in es && x != y
    ensures x.id != y.id && IndexOf(es, x.id) != IndexOf(es, y.id)
  {
    var i :| 0 <= i < |es| && es[i] == x;
    var j :| 0 <= j < |es| && es[j] == y;
    IndexOfAt(es, i);
    IndexOfAt(es, j);
    assert Ids(es)[i] != Ids(es)[j];
  }
}
