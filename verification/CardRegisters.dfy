// The stored card seen from outside: after any requests each of its fields,
// and each of its elements, is what was last said about it, the unread count
// has grown by the turns from silent to loud, and refused requests left no
// trace.

module CardRegisters {
  import opened Prelude
  import opened CardContent
  import opened Wire
  import opened Reorder

  // ---------------------------------------------------------------- requests

  /** Some element has this id. */
  ghost predicate Present(c: Card, id: string) {
    exists e <- c.elements :: e.id == id
  }

  /** What the server does not take: a missing field, an unknown id, segment or op. A full replace is always taken. */
  ghost predicate Malformed(c: Card, r: Request) {
    match r
    case Replace(_) => false
    case Delta(Append(element)) => element == None
    case Delta(Update(id, data)) => id == "" || data == None || !Present(c, id)
    case Delta(Remove(id)) => id == ""
    case Delta(Reorder(order)) => order == [] || exists id <- order :: !Present(c, id)
    case Delta(SetState(state)) => state == ""
    case Delta(SetSegment(segment)) => segment != "first" && segment != "middle" && segment != "last"
    case Delta(SetSilent(silent)) => silent == None
    case Delta(Unknown(_)) => true
  }

  lemma PresentIff(c: Card, id: string)
    ensures Present(c, id) <==> HasId(c.elements, id)
    ensures Present(c, id) <==> ById(c.elements, id).Some?
  {
    ByIdIffHas(c.elements, id);
    HasIdIffInIds(c.elements, id);
    if Present(c, id) {
      var e :| e in c.elements && e.id == id;
      var k :| 0 <= k < |c.elements| && c.elements[k] == e;
      assert Ids(c.elements)[k] == id;
    }
    if HasId(c.elements, id) {
      assert c.elements[IndexOf(c.elements, id)] in c.elements;
    }
  }

  /** Exactly the malformed requests are refused. */
  lemma RefusedIff(c: Card, r: Request)
    ensures ApplyRequest(c, r).Refuse? <==> Malformed(c, r)
  {
    forall id {
      PresentIff(c, id);
    }
    hide Present, HasId, ById;
  }

  /** The card after these requests, first one first. */
  function Take(c: Card, rs: seq<Request>): Card {
    if rs == [] then c
    else
      var before := Take(c, rs[..|rs| - 1]);
      var v := ApplyRequest(before, rs[|rs| - 1]);
      if v.Accept? then v.card else before
  }

  // ------------------------------------------------------------------ fields

  /** The last thing the requests say, or what was there before. */
  function Last<T>(rs: seq<Request>, says: Request -> Option<T>, was: T): T {
    if rs == [] then was
    else if says(rs[|rs| - 1]).Some? then says(rs[|rs| - 1]).value
    else Last(rs[..|rs| - 1], says, was)
  }

  function SaysState(r: Request): Option<string> {
    match r
    case Delta(SetState(state)) => if state == "" then None else Some(state)
    case Delta(_) => None
    case Replace(card) => Some(card.state)
  }

  function SaysSegment(r: Request): Option<Option<string>> {
    match r
    case Delta(SetSegment(segment)) =>
      if segment == "first" || segment == "middle" || segment == "last" then Some(Some(segment)) else None
    case Delta(_) => None
    case Replace(card) => Some(card.segment)
  }

  /** A full replace says silent only if it carries the key. */
  function SaysSilent(r: Request): Option<Option<bool>> {
    match r
    case Delta(SetSilent(silent)) => if silent.Some? then Some(silent) else None
    case Delta(_) => None
    case Replace(card) => if card.silent.Some? then Some(card.silent) else None
  }

  lemma {:induction false} FieldsAreLastSaid(c: Card, rs: seq<Request>)
    ensures var after := Take(c, rs);
            && after.state == Last(rs, SaysState, c.state)
            && after.segment == Last(rs, SaysSegment, c.segment)
            && after.silent == Last(rs, SaysSilent, c.silent)
  {
    if rs != [] {
      FieldsAreLastSaid(c, rs[..|rs| - 1]);
    }
  }

  // ---------------------------------------------------------------- elements

  /** The element called id. */
  function At(c: Card, id: string): Option<Elem> {
    if HasId(c.elements, id) then Some(c.elements[IndexOf(c.elements, id)]) else None
  }

  /** What the request makes of it. */
  function SaysElem(r: Request, id: string, was: Option<Elem>): Option<Elem> {
    match r
    case Delta(Append(Some(e))) => if e.id == id then Some(e) else was
    case Delta(Update(id', Some(data))) => if id' == id && id != "" && was.Some? then Some(was.value.(data := data)) else was
    case Delta(Remove(id')) => if id' == id && id != "" then None else was
    case Delta(_) => was
    case Replace(card) => At(card, id)
  }

  function ElemSaid(rs: seq<Request>, id: string, was: Option<Elem>): Option<Elem> {
    if rs == [] then was else SaysElem(rs[|rs| - 1], id, ElemSaid(rs[..|rs| - 1], id, was))
  }

  /** No element is appended under an id that is on the card, and none is in a list twice. */
  ghost predicate NoRepeats(c: Card, r: Request) {
    match r
    case Delta(Append(Some(e))) => !HasId(c.elements, e.id)
    case Delta(Reorder(order)) => Distinct(order)
    case Delta(_) => true
    case Replace(card) => Distinct(Ids(card.elements))
  }

  ghost predicate NeverRepeats(c: Card, rs: seq<Request>) {
    forall i :: 0 <= i < |rs| ==> NoRepeats(Take(c, rs[..i]), rs[i])
  }

  lemma AtPlace(es: seq<Elem>, id: string, e: Elem)
    requires Distinct(Ids(es)) && e in es && e.id == id
    ensures HasId(es, id) && es[IndexOf(es, id)] == e
  {
    var k :| 0 <= k < |es| && es[k] == e;
    HasIdAt(es, k);
  }

  lemma AtSame(c: Card, c': Card, id: string)
    requires Distinct(Ids(c.elements)) && Distinct(Ids(c'.elements))
    requires forall e: Elem :: e.id == id ==> (e in c.elements <==> e in c'.elements)
    ensures At(c', id) == At(c, id)
  {
    if HasId(c.elements, id) {
      AtPlace(c'.elements, id, c.elements[IndexOf(c.elements, id)]);
    } else if HasId(c'.elements, id) {
      AtPlace(c.elements, id, c'.elements[IndexOf(c'.elements, id)]);
    }
  }

  lemma {:induction false} RemovedMembers(es: seq<Elem>, gone: string)
    ensures forall e :: e in Without(es, gone) <==> e in es && e.id != gone
  {
    if es != [] {
      RemovedMembers(es[1..], gone);
      assert es == [es[0]] + es[1..];
    }
  }

  lemma {:induction false} RemovedDistinct(es: seq<Elem>, gone: string)
    requires Distinct(Ids(es))
    ensures Distinct(Ids(Without(es, gone)))
  {
    if es != [] {
      DistinctRest(es);
      RemovedDistinct(es[1..], gone);
      RemovedMembers(es[1..], gone);
      hide Without;
      var rest := Without(es[1..], gone);
      forall k | 0 <= k < |rest| ensures rest[k].id != es[0].id {
        assert rest[k] in rest;
        var i :| 0 <= i < |es[1..]| && es[1..][i] == rest[k];
        assert Ids(es[1..])[i] == rest[k].id;
      }
      IdsConcat([es[0]], rest);
      assert Distinct(Ids([es[0]] + rest));
      WithoutUnfolds(es, gone);
    }
  }

  lemma WithoutUnfolds(es: seq<Elem>, gone: string)
    requires es != []
    ensures var rest := Without(es[1..], gone); Without(es, gone) == if es[0].id == gone then rest else [es[0]] + rest
  {
  }

  lemma OneRequest(c: Card, r: Request, id: string)
    requires Distinct(Ids(c.elements)) && NoRepeats(c, r)
    ensures var after := if ApplyRequest(c, r).Accept? then ApplyRequest(c, r).card else c;
            Distinct(Ids(after.elements)) && At(after, id) == SaysElem(r, id, At(c, id))
  {
    match r {
      case Delta(Append(Some(e))) => AppendedAt(c, e, id);
      case Delta(Update(id', Some(data))) => UpdatedAt(c, id', data, id);
      case Delta(Remove(gone)) =>
        RemovedMembers(c.elements, gone);
        RemovedDistinct(c.elements, gone);
        if gone == id {
          RemovedAt(c.(elements := Without(c.elements, id)), id);
        } else {
          AtSame(c, c.(elements := Without(c.elements, gone)), id);
        }
      case Delta(Reorder(order)) =>
        hide Reordered, ById, At;
        ReorderLaws(c.elements, order);
        SameMembers(c.elements, Reordered(c.elements, order));
        AtSame(c, c.(elements := Reordered(c.elements, order)), id);
      case _ =>
    }
  }

  lemma SameMembers(es: seq<Elem>, p: seq<Elem>)
    requires multiset(p) == multiset(es)
    ensures forall e :: e in es <==> e in p
  {
    forall e ensures e in es <==> e in p {
      assert e in multiset(es) <==> e in multiset(p);
    }
  }

  lemma RemovedAt(c: Card, id: string)
    requires forall e <- c.elements :: e.id != id
    ensures At(c, id) == None
  {
  }

  lemma AppendedAt(c: Card, e: Elem, id: string)
    requires Distinct(Ids(c.elements)) && !HasId(c.elements, e.id)
    ensures Distinct(Ids(c.elements + [e]))
    ensures At(c.(elements := c.elements + [e]), id) == if e.id == id then Some(e) else At(c, id)
  {
    var all := c.elements + [e];
    HasIdIffInIds(c.elements, e.id);
    IdsConcat(c.elements, [e]);
    if e.id == id {
      assert all[|c.elements|] in all;
      AtPlace(all, id, e);
    } else {
      AtSame(c, c.(elements := all), id);
    }
  }

  lemma UpdatedAt(c: Card, id': string, data: Data, id: string)
    requires Distinct(Ids(c.elements))
    ensures var es := SetData(c.elements, id', data);
            Distinct(Ids(es))
            && At(c.(elements := es), id) == if id' == id && At(c, id).Some? then Some(At(c, id).value.(data := data)) else At(c, id)
  {
    var es := SetData(c.elements, id', data);
    var k := IndexOf(c.elements, id');
    if k < |c.elements| {
      if id' == id {
        assert es[k] in es;
        AtPlace(es, id, es[k]);
      } else {
        forall e: Elem | e.id == id ensures e in c.elements <==> e in es {
          if e in c.elements {
            var i :| 0 <= i < |c.elements| && c.elements[i] == e;
            assert es[i] == e;
          }
        }
        AtSame(c, c.(elements := es), id);
      }
    }
  }

  lemma {:induction false} ElementsAreLastSaid(c: Card, rs: seq<Request>, id: string)
    requires Distinct(Ids(c.elements)) && NeverRepeats(c, rs)
    ensures Distinct(Ids(Take(c, rs).elements))
    ensures At(Take(c, rs), id) == ElemSaid(rs, id, At(c, id))
  {
    hide ApplyRequest, NoRepeats, SaysElem, At;
    if rs != [] {
      var n := |rs| - 1;
      assert forall i :: 0 <= i < n ==> rs[..n][..i] == rs[..i];
      ElementsAreLastSaid(c, rs[..n], id);
      OneRequest(Take(c, rs[..n]), rs[n], id);
    }
  }

  // ------------------------------------------------------------------ unread

  /** The store after these requests to message m. */
  function Handled(w: World, m: nat, rs: seq<Request>): World {
    if rs == [] then w
    else
      var before := Handled(w, m, rs[..|rs| - 1]);
      var stored := Stored(before, Some(m), rs[|rs| - 1]);
      if stored.Some? then stored.value else before
  }

  /** How often a silent card is told not to be, by what was last said at the time. */
  function Rings(rs: seq<Request>, was: Option<bool>): nat {
    if rs == [] then 0
    else
      Rings(rs[..|rs| - 1], was)
      + if Last(rs[..|rs| - 1], SaysSilent, was) == Some(true) && SaysSilent(rs[|rs| - 1]) == Some(Some(false)) then 1 else 0
  }

  /** Unread grows with every turn from silent to loud, by op or by a full replace that says so, and with nothing else. */
  lemma {:induction false} UnreadCountsTurns(w: World, m: nat, rs: seq<Request>)
    requires Live(w, Some(m))
    ensures var w' := Handled(w, m, rs);
            && Live(w', Some(m)) && w'.messages[m].card == Take(w.messages[m].card, rs)
            && |w'.messages| == |w.messages| && (forall k :: 0 <= k < |w.messages| && k != m ==> w'.messages[k] == w.messages[k])
            && w'.unread == w.unread + Rings(rs, w.messages[m].card.silent)
  {
    if rs != [] {
      var n := |rs| - 1;
      UnreadCountsTurns(w, m, rs[..n]);
      FieldsAreLastSaid(w.messages[m].card, rs[..n]);
      SilentStep(Take(w.messages[m].card, rs[..n]), rs[n]);
      hide ApplyRequest, Flips, SaysSilent, Last;
    }
  }

  lemma SilentStep(c: Card, r: Request)
    ensures ApplyRequest(c, r).Accept? ==>
              (Flips(c, ApplyRequest(c, r).card) <==> c.silent == Some(true) && SaysSilent(r) == Some(Some(false)))
    ensures ApplyRequest(c, r).Refuse? ==> SaysSilent(r).None?
  {
  }
}
