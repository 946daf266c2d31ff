// The PATCH handler of the server: applyContentOp with its loops over the
// element array, and the silent-flip accounting of UpdateContent.

module MessageHandler {
  import opened Prelude
  import opened CardContent

  /** The update case: replace the data of the first match, or report none. */
  method UpdateElement(elems: seq<Elem>, id: string, data: Data) returns (out: seq<Elem>, found: bool)
    ensures found <==> HasId(elems, id)
    ensures out == SetData(elems, id, data)
  {
    for i := 0 to |elems|
      invariant forall k :: 0 <= k < i ==> elems[k].id != id
    {
      if elems[i].id == id {
        HasIdAt(elems, i);
        return elems[i := elems[i].(data := data)], true;
      }
    }
    return elems, false;
  }

  lemma WithoutSnoc(es: seq<Elem>, e: Elem, id: string)
    ensures Without(es + [e], id) == if e.id == id then Without(es, id) else Without(es, id) + [e]
  {
    if es != [] {
      assert (es + [e])[1..] == es[1..] + [e];
      WithoutSnoc(es[1..], e, id);
    }
  }

  /** The remove case. */
  method RemoveElement(elems: seq<Elem>, id: string) returns (kept: seq<Elem>)
    ensures kept == Without(elems, id)
  {
    kept := [];
    for i := 0 to |elems|
      invariant kept == Without(elems[..i], id)
    {
      WithoutSnoc(elems[..i], elems[i], id);
      assert elems[..i + 1] == elems[..i] + [elems[i]];
      if elems[i].id != id {
        kept := kept + [elems[i]];
      }
    }
    assert elems[..|elems|] == elems;
  }

  /** byID: the last element with each id wins. */
  method IndexById(elems: seq<Elem>) returns (byId: map<string, Elem>)
    ensures forall id :: (id in byId <==> ById(elems, id).Some?)
    ensures forall id :: id in byId ==> ById(elems, id) == Some(byId[id])
  {
    byId := map[];
    for i := 0 to |elems|
      invariant forall id :: (id in byId <==> ById(elems[..i], id).Some?)
      invariant forall id :: id in byId ==> ById(elems[..i], id) == Some(byId[id])
    {
      assert elems[..i + 1][..i] == elems[..i];
      byId := byId[elems[i].id := elems[i]];
    }
    assert elems[..|elems|] == elems;
  }

  /** The reorder case: None is the error for an id the card does not hold. */
  method ReorderElements(elems: seq<Elem>, order: seq<string>) returns (ordered: Option<seq<Elem>>)
    ensures ordered.None? <==> exists id <- order :: ById(elems, id).None?
    ensures ordered.Some? ==> ordered.value == Reordered(elems, order)
  {
    var byId := IndexById(elems);
    var seen: set<string> := {};
    var out: seq<Elem> := [];
    var i := 0;
    while i < |order|
      invariant 0 <= i <= |order|
      invariant seen == set id <- order[..i]
      invariant forall id <- order[..i] :: ById(elems, id).Some?
      invariant out == Picked(elems, order[..i])
    {
      var id := order[i];
      assert order[..i + 1][..i] == order[..i];
      assert order[..i + 1] == order[..i] + [id];
      if id !in byId {
        assert id in order && ById(elems, id).None?;
        return None;
      }
      if id !in seen {
        out := out + [byId[id]];
        seen := seen + {id};
      }
      i := i + 1;
    }
    assert order[..|order|] == order;
    ghost var front := out;
    for j := 0 to |elems|
      invariant out == front + Unlisted(elems[..j], order)
    {
      assert elems[..j + 1][..j] == elems[..j];
      if elems[j].id !in seen {
        out := out + [elems[j]];
      }
    }
    assert elems[..|elems|] == elems;
    return Some(out);
  }

  /** applyContentOp: the merged content to store, or the 400 it answers with. */
  method ApplyContentOp(orig: Card, req: Request) returns (v: Verdict)
    ensures v == ApplyRequest(orig, req)
  {
    match req
    case Replace(neu) =>
      v := Accept(MergePreservedSilent(orig, neu));
    case Delta(op) =>
      match op {
        case Append(e) =>
          v := if e.None? then Refuse else Accept(orig.(elements := orig.elements + [e.value]));
        case Update(id, data) =>
          if id == "" || data.None? { return Refuse; }
          var elems, found := UpdateElement(orig.elements, id, data.value);
          v := if found then Accept(orig.(elements := elems)) else Refuse;
        case Remove(id) =>
          if id == "" { return Refuse; }
          var kept := RemoveElement(orig.elements, id);
          v := Accept(orig.(elements := kept));
        case Reorder(order) =>
          if order == [] { return Refuse; }
          var ordered := ReorderElements(orig.elements, order);
          v := if ordered.Some? then Accept(orig.(elements := ordered.value)) else Refuse;
        case SetState(state) =>
          v := if state == "" then Refuse else Accept(orig.(state := state));
        case SetSegment(segment) =>
          v := if KnownSegment(segment) then Accept(orig.(segment := Some(segment))) else Refuse;
        case SetSilent(silent) =>
          v := if silent.None? then Refuse else Accept(orig.(silent := silent));
        case Unknown(_) =>
          v := Refuse;
      }
  }
}
