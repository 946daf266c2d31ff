// The stored content of an aggregate card and the server's interpretation of
// the PATCH requests sent to it (applyContentOp and its helpers).

module CardContent {
  import opened Prelude

  // ---------------------------------------------------------------- data

  datatype Json =
    | Null
    | Bool(b: bool)
    | Num(n: int)
    | Text(s: string)
    | Arr(items: seq<Json>)
    | Obj(fields: map<string, Json>)

  type Data = map<string, Json>

  /** A wire element {type, element_id, data}; a missing element_id reads as "". */
  datatype Elem = Elem(kind: string, id: string, data: Data)

  /** silent is None when the content carries no readable silent key. */
  datatype Card = Card(elements: seq<Elem>, state: string, segment: Option<string>, silent: Option<bool>)

  /** data.op with the fields each op reads; an option is None when the field is absent. */
  datatype Op =
    | Append(element: Option<Elem>)
    | Update(id: string, data: Option<Data>)
    | Remove(id: string)
    | Reorder(order: seq<string>)
    | SetState(state: string)
    | SetSegment(segment: string)
    | SetSilent(silent: Option<bool>)
    | Unknown(name: string)

  /** A PATCH body: an incremental op, or (no op in data) a whole new content. */
  datatype Request = Delta(op: Op) | Replace(card: Card)

  datatype Verdict = Accept(card: Card) | Refuse

  // ------------------------------------------------------------- elements

  function Ids(es: seq<Elem>): (ids: seq<string>)
    ensures |ids| == |es|
    ensures forall i :: 0 <= i < |es| ==> ids[i] == es[i].id
  {
    seq(|es|, i requires 0 <= i < |es| => es[i].id)
  }

  lemma IdsConcat(a: seq<Elem>, b: seq<Elem>)
    ensures Ids(a + b) == Ids(a) + Ids(b)
  {
  }

  /** Position of the first element called id, or |es| when there is none. */
  function IndexOf(es: seq<Elem>, id: string): (i: nat)
    ensures i <= |es|
    ensures forall k :: 0 <= k < i ==> es[k].id != id
    ensures i < |es| ==> es[i].id == id
  {
    if es == [] then 0
    else if es[0].id == id then 0
    else 1 + IndexOf(es[1..], id)
  }

  predicate HasId(es: seq<Elem>, id: string) {
    IndexOf(es, id) < |es|
  }

  lemma HasIdAt(es: seq<Elem>, k: nat)
    requires k < |es|
    ensures HasId(es, es[k].id)
    ensures Distinct(Ids(es)) ==> IndexOf(es, es[k].id) == k
  {
    var i := IndexOf(es, es[k].id);
    assert i <= k;
    assert Distinct(Ids(es)) ==> Ids(es)[i] == Ids(es)[k];
  }

  lemma HasIdIffInIds(es: seq<Elem>, id: string)
    ensures HasId(es, id) <==> id in Ids(es)
  {
    if id in Ids(es) {
      var k :| 0 <= k < |es| && Ids(es)[k] == id;
      HasIdAt(es, k);
    }
  }

  /** The server's update: the first element called id gets the new data. */
  function SetData(es: seq<Elem>, id: string, data: Data): (r: seq<Elem>)
    ensures |r| == |es| && Ids(r) == Ids(es)
  {
    var i := IndexOf(es, id);
    if i < |es| then es[i := es[i].(data := data)] else es
  }

  /** The server's remove: every element called id goes. */
  function Without(es: seq<Elem>, id: string): seq<Elem> {
    if es == [] then []
    else if es[0].id == id then Without(es[1..], id)
    else [es[0]] + Without(es[1..], id)
  }

  // -------------------------------------------------------------- reorder

  /** The element a last-write-wins index by id holds for id. */
  function ById(es: seq<Elem>, id: string): Option<Elem> {
    if es == [] then None
    else if es[|es| - 1].id == id then Some(es[|es| - 1])
    else ById(es[..|es| - 1], id)
  }

  /** The listed elements in order, a repeated id skipped. */
  function Picked(es: seq<Elem>, order: seq<string>): seq<Elem> {
    if order == [] then []
    else
      var id := order[|order| - 1];
      var before := order[..|order| - 1];
      var rest := Picked(es, before);
      if id in before || ById(es, id).None? then rest else rest + [ById(es, id).value]
  }

  /** The elements whose id is not listed, in their old order. */
  function Unlisted(es: seq<Elem>, order: seq<string>): seq<Elem> {
    if es == [] then []
    else
      var rest := Unlisted(es[..|es| - 1], order);
      if es[|es| - 1].id in order then rest else rest + [es[|es| - 1]]
  }

  function Reordered(es: seq<Elem>, order: seq<string>): seq<Elem> {
    Picked(es, order) + Unlisted(es, order)
  }

  // ------------------------------------------------------------ the server

  predicate KnownSegment(segment: string) {
    segment == "first" || segment == "middle" || segment == "last"
  }

  function ApplyOp(c: Card, op: Op): Verdict {
    match op
    case Append(e) =>
      if e.None? then Refuse else Accept(c.(elements := c.elements + [e.value]))
    case Update(id, data) =>
      if id == "" || data.None? || !HasId(c.elements, id) then Refuse
      else Accept(c.(elements := SetData(c.elements, id, data.value)))
    case Remove(id) =>
      if id == "" then Refuse else Accept(c.(elements := Without(c.elements, id)))
    case Reorder(order) =>
      if order == [] || exists id <- order :: ById(c.elements, id).None? then Refuse
      else Accept(c.(elements := Reordered(c.elements, order)))
    case SetState(state) =>
      if state == "" then Refuse else Accept(c.(state := state))
    case SetSegment(segment) =>
      if KnownSegment(segment) then Accept(c.(segment := Some(segment))) else Refuse
    case SetSilent(silent) =>
      if silent.None? then Refuse else Accept(c.(silent := silent))
    case Unknown(_) => Refuse
  }

  /** A full replace that does not say silent keeps the stored one. */
  function MergePreservedSilent(c: Card, neu: Card): Card {
    if neu.silent.None? then neu.(silent := c.silent) else neu
  }

  function ApplyRequest(c: Card, r: Request): Verdict {
    match r
    case Delta(op) => ApplyOp(c, op)
    case Replace(neu) => Accept(MergePreservedSilent(c, neu))
  }

  /** contentSilent: a readable silent key that says true, or says false. */
  predicate IsSilent(c: Card) {
    c.silent.Some? && c.silent.value
  }

  predicate IsLoud(c: Card) {
    c.silent.Some? && !c.silent.value
  }

  /** The silent flip that turns a stored message into an unread one. */
  predicate Flips(before: Card, after: Card) {
    IsSilent(before) && IsLoud(after)
  }
}
