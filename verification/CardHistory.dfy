// The data the store holds for an element, told by the calls alone: a
// fault-free call changes the data of the element it addresses and of no
// other, on the current card and on the cards left behind.

module CardHistory {
  import opened Prelude
  import opened CardContent
  import opened Wire
  import opened CardSpec
  import opened CardFaults
  import opened CardFaultFree
  import CardSplit
  import opened CardSync
  import CardUnread
  import CardFields
  import ElementIds

  // --------------------------------------- an element of an earlier card

  /** The element is filed under a card the open round has left. */
  predicate OnEarlierCard(s: Sys, id: string) {
    !s.c.isSealed && !HasId(s.c.mirror, id) && id in s.c.cardIds && Some(s.c.cardIds[id]) != s.c.messageId
  }

  /** w' is w, but for the element called id on message m, which has this data. */
  ghost predicate Rewritten(w: World, w': World, m: nat, id: string, data: Data) {
    && m < |w.messages|
    && var card := w.messages[m].card;
       var k := IndexOf(card.elements, id);
       && k < |card.elements|
       && w'.messages == w.messages[m := w.messages[m].(card := card.(elements := card.elements[k := card.elements[k].(data := data)]))]
       && w'.unread == w.unread
  }

  /**
   * An update of such an element goes to its card with the caller's data as
   * it stands: the call returns only if that element has that data and
   * nothing else has changed; if it fails, that has happened or nothing has.
   */
  lemma EarlierUpdate(o: Options, s: Sys, id: string, data: Data)
    requires OnEarlierCard(s, id)
    ensures var r := Perform(o, s, UpdateOf(id, data));
            var m := s.c.cardIds[id];
            && r.s.c == s.c
            && (Rewritten(s.w, r.s.w, m, id, data) || (r.s.w.messages == s.w.messages && r.s.w.unread == s.w.unread && !r.ok))
            && (r.ok ==> Live(s.w, Some(m)) && id != "")
  {
  }

  /** Fault-free it returns. */
  lemma EarlierUpdateReturns(o: Options, s: Sys, id: string, data: Data)
    requires Clean(s) && OnEarlierCard(s, id) && id != ""
    ensures var r := Perform(o, s, UpdateOf(id, data));
            r.ok && r.s.c == s.c && Rewritten(s.w, r.s.w, s.c.cardIds[id], id, data)
  {
    EarlierUpdate(o, s, id, data);
    SendTaken(s.w, s.c.cardIds[id], Update(id, Some(data)));
    hide Send, Rewritten;
  }

  // -------------------------------------------------- one call, any element

  function ElemsAt(w: World, m: nat): seq<Elem>
    requires m < |w.messages|
  {
    w.messages[m].card.elements
  }

  /** What the call makes of the data of element id of message m. */
  function Said(s: Sys, call: Call, m: nat, id: string, data: Data): Data {
    match call
    case AppendOf(kind, given) =>
      var elem := NewElem(s.c, kind, given);
      if !s.c.isSealed && s.c.messageId == Some(m) && elem.id == id then elem.data + PendingOr(s.c, id) else data
    case UpdateOf(id', patch) =>
      if s.c.isSealed || id' != id then data
      else if s.c.messageId == Some(m) then data + patch
      else if OnEarlierCard(s, id) && s.c.cardIds[id] == m then patch
      else data
    case _ => data
  }

  /** The messages of w are still there, with the elements they had. */
  ghost predicate SameElems(w: World, w': World) {
    && |w.messages| <= |w'.messages|
    && forall m :: 0 <= m < |w.messages| ==> ElemsAt(w', m) == ElemsAt(w, m)
  }

  lemma CleanDistinct(s: Sys, m: nat)
    requires Sound(s) && m < |s.w.messages|
    ensures Distinct(Ids(ElemsAt(s.w, m)))
  {
    assert IdsAt(s.w, m) == Ids(ElemsAt(s.w, m));
  }

  /** Setting the data of one id, seen at one place. */
  lemma SetDataAt(es: seq<Elem>, id: string, data: Data, k: nat)
    requires Distinct(Ids(es)) && k < |es|
    ensures SetData(es, id, data)[k] == if es[k].id == id then es[k].(data := data) else es[k]
  {
    HasIdAt(es, k);
  }

  lemma EnterSame(o: Options, s: Sys, existed: bool)
    requires Calm(s) && !s.c.isSealed && s.c.messageId.Some?
    ensures var r := EnterCard(o, s, existed);
            var moves := !existed && |s.c.mirror| >= MAX_ELEMENTS;
            && r.ok && SameElems(s.w, r.s.w)
            && (!moves ==> r == Run(s, true))
            && (moves ==>
                  && r.s.c.messageId == Some(|s.w.messages|) && |r.s.w.messages| == |s.w.messages| + 1
                  && ElemsAt(r.s.w, |s.w.messages|) == [] && r.s.c.mirror == [] && r.s.c.pending == s.c.pending)
  {
    if !existed && |s.c.mirror| >= MAX_ELEMENTS {
      var m := s.c.messageId.value;
      CardSplit.MakeRoomEffect(o, s, m);
      CardSplit.LeftBehindShape(s.w, m, if s.c.segmentIndex == 0 then "first" else "middle");
      hide MakeRoom, CardSplit.LeftBehind;
    }
  }

  /**
   * The element is last on the current card if it is new, or alone on a new
   * card after a finish, a split or at the start; a known one keeps its place.
   * Every other element of the store is as it was.
   */
  ghost predicate StoredAs(s: Sys, s': Sys, stored: Elem) {
    var opens := s.c.isSealed || s.c.messageId.None?;
    var k := IndexOf(s.c.mirror, stored.id);
    && s'.c.messageId.Some?
    && var n := s'.c.messageId.value;
       && |s.w.messages| <= |s'.w.messages| && n < |s'.w.messages|
       && (forall m :: 0 <= m < |s.w.messages| && m != n ==> ElemsAt(s'.w, m) == ElemsAt(s.w, m))
       && (if opens || (k == |s.c.mirror| && |s.c.mirror| >= 20)
           then n == |s.w.messages| && ElemsAt(s'.w, n) == [stored]
           else s.c.messageId == Some(n) && n < |s.w.messages| && k <= |ElemsAt(s.w, n)|
                && ElemsAt(s'.w, n) == if k < |ElemsAt(s.w, n)| then ElemsAt(s.w, n)[k := stored] else ElemsAt(s.w, n) + [stored])
  }

  /** The queued job of append, with the buffered updates merged over the element. */
  lemma JobSays(o: Options, s: Sys, elem: Elem)
    requires Clean(s) && !s.c.isSealed && s.c.messageId.Some? && GuardElem(s.c, elem)
    ensures var m := s.c.messageId.value;
            var existed := HasId(s.c.mirror, elem.id);
            var r := AppendJob(o, s, elem).s;
            var stored := elem.(data := elem.data + PendingOr(s.c, elem.id));
            var n := if !existed && |s.c.mirror| >= MAX_ELEMENTS then |s.w.messages| else m;
            && |r.w.messages| == (if n == m then |s.w.messages| else n + 1) && r.c.messageId == Some(n)
            && (forall k :: 0 <= k < |s.w.messages| && k != n ==> ElemsAt(r.w, k) == ElemsAt(s.w, k))
            && ElemsAt(r.w, n) == if existed then SetData(s.c.mirror, elem.id, stored.data)
                                  else (if n == m then s.c.mirror else []) + [stored]
  {
    hide TryPatch, EnterCard, FlushPending, SetData, Sound, Owned, AllApplied;
    var existed := HasId(s.c.mirror, elem.id);
    CleanParts(s);
    EnterSame(o, s, existed);
    EnterCalm(o, s, existed);
    var e := EnterCard(o, s, existed).s;
    var n := e.c.messageId.value;
    assert ElemsAt(e.w, n) == e.c.mirror;
    var c1 := Shadow(e.c, elem, existed, n);
    var op := if existed then Update(elem.id, Some(elem.data)) else Append(Some(elem));
    PatchAt(o, e, c1, op);
    AppendHasId(e.w.messages[n].card, elem, op);
    FlushSays(o, TryPatch(o, e.(c := c1), op).s, elem);
    NoMerge(elem);
    if existed {
      SetDataTwice(s.c.mirror, elem.id, elem.data, elem.data + PendingOr(s.c, elem.id));
    } else {
      SetDataLast(e.c.mirror, elem, elem.data + PendingOr(s.c, elem.id));
    }
  }

  lemma JobStores(o: Options, s: Sys, elem: Elem)
    requires Clean(s) && !s.c.isSealed && s.c.messageId.Some? && GuardElem(s.c, elem)
    ensures StoredAs(s, AppendJob(o, s, elem).s, elem.(data := elem.data + PendingOr(s.c, elem.id)))
  {
    hide AppendJob, Clean, SetData, PendingOr, Retypes;
    JobSays(o, s, elem);
    CleanParts(s);
    var stored := elem.(data := elem.data + PendingOr(s.c, elem.id));
    assert [] + [stored] == [stored];
    if HasId(s.c.mirror, elem.id) {
      KindKept(s, elem);
      PlacedData(s.c.mirror, stored);
    }
  }

  lemma NoMerge(elem: Elem)
    ensures elem.(data := elem.data + map[]) == elem
  {
    assert elem.data + map[] == elem.data;
  }

  lemma CleanParts(s: Sys)
    requires Clean(s) && !s.c.isSealed && s.c.messageId.Some?
    ensures Live(s.w, s.c.messageId) && ElemsAt(s.w, s.c.messageId.value) == s.c.mirror && Distinct(Ids(s.c.mirror))
  {
  }

  /** An accepted patch of the current card, as the store sees it. */
  lemma PatchAt(o: Options, e: Sys, c1: Client, op: Op)
    requires Calm(e) && !e.c.isSealed && Live(e.w, e.c.messageId)
    requires c1.messageId == e.c.messageId
    requires ApplyOp(e.w.messages[e.c.messageId.value].card, op).Accept?
    ensures var r := TryPatch(o, e.(c := c1), op);
            var m := e.c.messageId.value;
            && r.ok && r.s.c == c1.(failures := 0) && r.s.w.faults == []
            && r.s.w.messages == e.w.messages[m := e.w.messages[m].(card := ApplyOp(e.w.messages[m].card, op).card)]
  {
    TryPatchTaken(o, e.(c := c1), e.c.messageId.value, op);
  }

  lemma FlushSays(o: Options, s: Sys, elem: Elem)
    requires s.w.faults == [] && Live(s.w, s.c.messageId)
    requires HasId(ElemsAt(s.w, s.c.messageId.value), elem.id)
    requires elem.id == "" ==> "" !in s.c.pending
    ensures var r := FlushPending(o, s, elem).s;
            var m := s.c.messageId.value;
            && r.c.messageId == s.c.messageId
            && r.w.messages == s.w.messages[m := s.w.messages[m].(card := s.w.messages[m].card.(elements :=
                 if elem.id in s.c.pending then SetData(ElemsAt(s.w, m), elem.id, elem.data + s.c.pending[elem.id])
                 else ElemsAt(s.w, m)))]
  {
    if elem.id in s.c.pending {
      var merged := elem.data + s.c.pending[elem.id];
      var c := s.c.(pending := s.c.pending - {elem.id}, mirror := MirrorData(s.c.mirror, elem.id, merged));
      TryPatchTaken(o, s.(c := c), s.c.messageId.value, Update(elem.id, Some(merged)));
      hide TryPatch;
    }
  }

  lemma SetDataTwice(es: seq<Elem>, id: string, a: Data, b: Data)
    requires HasId(es, id)
    ensures SetData(SetData(es, id, a), id, b) == SetData(es, id, b)
    ensures HasId(SetData(es, id, a), id)
  {
    var k := IndexOf(es, id);
    var once := SetData(es, id, a);
    assert once[k].id == id;
    assert forall i :: 0 <= i < k ==> once[i].id != id;
    assert IndexOf(once, id) == k;
  }

  lemma SetDataLast(es: seq<Elem>, elem: Elem, data: Data)
    requires !HasId(es, elem.id)
    ensures SetData(es + [elem], elem.id, data) == es + [elem.(data := data)]
  {
    var all := es + [elem];
    assert all[|es|].id == elem.id;
    assert IndexOf(all, elem.id) == |es|;
  }

  // ---------------------------------------------------------------- append

  /** A new round, or the first element of one: its card is a new message. */
  lemma EnsureOpens(s: Sys)
    requires Clean(s)
    ensures var e := EnsureCard(s);
            var opens := s.c.isSealed || s.c.messageId.None?;
            && e.ok && Clean(e.s) && !e.s.c.isSealed && e.s.c.messageId.Some?
            && (!opens ==> e.s == s)
            && (opens ==> && e.s.c.messageId == Some(|s.w.messages|) && |e.s.w.messages| == |s.w.messages| + 1
                          && e.s.w.messages[..|s.w.messages|] == s.w.messages && e.s.c.mirror == [])
            && e.s.c.pending == (if s.c.isSealed then map[] else s.c.pending)
            && e.s.c.idSeq == (if s.c.isSealed then 0 else s.c.idSeq)
  {
    EnsureClean(s);
    OpensEmpty(s);
    hide Sound;
  }

  lemma OpensEmpty(s: Sys)
    requires Sound(s)
    ensures s.c.messageId.None? ==> s.c.mirror == []
  {
  }

  /** The call with its element spelled out: the id and any type the caller passes along do not reach the data. */
  function AppendGiven(kind: string, id: string, data: Data, passed: Json): Call {
    AppendOf(kind, data["element_id" := Text(id)]["type" := passed])
  }

  lemma GivenElem(c: Client, kind: string, id: string, data: Data, passed: Json)
    requires "element_id" !in data && "type" !in data
    ensures NewElem(c, kind, AppendGiven(kind, id, data, passed).data) == Elem(kind, id, data)
  {
    assert data["element_id" := Text(id)]["type" := passed] - ENVELOPE_KEYS == data;
  }

  /** The element an append call stores. */
  function StoredBy(s: Sys, kind: string, data: Data): Elem {
    var c := EnsureCard(s).s.c;
    var elem := NewElem(c, kind, data);
    elem.(data := elem.data + PendingOr(c, elem.id))
  }

  lemma AppendCallStores(o: Options, s: Sys, kind: string, data: Data)
    requires Clean(s) && Guard(s, AppendOf(kind, data))
    ensures StoredAs(s, AppendCall(o, s, kind, data).s, StoredBy(s, kind, data))
  {
    EnsureOpens(s);
    var e := EnsureCard(s).s;
    var elem := NewElem(e.c, kind, data);
    TakeIdClean(e, data);
    hide AppendJob, EnsureCard, Clean, NewElem, StoredAs, PendingOr;
    var s1 := e.(c := TakeId(e.c, data));
    JobStores(o, s1, elem);
    if s.c.isSealed || s.c.messageId.None? {
      CleanParts(s1);
      OpenedStores(s, s1, AppendJob(o, s1, elem).s, elem.(data := elem.data + PendingOr(e.c, elem.id)));
    } else {
      SameStores(s, s1, AppendJob(o, s1, elem).s, elem.(data := elem.data + PendingOr(e.c, elem.id)));
    }
  }

  /** Seen from before the card was opened. */
  lemma OpenedStores(s: Sys, s1: Sys, r: Sys, stored: Elem)
    requires s.c.isSealed || s.c.messageId.None?
    requires s1.c.messageId == Some(|s.w.messages|) && !s1.c.isSealed && s1.c.mirror == []
    requires |s1.w.messages| == |s.w.messages| + 1 && s1.w.messages[..|s.w.messages|] == s.w.messages
    requires ElemsAt(s1.w, |s.w.messages|) == []
    requires StoredAs(s1, r, stored)
    ensures StoredAs(s, r, stored)
  {
    assert [] + [stored] == [stored];
    forall m | 0 <= m < |s.w.messages| ensures ElemsAt(r.w, m) == ElemsAt(s.w, m) {
      assert s1.w.messages[m] == s1.w.messages[..|s.w.messages|][m];
    }
  }

  lemma SameStores(s: Sys, s1: Sys, r: Sys, stored: Elem)
    requires StoredAs(s1, r, stored)
    requires s1.w == s.w && s1.c.mirror == s.c.mirror && s1.c.isSealed == s.c.isSealed && s1.c.messageId == s.c.messageId
    ensures StoredAs(s, r, stored)
  {
  }

  /** What append stores: the data it was given with what was buffered for the id, and neither the id nor a type in it. */
  lemma AppendStores(o: Options, s: Sys, kind: string, id: string, data: Data, passed: Json)
    requires Clean(s) && "element_id" !in data && "type" !in data
    requires Guard(s, AppendGiven(kind, id, data, passed))
    ensures var r := Perform(o, s, AppendGiven(kind, id, data, passed));
            var stored := Elem(kind, id, data + if !s.c.isSealed && id in s.c.pending then s.c.pending[id] else map[]);
            r.ok && StoredAs(s, r.s, stored)
  {
    var given := AppendGiven(kind, id, data, passed).data;
    AppendCallCalm(o, s, kind, given);
    AppendCallStores(o, s, kind, given);
    GivenElem(EnsureCard(s).s.c, kind, id, data, passed);
    EnsureOpens(s);
    hide AppendCall, EnsureCard, Clean, NewElem, StoredAs;
  }

  /** Without an id of the caller's, or with one that is no text, the element gets the next number of its round. */
  lemma AppendStoresGenerated(o: Options, s: Sys, kind: string, data: Data)
    requires Clean(s) && Guard(s, AppendOf(kind, data))
    requires "element_id" in data ==> !data["element_id"].Text?
    ensures var r := Perform(o, s, AppendOf(kind, data));
            var id := ElementIds.ElementId(kind, (if s.c.isSealed then 0 else s.c.idSeq) + 1);
            var buffered := if !s.c.isSealed && id in s.c.pending then s.c.pending[id] else map[];
            r.ok && StoredAs(s, r.s, Elem(kind, id, (data - {"element_id", "type"}) + buffered))
  {
    hide AppendCall, StoredBy, Clean, Guard, StoredAs, ElementIds.ElementId;
    AppendCallCalm(o, s, kind, data);
    AppendCallStores(o, s, kind, data);
    GeneratedElem(s, kind, data);
  }

  lemma GeneratedElem(s: Sys, kind: string, data: Data)
    requires Clean(s) && ("element_id" in data ==> !data["element_id"].Text?)
    ensures var id := ElementIds.ElementId(kind, (if s.c.isSealed then 0 else s.c.idSeq) + 1);
            var buffered := if !s.c.isSealed && id in s.c.pending then s.c.pending[id] else map[];
            StoredBy(s, kind, data) == Elem(kind, id, (data - {"element_id", "type"}) + buffered)
  {
    EnsureOpens(s);
    hide EnsureCard, Clean, ElementIds.ElementId;
  }

  lemma KindKept(s: Sys, elem: Elem)
    requires !Retypes(s.c, elem) && HasId(s.c.mirror, elem.id)
    ensures s.c.mirror[IndexOf(s.c.mirror, elem.id)].kind == elem.kind
  {
  }

  lemma PlacedData(es: seq<Elem>, elem: Elem)
    requires HasId(es, elem.id) && es[IndexOf(es, elem.id)].kind == elem.kind
    ensures SetData(es, elem.id, elem.data) == es[IndexOf(es, elem.id) := elem]
  {
  }

  // ---------------------------------------------------------------- any call

  /** The element at place k of message m is still there, with what the call says about it. */
  ghost predicate HoldsSaid(s: Sys, call: Call, s': Sys, m: nat, k: nat)
    requires m < |s.w.messages| && k < |ElemsAt(s.w, m)|
  {
    var e := ElemsAt(s.w, m)[k];
    m < |s'.w.messages| && k < |ElemsAt(s'.w, m)| && ElemsAt(s'.w, m)[k] == e.(data := Said(s, call, m, e.id, e.data))
  }

  lemma UpdateHereStores(o: Options, s: Sys, id: string, data: Data)
    requires Calm(s) && Live(s.w, s.c.messageId) && ElemsAt(s.w, s.c.messageId.value) == s.c.mirror && id != ""
    requires !s.c.isSealed && HasId(s.c.mirror, id)
    ensures var r := UpdateCall(o, s, id, data).s;
            var m := s.c.messageId.value;
            var es := SetData(s.c.mirror, id, s.c.mirror[IndexOf(s.c.mirror, id)].data + data);
            r.w.messages == s.w.messages[m := s.w.messages[m].(card := s.w.messages[m].card.(elements := es))]
  {
    hide TryPatch, Calm, SetData, MirrorData;
    var merged := s.c.mirror[IndexOf(s.c.mirror, id)].data + data;
    PatchAt(o, s, s.c.(mirror := MirrorData(s.c.mirror, id, merged)), Update(id, Some(merged)));
  }

  lemma UpdateHereSays(o: Options, s: Sys, id: string, data: Data, m: nat, k: nat)
    requires Calm(s) && Live(s.w, s.c.messageId) && ElemsAt(s.w, s.c.messageId.value) == s.c.mirror && id != ""
    requires !s.c.isSealed && HasId(s.c.mirror, id) && m < |s.w.messages| && k < |ElemsAt(s.w, m)| && Distinct(Ids(ElemsAt(s.w, m)))
    ensures HoldsSaid(s, UpdateOf(id, data), UpdateCall(o, s, id, data).s, m, k)
  {
    hide UpdateCall, Calm, SetData;
    UpdateHereStores(o, s, id, data);
    if s.c.messageId == Some(m) {
      SetDataAt(s.c.mirror, id, s.c.mirror[IndexOf(s.c.mirror, id)].data + data, k);
      HasIdAt(s.c.mirror, k);
    }
  }

  lemma CalmParts(s: Sys)
    requires Calm(s)
    ensures s.w.faults == []
  {
  }

  lemma CleanSound(s: Sys)
    requires Clean(s)
    ensures Sound(s)
  {
  }

  lemma RewrittenAt(w: World, w': World, n: nat, id: string, data: Data, m: nat, k: nat)
    requires Rewritten(w, w', n, id, data) && m < |w.messages| && k < |ElemsAt(w, m)| && Distinct(Ids(ElemsAt(w, m)))
    ensures m < |w'.messages| && |ElemsAt(w', m)| == |ElemsAt(w, m)|
    ensures var e := ElemsAt(w, m)[k];
            ElemsAt(w', m)[k] == if m == n && e.id == id then e.(data := data) else e
  {
    HasIdAt(ElemsAt(w, m), k);
  }

  lemma UpdateThereSays(o: Options, s: Sys, id: string, data: Data, m: nat, k: nat)
    requires Clean(s) && OnEarlierCard(s, id) && id != "" && m < |s.w.messages| && k < |ElemsAt(s.w, m)|
    ensures HoldsSaid(s, UpdateOf(id, data), UpdateCall(o, s, id, data).s, m, k)
  {
    hide UpdateCall, Clean, Sound, Rewritten, Perform;
    EarlierUpdateReturns(o, s, id, data);
    PerformIs(o, s, id, data);
    CleanSound(s);
    CleanDistinct(s, m);
    RewrittenAt(s.w, UpdateCall(o, s, id, data).s.w, s.c.cardIds[id], id, data, m, k);
    if s.c.messageId == Some(m) {
      CleanParts(s);
      HasIdAt(s.c.mirror, k);
    }
  }

  lemma PerformIs(o: Options, s: Sys, id: string, data: Data)
    ensures Perform(o, s, UpdateOf(id, data)) == UpdateCall(o, s, id, data)
  {
  }

  /** An update of an element that is not there yet, or after a finish, changes nothing in the store. */
  lemma UpdateBuffered(o: Options, s: Sys, id: string, data: Data)
    requires s.c.isSealed || (!HasId(s.c.mirror, id) && (id in s.c.cardIds ==> Some(s.c.cardIds[id]) == s.c.messageId))
    ensures var r := Perform(o, s, UpdateOf(id, data));
            r.ok && r.s.w == s.w && r.s.c == s.c.(pending := s.c.pending[id := PendingOr(s.c, id) + data])
  {
  }

  lemma UpdateSays(o: Options, s: Sys, id: string, data: Data, m: nat, k: nat)
    requires Clean(s) && Guard(s, UpdateOf(id, data)) && m < |s.w.messages| && k < |ElemsAt(s.w, m)|
    ensures HoldsSaid(s, UpdateOf(id, data), UpdateCall(o, s, id, data).s, m, k)
  {
    if !s.c.isSealed && HasId(s.c.mirror, id) {
      CleanDistinct(s, m);
      MirrorOnServer(s);
      UpdateHereSays(o, s, id, data, m, k);
    } else if OnEarlierCard(s, id) {
      UpdateThereSays(o, s, id, data, m, k);
    } else {
      UpdateBuffered(o, s, id, data);
      if !s.c.isSealed && s.c.messageId == Some(m) {
        CleanParts(s);
        HasIdAt(ElemsAt(s.w, m), k);
      }
      hide UpdateCall, Clean;
    }
  }

  /** One element of the store before and after an append. */
  lemma StoredSays(s: Sys, s': Sys, stored: Elem, m: nat, k: nat)
    requires StoredAs(s, s', stored) && m < |s.w.messages| && k < |ElemsAt(s.w, m)|
    requires !s.c.isSealed && s.c.messageId == Some(m) ==>
               s.c.mirror == ElemsAt(s.w, m) && Distinct(Ids(s.c.mirror))
               && (HasId(s.c.mirror, stored.id) ==> s.c.mirror[IndexOf(s.c.mirror, stored.id)].kind == stored.kind)
    ensures m < |s'.w.messages| && k < |ElemsAt(s'.w, m)|
    ensures var e := ElemsAt(s.w, m)[k];
            ElemsAt(s'.w, m)[k] ==
            if !s.c.isSealed && s.c.messageId == Some(m) && e.id == stored.id then e.(data := stored.data) else e
  {
    HasIdAt(ElemsAt(s.w, m), k);
  }

  lemma AppendSays(o: Options, s: Sys, kind: string, data: Data, m: nat, k: nat)
    requires Clean(s) && Guard(s, AppendOf(kind, data)) && m < |s.w.messages| && k < |ElemsAt(s.w, m)|
    ensures HoldsSaid(s, AppendOf(kind, data), AppendCall(o, s, kind, data).s, m, k)
  {
    hide Clean, Guard, NewElem, AppendCall, StoredAs, StoredBy, HasId, IndexOf, EnsureCard, Said;
    AppendCallStores(o, s, kind, data);
    if !s.c.isSealed && s.c.messageId == Some(m) {
      KindGuarded(s, kind, data, m);
    }
    SaidByAppend(s, kind, data, m);
    StoredSays(s, AppendCall(o, s, kind, data).s, StoredBy(s, kind, data), m, k);
  }

  lemma SaidByAppend(s: Sys, kind: string, data: Data, m: nat)
    ensures forall id, was: Data :: Said(s, AppendOf(kind, data), m, id, was) ==
              if !s.c.isSealed && s.c.messageId == Some(m) && StoredBy(s, kind, data).id == id
              then StoredBy(s, kind, data).data else was
  {
    hide NewElem;
  }

  lemma KindGuarded(s: Sys, kind: string, data: Data, m: nat)
    requires Clean(s) && Guard(s, AppendOf(kind, data)) && m < |s.w.messages|
    requires !s.c.isSealed && s.c.messageId == Some(m)
    ensures EnsureCard(s).s == s && s.c.mirror == ElemsAt(s.w, m) && Distinct(Ids(s.c.mirror))
    ensures var elem := StoredBy(s, kind, data);
            HasId(s.c.mirror, elem.id) ==> s.c.mirror[IndexOf(s.c.mirror, elem.id)].kind == elem.kind
  {
    CleanParts(s);
    hide Clean, NewElem;
  }

  // ---------------------------------------------------------------- finish

  lemma FinishFullSays(o: Options, s: Sys, footer: Data, m: nat)
    requires Calm(s) && !s.c.isSealed && s.c.messageId.Some? && m < |s.w.messages|
    ensures var r := FinishFull(o, s, footer).s;
            |r.w.messages| == |s.w.messages| && ElemsAt(s.w, m) <= ElemsAt(r.w, m)
  {
    hide TryPatch, FooterData, ElementIds.FooterId;
    CalmParts(s);
    var n := s.c.messageId.value;
    var elem := Elem("footer", ElementIds.FooterId(s.c.footerSeq + 1), FooterData(footer));
    var s1 := s.(c := s.c.(footerSeq := s.c.footerSeq + 1, mirror := s.c.mirror + [elem]));
    TryPatchTaken(o, s1, n, Append(Some(elem)));
    var added := TryPatch(o, s1, Append(Some(elem))).s;
    var s2 := added.(c := added.c.(state := "done"));
    TryPatchTaken(o, s2, n, SetState("done"));
    TryPatchTaken(o, TryPatch(o, s2, SetState("done")).s, n, SetSilent(Some(false)));
  }

  lemma FinishEmptySays(o: Options, s: Sys)
    requires Calm(s) && !s.c.isSealed && s.c.messageId.Some?
    ensures SameElems(s.w, FinishEmpty(o, s).s.w)
  {
    hide TryPatch;
    CalmParts(s);
    TryPatchTaken(o, s.(c := s.c.(state := "done")), s.c.messageId.value, SetState("done"));
  }

  /** Closing a card at most adds a footer. */
  lemma FinishSays(o: Options, s: Sys, footer: Data, m: nat)
    requires Clean(s) && m < |s.w.messages|
    ensures var r := FinishCall(o, s, footer).s; m < |r.w.messages| && ElemsAt(s.w, m) <= ElemsAt(r.w, m)
  {
    if !s.c.isSealed {
      EnsureOpens(s);
      var e := EnsureCard(s).s;
      hide FinishFull, FinishEmpty, EnsureCard, Sound, InSync, Owned, AllApplied;
      assert ElemsAt(e.w, m) == ElemsAt(s.w, m) by { assert e.w.messages[m] == e.w.messages[..|s.w.messages|][m]; }
      FinishFullSays(o, e, footer, m);
      FinishEmptySays(o, e);
    }
  }

  /** Every call leaves every element of the store in its place, with the data the call says. */
  lemma CallSays(o: Options, s: Sys, call: Call, m: nat, k: nat)
    requires Clean(s) && Guard(s, call) && m < |s.w.messages| && k < |ElemsAt(s.w, m)|
    ensures HoldsSaid(s, call, Perform(o, s, call).s, m, k)
  {
    hide AppendCall, UpdateCall, FinishCall, Clean, Guard, HoldsSaid;
    match call
    case AppendOf(kind, data) => AppendSays(o, s, kind, data, m, k);
    case UpdateOf(id, data) => UpdateSays(o, s, id, data, m, k);
    case FinishOf(footer) => FinishSays(o, s, footer, m); FinishHolds(s, call, FinishCall(o, s, footer).s, m, k);
    case InterruptOf => FinishSays(o, s, INTERRUPT_FOOTER, m); FinishHolds(s, call, FinishCall(o, s, INTERRUPT_FOOTER).s, m, k);
  }

  lemma FinishHolds(s: Sys, call: Call, s': Sys, m: nat, k: nat)
    requires Finishes(call) && m < |s.w.messages| && k < |ElemsAt(s.w, m)|
    requires m < |s'.w.messages| && ElemsAt(s.w, m) <= ElemsAt(s'.w, m)
    ensures HoldsSaid(s, call, s', m, k)
  {
  }

  // ------------------------------------------------------------- whole runs

  /** What calls i to j of the run make of it, one after the other. */
  function SaidOver(t: Trace, m: nat, id: string, data: Data, i: nat, j: nat): Data
    requires i <= j <= |t.calls| < |t.states|
    decreases j - i
  {
    if i == j then data else Said(t.states[j - 1], t.calls[j - 1], m, id, SaidOver(t, m, id, data, i, j - 1))
  }

  /**
   * Over any number of calls, splits and rounds, an element that is in the
   * store stays in its place, and its data is what the appends and updates
   * addressed to it have made of it.
   */
  lemma {:induction false} DataIsWhatWasSaid(o: Options, t: Trace, i: nat, j: nat, m: nat, k: nat)
    requires IsTrace(o, NewSys([]), t) && i <= j <= |t.calls| && Guarded(t, j)
    requires m < |t.states[i].w.messages| && k < |ElemsAt(t.states[i].w, m)|
    ensures m < |t.states[j].w.messages| && k < |ElemsAt(t.states[j].w, m)|
    ensures var e := ElemsAt(t.states[i].w, m)[k];
            ElemsAt(t.states[j].w, m)[k] == e.(data := SaidOver(t, m, e.id, e.data, i, j))
  {
    hide Perform, Clean, Guard, NoFooterId, Said;
    if i < j {
      DataIsWhatWasSaid(o, t, i, j - 1, m, k);
      FaultFreeRun(o, t, j - 1);
      assert StepAt(o, t, j - 1);
      CallSays(o, t.states[j - 1], t.calls[j - 1], m, k);
    }
  }

  /** A card once left is not come back to. */
  lemma NotBack(o: Options, s: Sys, call: Call, m: nat)
    requires Clean(s) && m < |s.w.messages| && s.c.messageId != Some(m)
    ensures Perform(o, s, call).s.c.messageId != Some(m) && m < |Perform(o, s, call).s.w.messages|
  {
    hide AppendCall, UpdateCall;
    match call
    case FinishOf(footer) => FinishMoves(o, s, footer, m);
    case InterruptOf => FinishMoves(o, s, INTERRUPT_FOOTER, m);
    case _ => CardUnread.AppendAndUpdateCountNothing(o, s, call);
  }

  lemma FinishMoves(o: Options, s: Sys, footer: Data, m: nat)
    requires Clean(s) && m < |s.w.messages| && s.c.messageId != Some(m)
    ensures FinishCall(o, s, footer).s.c.messageId != Some(m) && m < |FinishCall(o, s, footer).s.w.messages|
  {
    FinishSays(o, s, footer, m);
    if !s.c.isSealed {
      EnsureOpens(s);
      var e := EnsureCard(s).s;
      CardFields.FinishFields(o, e, footer);
      hide FinishFull, FinishEmpty, EnsureCard, Clean;
    }
  }

  /**
   * An update of an element of an earlier card is what that card holds for it
   * from then on, through all later splits, finishes and rounds, until the
   * next update of the same id.
   */
  lemma {:induction false} EarlierCardHoldsLastUpdate(o: Options, t: Trace, i: nat, j: nat)
    requires IsTrace(o, NewSys([]), t) && i < j <= |t.calls| && Guarded(t, j)
    requires t.calls[i].UpdateOf? && OnEarlierCard(t.states[i], t.calls[i].id)
    requires forall p :: i < p < j ==> !(t.calls[p].UpdateOf? && t.calls[p].id == t.calls[i].id)
    ensures var id, m := t.calls[i].id, t.states[i].c.cardIds[t.calls[i].id];
            && t.states[j].c.messageId != Some(m) && m < |t.states[j].w.messages|
            && var es := ElemsAt(t.states[j].w, m);
               HasId(es, id) && es[IndexOf(es, id)].data == t.calls[i].patch
  {
    hide Perform, Clean, Guard, NoFooterId, Sound;
    var id, m := t.calls[i].id, t.states[i].c.cardIds[t.calls[i].id];
    FaultFreeRun(o, t, j - 1);
    assert StepAt(o, t, j - 1);
    if j == i + 1 {
      EarlierIsThere(t.states[i], id);
      var k := IndexOf(ElemsAt(t.states[i].w, m), id);
      CallSays(o, t.states[i], t.calls[i], m, k);
      NotBack(o, t.states[i], t.calls[i], m);
      FaultFreeRun(o, t, i + 1);
      CleanPlace(t.states[j], m, k);
    } else {
      EarlierCardHoldsLastUpdate(o, t, i, j - 1);
      var es := ElemsAt(t.states[j - 1].w, m);
      CallSays(o, t.states[j - 1], t.calls[j - 1], m, IndexOf(es, id));
      NotBack(o, t.states[j - 1], t.calls[j - 1], m);
      FaultFreeRun(o, t, j);
      CleanPlace(t.states[j], m, IndexOf(es, id));
    }
  }

  lemma EarlierIsThere(s: Sys, id: string)
    requires Clean(s) && OnEarlierCard(s, id)
    ensures var m := s.c.cardIds[id]; m < |s.w.messages| && HasId(ElemsAt(s.w, m), id)
  {
  }

  lemma CleanPlace(s: Sys, m: nat, k: nat)
    requires Clean(s) && m < |s.w.messages| && k < |ElemsAt(s.w, m)|
    ensures IndexOf(ElemsAt(s.w, m), ElemsAt(s.w, m)[k].id) == k
  {
    CleanDistinct(s, m);
    HasIdAt(ElemsAt(s.w, m), k);
  }

  // --------------------------------------------------------- after a finish

  /** Updates that come after a finish reach no card, of the finished round or the next one, whatever fails. */
  lemma LateUpdatesAreLost(o: Options, s: Sys, id: string, data: Data, kind: string, given: Data)
    requires s.c.isSealed
    ensures var late := Perform(o, s, UpdateOf(id, data));
            && late.ok && late.s.w == s.w
            && Perform(o, late.s, AppendOf(kind, given)) == Perform(o, s, AppendOf(kind, given))
  {
    hide AppendJob;
    UpdateBuffered(o, s, id, data);
  }
}
