// With every io call delivered, every PATCH the card object issues is accepted
// by the server and after each call the server's card equals the shadow,
// exactly as long as the caller keeps one type per element id and does not
// update under the empty id.

module CardFaultFree {
  import opened Prelude
  import opened CardContent
  import opened Wire
  import opened CardSpec
  import opened CardFaults
  import opened CardSync
  import ElementIds

  ghost predicate AllApplied(log: seq<Sent>) {
    forall i :: 0 <= i < |log| ==> log[i].fate.Applied?
  }

  /** Every card an element is filed under is in the store and holds it. */
  ghost predicate Owned(w: World, cardIds: map<string, nat>) {
    forall id <- cardIds :: Live(w, Some(cardIds[id])) && HasId(w.messages[cardIds[id]].card.elements, id)
  }

  ghost predicate Calm(s: Sys) {
    && s.w.faults == []
    && !s.c.inflight.Crashed? && (s.c.messageId.None? ==> s.c.inflight.NoFlight?)
    && (s.c.messageId.Some? && !s.c.isSealed ==> Live(s.w, s.c.messageId))
    && Owned(s.w, s.c.cardIds)
    && AllApplied(s.w.log)
  }

  ghost predicate Clean(s: Sys) {
    Sound(s) && InSync(s) && Calm(s)
  }

  // --------------------------------------------------------------- one patch

  /** The store after message m has taken request r and become card. */
  function Taken(w: World, m: nat, r: Request, card: Card): World
    requires m < |w.messages|
  {
    w.(messages := w.messages[m := w.messages[m].(card := card)],
       unread := w.unread + (if Flips(w.messages[m].card, card) then 1 else 0),
       log := w.log + [Sent(Some(m), r, Applied)])
  }

  lemma SendTaken(w: World, m: nat, op: Op)
    requires w.faults == [] && Live(w, Some(m))
    requires ApplyOp(w.messages[m].card, op).Accept?
    ensures Send(w, Some(m), Delta(op)) == Reply(Taken(w, m, Delta(op), ApplyOp(w.messages[m].card, op).card), true)
  {
  }

  /** An accepted patch on a calm network goes straight through. */
  lemma TryPatchTaken(o: Options, s: Sys, m: nat, op: Op)
    requires s.w.faults == [] && s.c.messageId == Some(m) && Live(s.w, Some(m))
    requires ApplyOp(s.w.messages[m].card, op).Accept?
    ensures TryPatch(o, s, op) ==
            Run(Sys(s.c.(failures := 0), Taken(s.w, m, Delta(op), ApplyOp(s.w.messages[m].card, op).card)), true)
  {
    SendTaken(s.w, m, op);
    hide Send, ApplyOp;
  }

  /** An op that drops no element. */
  predicate Keeps(op: Op) {
    !op.Remove? && !op.Reorder?
  }

  lemma KeepsIds(card: Card, op: Op, id: string)
    requires Keeps(op) && ApplyOp(card, op).Accept? && HasId(card.elements, id)
    ensures HasId(ApplyOp(card, op).card.elements, id)
  {
    var after := ApplyOp(card, op).card.elements;
    HasIdIffInIds(card.elements, id);
    HasIdIffInIds(after, id);
    if op.Append? {
      IdsConcat(card.elements, [op.element.value]);
    }
  }

  lemma TakenCalm(w: World, m: nat, op: Op, cardIds: map<string, nat>)
    requires w.faults == [] && Live(w, Some(m)) && AllApplied(w.log) && Owned(w, cardIds)
    requires Keeps(op) && ApplyOp(w.messages[m].card, op).Accept?
    ensures var w' := Taken(w, m, Delta(op), ApplyOp(w.messages[m].card, op).card);
            w'.faults == [] && Live(w', Some(m)) && AllApplied(w'.log) && Owned(w', cardIds)
  {
    var card := ApplyOp(w.messages[m].card, op).card;
    var w' := Taken(w, m, Delta(op), card);
    forall id | id in cardIds
      ensures Live(w', Some(cardIds[id])) && HasId(w'.messages[cardIds[id]].card.elements, id)
    {
      if cardIds[id] == m {
        KeepsIds(w.messages[m].card, op, id);
      }
    }
  }

  /** A calm, accepted patch returns and leaves the network calm. */
  lemma PatchCalm(o: Options, s: Sys, op: Op, cardIds: map<string, nat>)
    requires s.w.faults == [] && Live(s.w, s.c.messageId) && AllApplied(s.w.log) && Owned(s.w, cardIds)
    requires Keeps(op) && ApplyOp(s.w.messages[s.c.messageId.value].card, op).Accept?
    ensures var r := TryPatch(o, s, op);
            && r.ok && r.s.c == s.c.(failures := 0)
            && r.s.w.faults == [] && Live(r.s.w, s.c.messageId) && AllApplied(r.s.w.log) && Owned(r.s.w, cardIds)
            && r.s.w.messages[s.c.messageId.value].card == ApplyOp(s.w.messages[s.c.messageId.value].card, op).card
  {
    TryPatchTaken(o, s, s.c.messageId.value, op);
    TakenCalm(s.w, s.c.messageId.value, op, cardIds);
  }

  // ------------------------------------------------------------ parts of calls

  lemma OwnedGrows(w: World, w': World, cardIds: map<string, nat>)
    requires Owned(w, cardIds) && |w.messages| <= |w'.messages|
    requires forall m :: 0 <= m < |w.messages| ==> w'.messages[m] == w.messages[m]
    ensures Owned(w', cardIds)
  {
  }

  lemma CreateCalm(s: Sys)
    requires s.w.faults == [] && Owned(s.w, s.c.cardIds) && AllApplied(s.w.log)
    ensures var r := CreateCard(s);
            && r.ok && Live(r.s.w, r.s.c.messageId) && r.s.w.faults == [] && r.s.w.log == s.w.log
            && Owned(r.s.w, s.c.cardIds)
            && r.s.c == s.c.(messageId := r.s.c.messageId, state := r.s.c.state, segment := r.s.c.segment)
  {
    OwnedGrows(s.w, CreateCard(s).s.w, s.c.cardIds);
  }

  lemma EnsureCalm(s: Sys)
    requires Calm(s)
    ensures var r := EnsureCard(s);
            r.ok && Calm(r.s) && !r.s.c.isSealed && r.s.c.messageId.Some?
  {
    var c := if s.c.isSealed then ResetRound(s.c) else s.c;
    CreateCalm(s.(c := c));
  }

  lemma MakeRoomCalm(o: Options, s: Sys, existed: bool)
    requires Calm(s) && !s.c.isSealed && s.c.messageId.Some?
    ensures var r := MakeRoom(o, s, existed);
            && r.ok && Calm(r.s) && !r.s.c.isSealed && r.s.c.pending == s.c.pending
  {
    if !existed && |s.c.mirror| >= MAX_ELEMENTS {
      var segment := if s.c.segmentIndex == 0 then "first" else "middle";
      var s0 := s.(c := s.c.(segment := Some(segment), state := "done"));
      hide TryPatch;
      PatchCalm(o, s0, SetState("done"), s.c.cardIds);
      var done := TryPatch(o, s0, SetState("done")).s;
      PatchCalm(o, done, SetSegment(segment), s.c.cardIds);
    }
  }

  lemma EnterCalm(o: Options, s: Sys, existed: bool)
    requires Calm(s) && !s.c.isSealed && s.c.messageId.Some?
    ensures var r := EnterCard(o, s, existed);
            && r.ok && Calm(r.s) && !r.s.c.isSealed && Live(r.s.w, r.s.c.messageId)
            && r.s.c.pending == s.c.pending
  {
    hide MakeRoom, CreateCard;
    MakeRoomCalm(o, s, existed);
    var room := MakeRoom(o, s, existed).s;
    if room.c.messageId.None? {
      CreateCalm(room);
    }
  }

  /** The condition under which an append leaves server and shadow equal. */
  ghost predicate GuardElem(c: Client, elem: Elem) {
    && !Retypes(c, elem)
    && (elem.id == "" ==> !HasId(c.mirror, "") && "" !in c.pending)
  }

  lemma FlushCalm(o: Options, s: Sys, elem: Elem)
    requires Calm(s) && !s.c.isSealed && Live(s.w, s.c.messageId)
    requires HasId(s.w.messages[s.c.messageId.value].card.elements, elem.id)
    requires elem.id == "" ==> "" !in s.c.pending
    ensures var r := FlushPending(o, s, elem); r.ok && Calm(r.s) && !r.s.c.isSealed
  {
    if elem.id in s.c.pending {
      var merged := elem.data + s.c.pending[elem.id];
      var c := s.c.(pending := s.c.pending - {elem.id}, mirror := MirrorData(s.c.mirror, elem.id, merged));
      hide TryPatch;
      PatchCalm(o, s.(c := c), Update(elem.id, Some(merged)), s.c.cardIds);
    }
  }

  lemma AppendJobCalm(o: Options, s: Sys, elem: Elem)
    requires Clean(s) && !s.c.isSealed && s.c.messageId.Some? && GuardElem(s.c, elem)
    ensures var r := AppendJob(o, s, elem); r.ok && Calm(r.s)
  {
    hide TryPatch, EnterCard, FlushPending;
    var existed := HasId(s.c.mirror, elem.id);
    EnterCalm(o, s, existed);
    EnterKept(o, s, s, existed);
    EnterCardSound(o, s, existed);
    var carded := EnterCard(o, s, existed).s;
    var m := carded.c.messageId.value;
    var c1 := Shadow(carded.c, elem, existed, m);
    var op := if existed then Update(elem.id, Some(elem.data)) else Append(Some(elem));
    var card := carded.w.messages[m].card;
    assert card.elements == carded.c.mirror;
    PatchCalm(o, carded.(c := c1), op, carded.c.cardIds);
    var sent := TryPatch(o, carded.(c := c1), op).s;
    AppendHasId(card, elem, op);
    assert Calm(sent);
    FlushCalm(o, sent, elem);
  }

  lemma AppendHasId(card: Card, elem: Elem, op: Op)
    requires op == Append(Some(elem)) || (op == Update(elem.id, Some(elem.data)) && HasId(card.elements, elem.id))
    requires ApplyOp(card, op).Accept?
    ensures HasId(ApplyOp(card, op).card.elements, elem.id)
  {
    var after := ApplyOp(card, op).card.elements;
    if op.Append? {
      HasIdAt(after, |card.elements|);
    } else {
      KeepsIds(card, op, elem.id);
    }
  }

  // --------------------------------------------------------------- each call

  /** What a caller can check before the call. */
  ghost predicate Guard(s: Sys, call: Call) {
    match call
    case AppendOf(kind, data) =>
      var c := EnsureCard(s).s.c;
      GuardElem(c, NewElem(c, kind, data))
    case UpdateOf(id, _) =>
      id == "" && !s.c.isSealed ==> !HasId(s.c.mirror, "") && ("" in s.c.cardIds ==> Some(s.c.cardIds[""]) == s.c.messageId)
    case _ => true
  }

  lemma EnsureClean(s: Sys)
    requires Clean(s)
    ensures var r := EnsureCard(s); r.ok && Clean(r.s) && !r.s.c.isSealed && r.s.c.messageId.Some?
  {
    EnsureCalm(s);
    EnsureKept(s);
  }

  lemma AppendCallCalm(o: Options, s: Sys, kind: string, data: Data)
    requires Clean(s) && Guard(s, AppendOf(kind, data))
    ensures var r := AppendCall(o, s, kind, data); r.ok && Calm(r.s)
  {
    hide AppendJob, EnsureCard;
    EnsureClean(s);
    var ensured := EnsureCard(s).s;
    AppendJobCalm(o, ensured.(c := TakeId(ensured.c, data)), NewElem(ensured.c, kind, data));
  }

  lemma MirrorOnServer(s: Sys)
    requires Clean(s) && !s.c.isSealed && s.c.mirror != []
    ensures Live(s.w, s.c.messageId) && s.w.messages[s.c.messageId.value].card.elements == s.c.mirror
  {
  }

  lemma UpdateHereCalm(o: Options, s: Sys, id: string, data: Data)
    requires Calm(s) && Live(s.w, s.c.messageId) && s.w.messages[s.c.messageId.value].card.elements == s.c.mirror
    requires id != "" && !s.c.isSealed && HasId(s.c.mirror, id)
    ensures var r := UpdateCall(o, s, id, data); r.ok && Calm(r.s)
  {
    hide TryPatch, AllApplied, Owned, MirrorData;
    var merged := s.c.mirror[IndexOf(s.c.mirror, id)].data + data;
    var c := s.c.(mirror := MirrorData(s.c.mirror, id, merged));
    PatchCalm(o, s.(c := c), Update(id, Some(merged)), s.c.cardIds);
  }

  lemma UpdateThereCalm(o: Options, s: Sys, id: string, data: Data)
    requires Clean(s) && Guard(s, UpdateOf(id, data)) && !s.c.isSealed && !HasId(s.c.mirror, id)
    requires id in s.c.cardIds && Some(s.c.cardIds[id]) != s.c.messageId
    ensures var r := UpdateCall(o, s, id, data); r.ok && Calm(r.s)
  {
    hide AllApplied;
    var m := s.c.cardIds[id];
    SendTaken(s.w, m, Update(id, Some(data)));
    TakenCalm(s.w, m, Update(id, Some(data)), s.c.cardIds);
  }

  lemma UpdateCallCalm(o: Options, s: Sys, id: string, data: Data)
    requires Clean(s) && Guard(s, UpdateOf(id, data))
    ensures var r := UpdateCall(o, s, id, data); r.ok && Calm(r.s)
  {
    hide TryPatch, Send, AllApplied, Owned;
    if !s.c.isSealed && HasId(s.c.mirror, id) {
      MirrorOnServer(s);
      UpdateHereCalm(o, s, id, data);
    } else if !s.c.isSealed && id in s.c.cardIds && Some(s.c.cardIds[id]) != s.c.messageId {
      UpdateThereCalm(o, s, id, data);
    }
  }

  lemma FinishFullCalm(o: Options, s: Sys, footer: Data)
    requires Calm(s) && !s.c.isSealed && s.c.messageId.Some?
    ensures var r := FinishFull(o, s, footer); r.ok && Calm(r.s)
  {
    hide TryPatch, AllApplied, Owned, FooterData, ElementIds.FooterId;
    var k := s.c.footerSeq + 1;
    var elem := Elem("footer", ElementIds.FooterId(k), FooterData(footer));
    var c1 := s.c.(footerSeq := k, mirror := s.c.mirror + [elem]);
    PatchCalm(o, s.(c := c1), Append(Some(elem)), s.c.cardIds);
    var added := TryPatch(o, s.(c := c1), Append(Some(elem))).s;
    var s2 := added.(c := added.c.(state := "done"));
    PatchCalm(o, s2, SetState("done"), s.c.cardIds);
    var done := TryPatch(o, s2, SetState("done")).s;
    PatchCalm(o, done, SetSilent(Some(false)), s.c.cardIds);
  }

  lemma FinishEmptyCalm(o: Options, s: Sys)
    requires Calm(s) && !s.c.isSealed && s.c.messageId.Some? && s.c.cardIds == map[]
    ensures var r := FinishEmpty(o, s); r.ok && Calm(r.s)
  {
    if !o.canRecall {
      hide TryPatch;
      PatchCalm(o, s.(c := s.c.(state := "done")), SetState("done"), s.c.cardIds);
    }
  }

  lemma FinishCallCalm(o: Options, s: Sys, footer: Data)
    requires Clean(s)
    ensures var r := FinishCall(o, s, footer); r.ok && Calm(r.s)
  {
    hide FinishEmpty, FinishFull, EnsureCard;
    if !s.c.isSealed {
      EnsureClean(s);
      var ensured := EnsureCard(s).s;
      if RecallEmptyCard(o, ensured.c) {
        FinishEmptyCalm(o, ensured);
      } else {
        FinishFullCalm(o, ensured, footer);
      }
    }
  }

  // ---------------------------------------------------------- main results

  /** One fault-free call: it returns, the server accepted all of it, and the card equals the shadow. */
  lemma CallRefines(o: Options, s: Sys, call: Call)
    requires Clean(s) && NoFooterId(call) && Guard(s, call)
    ensures var r := Perform(o, s, call); r.ok && Clean(r.s)
  {
    match call {
      case AppendOf(kind, data) => AppendCallCalm(o, s, kind, data);
      case UpdateOf(id, data) => UpdateCallCalm(o, s, id, data);
      case FinishOf(footer) => FinishCallCalm(o, s, footer);
      case InterruptOf => FinishCallCalm(o, s, INTERRUPT_FOOTER);
    }
    hide Perform, Sound, Calm, InSync;
    PerformSound(o, s, call);
    ReturningCallKeepsSync(o, s, call);
  }

  // The guard is exact: a call outside it fails, or leaves server and shadow apart.

  /** The server refuses every update of the empty id, healed or not. */
  lemma EmptyIdRefused(o: Options, s: Sys, data: Data)
    ensures !TryPatch(o, s, Update("", Some(data))).ok
    ensures forall target :: !Send(s.w, target, Delta(Update("", Some(data)))).ok
  {
  }

  /** Some place where the two lists hold elements of different types. */
  ghost predicate KindsDiffer(a: seq<Elem>, b: seq<Elem>) {
    exists k :: 0 <= k < |a| && k < |b| && a[k].kind != b[k].kind
  }

  lemma FlushKeepsKinds(o: Options, s: Sys, elem: Elem)
    requires Calm(s) && !s.c.isSealed && Live(s.w, s.c.messageId) && elem.id != ""
    requires HasId(s.w.messages[s.c.messageId.value].card.elements, elem.id)
    requires KindsDiffer(s.w.messages[s.c.messageId.value].card.elements, s.c.mirror)
    ensures var r := FlushPending(o, s, elem).s;
            Live(r.w, r.c.messageId) && KindsDiffer(r.w.messages[r.c.messageId.value].card.elements, r.c.mirror)
  {
    hide TryPatch;
    var card := s.w.messages[s.c.messageId.value].card;
    var k :| 0 <= k < |card.elements| && k < |s.c.mirror| && card.elements[k].kind != s.c.mirror[k].kind;
    if elem.id in s.c.pending {
      var merged := elem.data + s.c.pending[elem.id];
      var c := s.c.(pending := s.c.pending - {elem.id}, mirror := MirrorData(s.c.mirror, elem.id, merged));
      PatchCalm(o, s.(c := c), Update(elem.id, Some(merged)), s.c.cardIds);
      assert SetData(card.elements, elem.id, merged)[k].kind == card.elements[k].kind;
      assert c.mirror[k].kind == s.c.mirror[k].kind;
    }
  }

  lemma RetypedApart(o: Options, s: Sys, elem: Elem)
    requires Clean(s) && !s.c.isSealed && s.c.messageId.Some? && Retypes(s.c, elem) && elem.id != ""
    ensures !InSync(AppendJob(o, s, elem).s)
  {
    hide TryPatch, FlushPending;
    var card := s.w.messages[s.c.messageId.value].card;
    var k := IndexOf(s.c.mirror, elem.id);
    var c1 := Shadow(s.c, elem, true, s.c.messageId.value);
    var op := Update(elem.id, Some(elem.data));
    PatchCalm(o, s.(c := c1), op, s.c.cardIds);
    var sent := TryPatch(o, s.(c := c1), op).s;
    AppendHasId(card, elem, op);
    assert SetData(card.elements, elem.id, elem.data)[k].kind != c1.mirror[k].kind;
    assert EnterCard(o, s, true) == Run(s, true);
    FlushKeepsKinds(o, sent, elem);
  }

  lemma AppendJobFails(o: Options, s: Sys, elem: Elem)
    requires Clean(s) && !s.c.isSealed && s.c.messageId.Some? && elem.id == ""
    requires HasId(s.c.mirror, "") || "" in s.c.pending
    ensures !AppendJob(o, s, elem).ok
  {
    hide TryPatch, FlushPending, EnterCard;
    var existed := HasId(s.c.mirror, elem.id);
    EnterCalm(o, s, existed);
    var carded := EnterCard(o, s, existed).s;
    var c1 := Shadow(carded.c, elem, existed, carded.c.messageId.value);
    if existed {
      EmptyIdRefused(o, carded.(c := c1), elem.data);
    } else {
      var op := Append(Some(elem));
      PatchCalm(o, carded.(c := c1), op, carded.c.cardIds);
      FlushFails(o, TryPatch(o, carded.(c := c1), op).s, elem);
    }
  }

  lemma FlushFails(o: Options, s: Sys, elem: Elem)
    requires elem.id == "" && "" in s.c.pending
    ensures !FlushPending(o, s, elem).ok
  {
    hide TryPatch;
    var merged := elem.data + s.c.pending[""];
    var c := s.c.(pending := s.c.pending - {""}, mirror := MirrorData(s.c.mirror, "", merged));
    EmptyIdRefused(o, s.(c := c), merged);
  }

  lemma TakeIdClean(s: Sys, data: Data)
    requires Clean(s)
    ensures Clean(s.(c := TakeId(s.c, data)))
  {
    hide ExplicitId;
  }

  lemma AppendOutsideGuard(o: Options, s: Sys, kind: string, data: Data)
    requires Clean(s) && !Guard(s, AppendOf(kind, data))
    ensures var r := AppendCall(o, s, kind, data); !(r.ok && InSync(r.s))
  {
    hide AppendJob, EnsureCard, Sound, InSync, Calm;
    EnsureClean(s);
    var ensured := EnsureCard(s).s;
    var elem := NewElem(ensured.c, kind, data);
    var s1 := ensured.(c := TakeId(ensured.c, data));
    TakeIdClean(ensured, data);
    if elem.id == "" && (HasId(s1.c.mirror, "") || "" in s1.c.pending) {
      AppendJobFails(o, s1, elem);
    } else {
      RetypedApart(o, s1, elem);
    }
  }

  lemma UpdateOutsideGuard(o: Options, s: Sys, id: string, data: Data)
    requires !Guard(s, UpdateOf(id, data))
    ensures !UpdateCall(o, s, id, data).ok
  {
    hide TryPatch, Send;
    EmptyIdRefused(o, s, data);
    if HasId(s.c.mirror, "") {
      var merged := s.c.mirror[IndexOf(s.c.mirror, id)].data + data;
      EmptyIdRefused(o, s.(c := s.c.(mirror := MirrorData(s.c.mirror, id, merged))), merged);
    }
  }

  /** A fault-free call from a synchronized state returns with server and shadow equal exactly under the guard. */
  lemma GuardIsExact(o: Options, s: Sys, call: Call)
    requires Clean(s) && NoFooterId(call)
    ensures Guard(s, call) <==> Perform(o, s, call).ok && InSync(Perform(o, s, call).s)
  {
    if Guard(s, call) {
      CallRefines(o, s, call);
    } else {
      match call
      case AppendOf(kind, data) => AppendOutsideGuard(o, s, kind, data);
      case UpdateOf(id, data) => UpdateOutsideGuard(o, s, id, data);
    }
  }

  /** Each of the first n calls of the run meets its guard when its turn comes. */
  ghost predicate Guarded(t: Trace, n: nat)
    requires n <= |t.calls| < |t.states|
  {
    forall i :: 0 <= i < n ==> NoFooterId(t.calls[i]) && Guard(t.states[i], t.calls[i])
  }

  /** Over any number of calls, rounds and splits. */
  lemma {:induction false} FaultFreeRun(o: Options, t: Trace, i: nat)
    requires IsTrace(o, NewSys([]), t) && i <= |t.calls| && Guarded(t, i)
    ensures Clean(t.states[i])
    ensures i < |t.calls| && NoFooterId(t.calls[i]) && Guard(t.states[i], t.calls[i]) ==> t.oks[i]
  {
    hide Perform, Clean, Guard, NoFooterId;
    if i == 0 {
      NewIsClean();
    } else {
      FaultFreeRun(o, t, i - 1);
      assert StepAt(o, t, i - 1);
      CallRefines(o, t.states[i - 1], t.calls[i - 1]);
    }
    if i < |t.calls| && NoFooterId(t.calls[i]) && Guard(t.states[i], t.calls[i]) {
      assert StepAt(o, t, i);
      CallRefines(o, t.states[i], t.calls[i]);
    }
  }

  lemma NewIsClean()
    ensures Clean(NewSys([]))
  {
    assert Ids(NewSys([]).c.mirror) == [];
  }

  /** The open or finished card is in the store exactly as the shadow has it. */
  ghost predicate CardIsShadow(s: Sys) {
    && Live(s.w, s.c.messageId)
    && var card := s.w.messages[s.c.messageId.value].card;
       card.elements == s.c.mirror && card.state == s.c.state && card.segment == s.c.segment
  }

  /**
   * At every point of a guarded fault-free run every request has been accepted
   * and every call has returned; an open card is the shadow, and so is a
   * finished one that was not recalled.
   */
  lemma FaultFreeRefinement(o: Options, t: Trace, i: nat)
    requires IsTrace(o, NewSys([]), t) && i <= |t.calls| && Guarded(t, i)
    ensures forall k :: 0 <= k < |t.states[i].w.log| ==> t.states[i].w.log[k].fate == Applied
    ensures t.states[i].c.messageId.Some? && !t.states[i].c.isSealed ==> CardIsShadow(t.states[i])
    ensures t.states[i].c.isSealed && Live(t.states[i].w, t.states[i].c.messageId) ==> CardIsShadow(t.states[i])
    ensures i > 0 ==> t.oks[i - 1]
  {
    FaultFreeRun(o, t, i);
    if i > 0 {
      FaultFreeRun(o, t, i - 1);
    }
    hide Sound, Guard, NoFooterId;
  }

  /** The first call of a run that breaks its guard is the first that fails or drives server and shadow apart. */
  lemma FirstBreachShows(o: Options, t: Trace, i: nat)
    requires IsTrace(o, NewSys([]), t) && i < |t.calls| && Guarded(t, i) && NoFooterId(t.calls[i])
    ensures Guard(t.states[i], t.calls[i]) <==> t.oks[i] && InSync(t.states[i + 1])
  {
    hide Perform, Clean, Guard, NoFooterId, InSync;
    FaultFreeRun(o, t, i);
    assert StepAt(o, t, i);
    GuardIsExact(o, t.states[i], t.calls[i]);
  }
}
