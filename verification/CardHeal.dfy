// When a patch gets through, and that the third failure in a row is the last
// one the server's card suffers from.

module CardHeal {
  import opened Prelude
  import opened CardContent
  import opened Wire
  import opened CardSpec
  import opened CardFaults
  import opened CardSync
  import CardFields
  import CardRegisters
  import ElementIds

  /** What becomes of the io call i from now. */
  function OutcomeOf(w: World, i: nat): Outcome {
    if i < |w.faults| then w.faults[i] else Delivered
  }

  // ---------------------------------------------------------------- one request

  /** The request is acknowledged: delivered, to a message that is there, and well-formed for its card. */
  ghost predicate Acknowledged(w: World, target: Option<nat>, r: Request) {
    Live(w, target) && OutcomeOf(w, 0).Delivered? && !CardRegisters.Malformed(w.messages[target.value].card, r)
  }

  lemma AcknowledgedIff(w: World, target: Option<nat>, r: Request)
    ensures Send(w, target, r).ok <==> Acknowledged(w, target, r)
    ensures forall i: nat :: OutcomeOf(Send(w, target, r).w, i) == OutcomeOf(w, i + 1)
    ensures Live(Send(w, target, r).w, target) <==> Live(w, target)
  {
    if Live(w, target) {
      CardRegisters.RefusedIff(w.messages[target.value].card, r);
    }
    hide ApplyRequest, CardRegisters.Malformed;
  }

  /** After an acknowledged full replace the card has the elements it was given. */
  lemma ReplacedElements(w: World, target: Option<nat>, card: Card)
    requires Send(w, target, Replace(card)).ok
    ensures Live(Send(w, target, Replace(card)).w, target)
    ensures Send(w, target, Replace(card)).w.messages[target.value].card.elements == card.elements
  {
  }

  // ------------------------------------------------------------------ one patch

  /** The request that follows a full replace: what an append would add is there already. */
  function Retried(op: Op): Op {
    match op
    case Append(Some(e)) => Update(e.id, Some(e.data))
    case _ => op
  }

  lemma RetriedMalformed(c: Card, c': Card, op: Op)
    requires c.elements == c'.elements
    ensures CardRegisters.Malformed(c, Delta(op)) <==> CardRegisters.Malformed(c', Delta(op))
  {
    assert forall id :: CardRegisters.Present(c, id) <==> CardRegisters.Present(c', id);
  }

  /**
   * A patch returns exactly if its request is acknowledged, or if this is the
   * third failure in a row or a later one, healing is on, and the full replace
   * and the repeated request get through. The failure count is 0 after a
   * patch that returns and one more after any other.
   */
  lemma PatchReturnsIff(o: Options, s: Sys, op: Op)
    ensures var target := s.c.messageId;
            var r := TryPatch(o, s, op);
            && (r.ok <==>
                  || Acknowledged(s.w, target, Delta(op))
                  || (&& Live(s.w, target) && o.selfHeal && s.c.failures + 1 >= 3
                      && OutcomeOf(s.w, 1).Delivered? && OutcomeOf(s.w, 2).Delivered?
                      && !CardRegisters.Malformed(Card(s.c.mirror, s.c.state, s.c.segment, None), Delta(Retried(op)))))
            && r.s.c == s.c.(failures := if r.ok then 0 else s.c.failures + 1)
  {
    hide Send, ApplyRequest, CardRegisters.Malformed, Live;
    var c := s.c.(failures := s.c.failures + 1);
    AcknowledgedIff(s.w, c.messageId, Delta(op));
    var first := Send(s.w, c.messageId, Delta(op));
    var replace := Replace(ShadowCard(c));
    AcknowledgedIff(first.w, c.messageId, replace);
    ReplaceWellFormed(first.w, c.messageId, ShadowCard(c));
    var healed := Send(first.w, c.messageId, replace);
    AcknowledgedIff(healed.w, c.messageId, Delta(RetryOp(op)));
    if healed.ok {
      ReplacedElements(first.w, c.messageId, ShadowCard(c));
      RetriedMalformed(healed.w.messages[c.messageId.value].card, ShadowCard(c), RetryOp(op));
    }
  }

  lemma ReplaceWellFormed(w: World, target: Option<nat>, card: Card)
    ensures Acknowledged(w, target, Replace(card)) <==> Live(w, target) && OutcomeOf(w, 0).Delivered?
  {
  }

  // ------------------------------------------------------- the third in a row

  /** An append of an element that is new, not expected, and has room. */
  ghost predicate FreshAppend(s: Sys, call: Call) {
    && call.AppendOf? && ExplicitId(call.data).Some?
    && |s.c.mirror| < MAX_ELEMENTS
    && var id := ExplicitId(call.data).value;
       id != "" && !ElementIds.IsFooterId(id) && !HasId(s.c.mirror, id) && id !in s.c.pending
  }

  /** The element it adds. */
  function Added(call: Call): Elem {
    match call
    case AppendOf(kind, data) =>
      Elem(kind, if ExplicitId(data).Some? then ExplicitId(data).value else "", data - ENVELOPE_KEYS)
    case _ => Elem("", "", map[])
  }

  /** On an open card such a call is one patch. */
  lemma FreshIsPatch(o: Options, s: Sys, call: Call)
    requires !s.c.isSealed && s.c.messageId.Some? && FreshAppend(s, call)
    ensures var e := Added(call);
            var c := s.c.(mirror := s.c.mirror + [e], cardIds := s.c.cardIds[e.id := s.c.messageId.value]);
            Perform(o, s, call) == TryPatch(o, s.(c := c), Append(Some(e)))
  {
    hide TryPatch;
    CardFields.PatchedFields(o, s, Shadow(s.c, Added(call), false, s.c.messageId.value), Append(Some(Added(call))));
  }

  lemma AddedPresent(c: Client, e: Elem)
    requires e.id != ""
    ensures !CardRegisters.Malformed(Card(c.mirror + [e], c.state, c.segment, None), Delta(Update(e.id, Some(e.data))))
  {
    var card := Card(c.mirror + [e], c.state, c.segment, None);
    assert card.elements[|c.mirror|] == e && e in card.elements;
    assert CardRegisters.Present(card, e.id);
  }

  /** Fewer than three failures: the append throws, and only the shadow has the element for sure. */
  lemma FreshFails(o: Options, s: Sys, call: Call)
    requires !s.c.isSealed && Live(s.w, s.c.messageId) && FreshAppend(s, call)
    requires !OutcomeOf(s.w, 0).Delivered? && s.c.failures < 2
    ensures var r := Perform(o, s, call);
            var e := Added(call);
            && !r.ok && r.s.c == s.c.(mirror := s.c.mirror + [e], cardIds := s.c.cardIds[e.id := s.c.messageId.value], failures := s.c.failures + 1)
            && Live(r.s.w, r.s.c.messageId) && forall i: nat :: OutcomeOf(r.s.w, i) == OutcomeOf(s.w, i + 1)
  {
    FreshIsPatch(o, s, call);
    var e := Added(call);
    var s1 := s.(c := s.c.(mirror := s.c.mirror + [e], cardIds := s.c.cardIds[e.id := s.c.messageId.value]));
    PatchReturnsIff(o, s1, Append(Some(e)));
    AcknowledgedIff(s1.w, s1.c.messageId, Delta(Append(Some(e))));
    hide Send, Perform, FreshAppend, ApplyRequest, CardRegisters.Malformed;
  }

  /** The third: the append heals, and server and shadow are the same with all that was missing. */
  lemma FreshHeals(o: Options, s: Sys, call: Call)
    requires Sound(s) && !s.c.isSealed && Live(s.w, s.c.messageId) && FreshAppend(s, call)
    requires o.selfHeal && s.c.failures >= 2
    requires !OutcomeOf(s.w, 0).Delivered? && OutcomeOf(s.w, 1).Delivered? && OutcomeOf(s.w, 2).Delivered?
    ensures var r := Perform(o, s, call);
            && r.ok && r.s.c.failures == 0 && r.s.c.mirror == s.c.mirror + [Added(call)] && r.s.c.messageId == s.c.messageId
            && Live(r.s.w, r.s.c.messageId) && Same(r.s.w.messages[r.s.c.messageId.value].card, r.s.c)
  {
    FreshIsPatch(o, s, call);
    var e := Added(call);
    var c := s.c.(mirror := s.c.mirror + [e], cardIds := s.c.cardIds[e.id := s.c.messageId.value]);
    var s1 := s.(c := c);
    AddedPresent(s.c, e);
    PatchReturnsIff(o, s1, Append(Some(e)));
    AcknowledgedIff(s1.w, s1.c.messageId, Delta(Append(Some(e))));
    FreshDistinct(s, e);
    AppendAdvances(s.c, c, e);
    hide Send, Perform, Sound, FreshAppend, ApplyRequest, CardRegisters.Malformed, Absorbs, Advances;
    HealConverges(o, s1, Append(Some(e)));
  }

  lemma FreshDistinct(s: Sys, e: Elem)
    requires Sound(s) && !HasId(s.c.mirror, e.id)
    ensures Distinct(Ids(s.c.mirror + [e]))
  {
    HasIdIffInIds(s.c.mirror, e.id);
    IdsConcat(s.c.mirror, [e]);
  }

  /**
   * Three appends whose first requests all fail, lost or not acknowledged,
   * with the network back after the third: the first two throw, the third
   * returns, and the server's card is the shadow with all three elements,
   * whatever it held before.
   */
  lemma ThirdFailureHeals(o: Options, s: Sys, t: Trace)
    requires Sound(s) && !s.c.isSealed && Live(s.w, s.c.messageId) && o.selfHeal && s.c.failures == 0
    requires IsTrace(o, s, t) && |t.calls| == 3
    requires forall i :: 0 <= i < 3 ==> FreshAppend(t.states[i], t.calls[i])
    requires forall i :: 0 <= i < 3 ==> !OutcomeOf(s.w, i).Delivered?
    requires OutcomeOf(s.w, 3).Delivered? && OutcomeOf(s.w, 4).Delivered?
    ensures t.oks == [false, false, true]
    ensures var r := t.states[3];
            && r.c.mirror == s.c.mirror + [Added(t.calls[0]), Added(t.calls[1]), Added(t.calls[2])] && r.c.failures == 0
            && Live(r.w, s.c.messageId) && r.w.messages[s.c.messageId.value].card.elements == r.c.mirror
            && Same(r.w.messages[s.c.messageId.value].card, r.c)
  {
    hide Perform, Sound, FreshAppend, NoFooterId, Added, OutcomeOf;
    assert StepAt(o, t, 0) && StepAt(o, t, 1) && StepAt(o, t, 2);
    FreshIsNoFooter(s, t.calls[0]);
    FreshIsNoFooter(t.states[1], t.calls[1]);
    FreshFails(o, s, t.calls[0]);
    PerformSound(o, s, t.calls[0]);
    FreshFails(o, t.states[1], t.calls[1]);
    PerformSound(o, t.states[1], t.calls[1]);
    assert OutcomeOf(t.states[2].w, 0) == OutcomeOf(t.states[1].w, 1) == OutcomeOf(s.w, 2);
    assert OutcomeOf(t.states[2].w, 1) == OutcomeOf(t.states[1].w, 2) == OutcomeOf(s.w, 3);
    assert OutcomeOf(t.states[2].w, 2) == OutcomeOf(t.states[1].w, 3) == OutcomeOf(s.w, 4);
    FreshHeals(o, t.states[2], t.calls[2]);
  }

  lemma FreshIsNoFooter(s: Sys, call: Call)
    requires FreshAppend(s, call)
    ensures NoFooterId(call)
  {
  }

  // ------------------------------------------------------------- across rounds

  /** The failure count is the one thing a finished round hands on: an append that opens the next one goes on counting. */
  lemma CountSurvivesRounds(s: Sys)
    requires s.c.isSealed
    ensures EnsureCard(s).s.c.failures == s.c.failures
    ensures var c := EnsureCard(s).s.c;
            && !c.isSealed && c.mirror == [] && c.pending == map[] && c.cardIds == map[]
            && c.segmentIndex == 0 && c.segment == None && c.footerSeq == 0 && c.idSeq == 0 && c.state == "generating"
  {
  }
}
