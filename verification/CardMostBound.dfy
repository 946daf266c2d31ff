// No pattern of failures makes a round count more than Most says.

module CardMostBound {
  import opened Prelude
  import opened CardContent
  import opened Wire
  import opened CardSpec
  import opened CardFaults
  import opened CardUnread
  import opened CardTwice
  import opened CardMost
  import opened CardScript
  import opened CardFields
  import CardWedge
  import ElementIds

  // ------------------------------------------------------- one call, any faults

  /** The object has a card, or will create one at the next start. */
  predicate Alive(s: Sys) {
    s.c.messageId.None? ==> s.c.inflight.NoFlight? && s.c.mirror == []
  }

  /** An append job: the element joins the shadow, is there already, is refused, or the card changes. */
  ghost predicate JobOutcome(s: Sys, r: Sys, id: string) {
    && r.c.idSeq == s.c.idSeq && Alive(r)
    && if HasId(s.c.mirror, id) then
         Ids(r.c.mirror) == Ids(s.c.mirror) && r.c.cardIds == s.c.cardIds && r.c.messageId == s.c.messageId
       else if |s.c.mirror| < MAX_ELEMENTS then
         Ids(r.c.mirror) == Ids(s.c.mirror) + [id] && r.c.cardIds != map[] && r.c.messageId == s.c.messageId
       else
         || (Ids(r.c.mirror) == Ids(s.c.mirror) && r.c.cardIds == s.c.cardIds && r.c.messageId == s.c.messageId)
         || (r.c.mirror == [] && r.c.messageId.None? && r.c.cardIds == s.c.cardIds)
         || (Ids(r.c.mirror) == [id] && r.c.messageId.Some? && r.c.messageId != s.c.messageId && r.c.cardIds != map[])
  }

  lemma JobCases(o: Options, s: Sys, elem: Elem)
    requires s.c.messageId.Some? && s.c.messageId.value < |s.w.messages|
    ensures JobOutcome(s, AppendJob(o, s, elem).s, elem.id)
  {
    JobFields(o, s, elem);
    EnterFields(o, s, HasId(s.c.mirror, elem.id));
    hide EnterCard, AppendJob, HasId;
    var r := AppendJob(o, s, elem).s.c;
    assert |Ids(r.mirror)| == |r.mirror|;
    assert [] + [elem.id] == [elem.id];
    assert Ids([]) == [];
  }

  /** The object before an append or finish: as it is, or reset if its round is over. */
  function Opened(s: Sys): Sys {
    if s.c.isSealed then s.(c := ResetRound(s.c)) else s
  }

  lemma EnsureCases(s: Sys)
    requires Alive(Opened(s))
    ensures var e := EnsureCard(s);
            && (e.ok ==> e.s.c.messageId.Some? && !e.s.c.isSealed
                         && e.s.c.mirror == Opened(s).c.mirror && e.s.c.cardIds == Opened(s).c.cardIds && e.s.c.idSeq == Opened(s).c.idSeq)
            && (!e.ok ==> CardWedge.Wedged(e.s))
  {
  }

  // ------------------------------------------------------------------ the bound

  /** The object is past saving, or looks like look, with nothing rung that look has not. */
  ghost predicate Bounds(o: Options, calls: seq<Call>, i: nat, s: Sys, look: Look)
    requires i <= |calls|
  {
    CardWedge.Wedged(s) || (Alive(s) && Looks(o, calls, i, s.c, look) && (Rung(s) ==> look.rung))
  }

  function RungBit(look: Look): nat {
    if look.rung then 1 else 0
  }

  /** One call from s to r: some next look bounds r, and covers a card that was rung and left. */
  ghost predicate Covered(o: Options, calls: seq<Call>, i: nat, s: Sys, r: Sys, look: Look, k: nat)
    requires i < |calls|
  {
    && k < |Nexts(o, calls, i, look)|
    && var next := Nexts(o, calls, i, look)[k];
       && Bounds(o, calls, i + 1, r, next)
       && next.rings - RungBit(next) >= look.rings - RungBit(look) + RungCount(LoudSplit(s, r))
  }

  lemma AppendCovered(o: Options, calls: seq<Call>, i: nat, s: Sys, look: Look) returns (k: nat)
    requires i < |calls| && calls[i].AppendOf? && NoFooterId(calls[i]) && Sound(s)
    requires Alive(Opened(s)) && Looks(o, calls, i, Opened(s).c, look) && (Rung(s) && !s.c.isSealed ==> look.rung)
    ensures Covered(o, calls, i, s, Perform(o, s, calls[i]).s, look, k)
  {
    var kind, data := calls[i].kind, calls[i].data;
    var r := Perform(o, s, calls[i]).s;
    AppendSilence(o, s, calls[i]);
    EnsureCases(s);
    EnsureCardSound(s);
    var e := EnsureCard(s);
    EnsureStaysOn(s);
    hide Perform, EnsureCard, Sound, Opened;
    if e.ok {
      AppendIsJob(o, s, kind, data);
      k := JobCovered(o, calls, i, e.s, look);
      hide Looks, Nexts;
    } else {
      FailedEnsure(o, s, kind, data);
      k := 0;
    }
  }

  lemma EnsureStaysOn(s: Sys)
    ensures !s.c.isSealed && s.c.messageId.Some? ==> EnsureCard(s).s == s
  {
  }

  /** The job on the ensured card e: k = 0 if the object stays on it, otherwise a new card that has not rung. */
  lemma JobCovered(o: Options, calls: seq<Call>, i: nat, e: Sys, look: Look) returns (k: nat)
    requires i < |calls| && calls[i].AppendOf? && NoFooterId(calls[i])
    requires Sound(e) && e.c.messageId.Some? && Looks(o, calls, i, e.c, look)
    ensures var r := AppendJob(o, e.(c := TakeId(e.c, calls[i].data)), NewElem(e.c, calls[i].kind, calls[i].data)).s;
            && k < |Nexts(o, calls, i, look)|
            && var next := Nexts(o, calls, i, look)[k];
               && Alive(r) && Looks(o, calls, i + 1, r.c, next) && next.rings == look.rings
               && (if k == 0 then next.rung == look.rung && r.c.messageId == e.c.messageId
                   else !next.rung && r.c.messageId != e.c.messageId)
  {
    var data := calls[i].data;
    var s1 := e.(c := TakeId(e.c, data));
    var elem := NewElem(e.c, calls[i].kind, data);
    var r := AppendJob(o, s1, elem).s;
    AppendId(calls, i, e.c);
    LooksTell(o, calls, i, e.c, look);
    SameButNumber(e.c, data);
    JobCases(o, s1, elem);
    SoundSize(e);
    hide AppendJob, Sound, Generated, AppendsBefore, NewElem, HasId, Looks, TakeId, ElementIds.IsFooterId;
    SizeIs(o, calls, i, e.c, look);
    var id := IdAt(calls, i);
    hide IdAt;
    if id in look.ids || (look.size >= MAX_ELEMENTS && r.c.messageId == e.c.messageId) {
      k := 0;
      if id in look.ids {
        LooksIds(o, calls, i, e.c, look, id);
      }
      LooksSame(o, calls, i, e.c, r.c, look);
    } else if look.size < MAX_ELEMENTS {
      k := 0;
      LooksAdded(o, calls, i, e.c, r.c, look);
    } else if r.c.messageId.Some? {
      k := 1;
      LooksNew(o, calls, i, e.c, r.c, look, [id]);
    } else {
      k := 2;
      LooksNew(o, calls, i, e.c, r.c, look, []);
    }
  }

  lemma LooksAfter(o: Options, calls: seq<Call>, i: nat, c: Client, d: Client, look: Look)
    requires i <= |calls| && Looks(o, calls, i, c, look)
    requires d.mirror == c.mirror && d.cardIds == c.cardIds && d.idSeq == c.idSeq
    ensures Looks(o, calls, i, d, look)
  {
    hide ElementIds.IsFooterId, AppendsBefore, Generated;
  }

  lemma SoundSize(s: Sys)
    requires Sound(s) && s.c.messageId.Some?
    ensures s.c.messageId.value < |s.w.messages|
  {
  }

  lemma SizeIs(o: Options, calls: seq<Call>, i: nat, c: Client, look: Look)
    requires i <= |calls| && Looks(o, calls, i, c, look)
    ensures |c.mirror| == look.size
  {
  }

  /** An id of the card means that the card is not empty. */
  lemma LooksIds(o: Options, calls: seq<Call>, i: nat, c: Client, look: Look, id: string)
    requires i <= |calls| && Looks(o, calls, i, c, look) && id in look.ids && !ElementIds.IsFooterId(id)
    ensures look.size > 0
  {
    assert id in Ids(c.mirror);
  }

  lemma SameButNumber(c: Client, data: Data)
    ensures var d := TakeId(c, data); d == c.(idSeq := d.idSeq)
  {
  }

  lemma AppendIsJob(o: Options, s: Sys, kind: string, data: Data)
    requires EnsureCard(s).ok
    ensures var e := EnsureCard(s).s;
            Perform(o, s, AppendOf(kind, data)).s == AppendJob(o, e.(c := TakeId(e.c, data)), NewElem(e.c, kind, data)).s
  {
    hide AppendJob, EnsureCard;
  }

  lemma FailedEnsure(o: Options, s: Sys, kind: string, data: Data)
    requires !EnsureCard(s).ok
    ensures Perform(o, s, AppendOf(kind, data)).s == EnsureCard(s).s
  {
    hide AppendJob, EnsureCard;
  }

  /** An append rings nothing, and a card it creates is silent. */
  lemma AppendSilence(o: Options, s: Sys, call: Call)
    requires Sound(s) && call.AppendOf?
    ensures var r := Perform(o, s, call).s;
            Rung(r) ==> !s.c.isSealed && Rung(s) && r.c.messageId == s.c.messageId
  {
    AppendAndUpdateCountNothing(o, s, call);
    if s.c.isSealed {
      SealedAppendQuiet(o, s, call);
    } else {
      CallMoves(o, s, call);
    }
    hide Perform, Sound;
  }

  /** A finish that gets past ensureCard: a footer, unless the card was taken for empty. */
  lemma FinishCallIds(o: Options, s: Sys, footer: Data)
    requires !s.c.isSealed && Alive(s)
    ensures var r := FinishCall(o, s, footer).s;
            && (!EnsureCard(s).ok ==> CardWedge.Wedged(r))
            && (EnsureCard(s).ok ==>
                  && r.c.messageId.Some? && r.c.cardIds == s.c.cardIds && r.c.idSeq == s.c.idSeq
                  && Ids(r.c.mirror) == if RecallEmptyCard(o, s.c) then Ids(s.c.mirror)
                                        else Ids(s.c.mirror) + [ElementIds.FooterId(EnsureCard(s).s.c.footerSeq + 1)])
  {
    EnsureCases(s);
    var e := EnsureCard(s);
    hide EnsureCard, FinishFull, FinishEmpty;
    FinishFields(o, e.s, footer);
  }

  lemma FinishCovered(o: Options, calls: seq<Call>, i: nat, s: Sys, look: Look)
    requires i < |calls| && Finishes(calls[i]) && Sound(s) && !s.c.isSealed
    requires Alive(s) && Looks(o, calls, i, s.c, look) && (Rung(s) ==> look.rung)
    ensures Covered(o, calls, i, s, Perform(o, s, calls[i]).s, look, 0)
  {
    var footer := FooterOf(calls[i]);
    var r := Perform(o, s, calls[i]).s;
    PerformIsFinish(o, s, calls[i]);
    FinishShape(o, s, footer);
    CallMoves(o, s, calls[i]);
    FinishCallIds(o, s, footer);
    LooksTell2(o, calls, i, s.c, look);
    hide Perform, FinishCall, EnsureCard, Sound, Looks, Rung, AppendsBefore, Entering;
    if EnsureCard(s).ok {
      FooterIdIs(EnsureCard(s).s.c.footerSeq + 1);
      NumberKept(o, calls, i, s.c, look);
      if RecallEmptyCard(o, s.c) {
        LooksSame(o, calls, i, s.c, r.c, look);
      } else {
        LooksFooted(o, calls, i, s.c, r.c, look, ElementIds.FooterId(EnsureCard(s).s.c.footerSeq + 1));
      }
    }
  }

  lemma FooterIdIs(k: nat)
    ensures ElementIds.IsFooterId(ElementIds.FooterId(k))
  {
  }

  lemma NumberKept(o: Options, calls: seq<Call>, i: nat, c: Client, look: Look)
    requires i < |calls| && !calls[i].AppendOf? && Looks(o, calls, i, c, look)
    ensures c.idSeq == Generated(calls, i + 1)
  {
  }

  /** A finish of the list enters exactly if it does not take the card for empty. */
  lemma LooksTell2(o: Options, calls: seq<Call>, i: nat, c: Client, look: Look)
    requires i < |calls| && Looks(o, calls, i, c, look) && Finishes(calls[i])
    ensures Entering(o, calls, i) <==> !RecallEmptyCard(o, c)
  {
  }

  lemma PerformIsFinish(o: Options, s: Sys, call: Call)
    requires Finishes(call)
    ensures Perform(o, s, call) == FinishCall(o, s, FooterOf(call))
  {
    hide FinishCall;
  }

  lemma UpdateCovered(o: Options, calls: seq<Call>, i: nat, s: Sys, look: Look)
    requires i < |calls| && calls[i].UpdateOf? && Sound(s) && !s.c.isSealed
    requires Alive(s) && Looks(o, calls, i, s.c, look) && (Rung(s) ==> look.rung)
    ensures Covered(o, calls, i, s, Perform(o, s, calls[i]).s, look, 0)
  {
    var r := UpdateCall(o, s, calls[i].id, calls[i].patch).s;
    UpdateFields(o, s, calls[i].id, calls[i].patch);
    CallMoves(o, s, calls[i]);
    NumberKept(o, calls, i, s.c, look);
    NotEntering(o, calls, i);
    hide UpdateCall, Looks, Sound, Entering, Rung;
    LooksSame(o, calls, i, s.c, r.c, look);
    assert |Ids(r.c.mirror)| == |r.c.mirror|;
    assert s.c.mirror == [] ==> Ids(s.c.mirror) == [];
  }

  lemma NotEntering(o: Options, calls: seq<Call>, i: nat)
    requires i < |calls| && calls[i].UpdateOf?
    ensures !Entering(o, calls, i)
  {
  }

  // --------------------------------------------------------------- whole rounds

  /** What is known before call i: a look that bounds the state, whose most is no more than the start's. */
  ghost predicate Within(o: Options, t: Trace, i: nat, look: Look)
    requires i <= |t.calls| < |t.states|
  {
    && Most(o, t.calls, i, look) <= Most(o, t.calls, 0, BLANK)
    && LoudSplits(t, i) + RungBit(look) <= look.rings
    && if CardWedge.Wedged(t.states[i]) then true
       else if i == 0 then Alive(Opened(t.states[0])) && Looks(o, t.calls, 0, Opened(t.states[0]).c, look)
       else Alive(t.states[i]) && Looks(o, t.calls, i, t.states[i].c, look) && (Rung(t.states[i]) ==> look.rung)
  }

  lemma StartWithin(o: Options, t: Trace)
    requires OneRound(o, t) && RoundStart(t.states[0])
    ensures Within(o, t, 0, BLANK)
  {
    hide Most, Sound, NoFooterId, IsTrace;
    assert LoudSplits(t, 0) == 0;
    var c := Opened(t.states[0]).c;
    assert Ids(c.mirror) == [];
    assert !AppendsBefore(t.calls, 0) && Generated(t.calls, 0) == 0;
  }

  lemma WedgedCovers(o: Options, t: Trace, i: nat, look: Look) returns (next: Look)
    requires OneRound(o, t) && i < |t.calls| && Within(o, t, i, look) && CardWedge.Wedged(t.states[i])
    ensures Within(o, t, i + 1, next)
  {
    hide Perform, Sound, NoFooterId, Nexts, Most;
    assert StepAt(o, t, i);
    CardWedge.WedgedCall(o, t.states[i], t.calls[i]);
    MostOfNext(o, t.calls, i, look);
    NextsGrow(o, t.calls, i, look);
    next := Nexts(o, t.calls, i, look)[0];
    NoneNotRung(t.states[i]);
    assert LoudSplits(t, i + 1) == LoudSplits(t, i);
  }

  lemma NextsGrow(o: Options, calls: seq<Call>, i: nat, look: Look)
    requires i < |calls|
    ensures var next := Nexts(o, calls, i, look)[0];
            next.rings - RungBit(next) >= look.rings - RungBit(look)
  {
    hide IdAt, Entering;
  }

  lemma StepWithin(o: Options, t: Trace, i: nat, look: Look) returns (next: Look)
    requires OneRound(o, t) && i < |t.calls| && Within(o, t, i, look)
    ensures Within(o, t, i + 1, next)
  {
    hide Sound, NoFooterId, Most, Looks, Perform;
    if CardWedge.Wedged(t.states[i]) {
      next := WedgedCovers(o, t, i, look);
    } else {
      RoundUnread(o, t, i);
      assert StepAt(o, t, i);
      NoneNotRung(t.states[i]);
      var s, r := t.states[i], t.states[i + 1];
      var k: nat := 0;
      if t.calls[i].AppendOf? {
        k := AppendCovered(o, t.calls, i, s, look);
      } else if Finishes(t.calls[i]) {
        FinishCovered(o, t.calls, i, s, look);
      } else {
        UpdateCovered(o, t.calls, i, s, look);
      }
      MostOfNext(o, t.calls, i, look);
      next := Nexts(o, t.calls, i, look)[k];
      assert LoudSplits(t, i + 1) == LoudSplits(t, i) + RungCount(LoudSplit(s, r));
    }
  }

  lemma {:induction false} AllWithin(o: Options, t: Trace, i: nat) returns (look: Look)
    requires OneRound(o, t) && RoundStart(t.states[0]) && i <= |t.calls|
    ensures Within(o, t, i, look)
  {
    hide Within, OneRound;
    if i == 0 {
      StartWithin(o, t);
      look := BLANK;
    } else {
      var before := AllWithin(o, t, i - 1);
      look := StepWithin(o, t, i - 1, before);
    }
  }

  /** Whatever fails, a round counts at most what Most computes from its calls. */
  lemma NeverMoreThanMost(o: Options, t: Trace)
    requires OneRound(o, t) && RoundStart(t.states[0])
    ensures t.states[|t.calls|].w.unread <= t.states[0].w.unread + Most(o, t.calls, 0, BLANK)
  {
    var n := |t.calls|;
    var look := AllWithin(o, t, n);
    RoundUnread(o, t, n);
    MostGrows(o, t.calls, n, look);
    NoneNotRung(t.states[n]);
    hide Looks, Sound, IsTrace, NoFooterId, AppendsBefore;
    assert n > 0 && Rung(t.states[n]) ==> look.rung;
  }
}
