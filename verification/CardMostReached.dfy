// Some pattern of failures makes a round count exactly as much as Most says.

module CardMostReached {
  import opened Prelude
  import opened CardContent
  import opened Wire
  import opened CardSpec
  import opened CardFaults
  import opened CardUnread
  import opened CardTwice
  import opened CardScript
  import opened CardMost
  import CardFields
  import CardMostBound
  import ElementIds

  /** The round so far went as look says: this shadow, this loudness, and that many counted. */
  ghost predicate Exactly(o: Options, calls: seq<Call>, i: nat, start: nat, s: Sys, look: Look)
    requires i <= |calls|
  {
    && Ready(s) && Looks(o, calls, i, s.c, look)
    && (if look.rung then Rung(s) else Silent(s)) && s.w.unread == start + look.rings
    && (s.c.messageId.None? ==> !look.rung)
  }

  // -------------------------------------------------------------- dull calls

  lemma DullLooks(o: Options, calls: seq<Call>, i: nat, s: Sys, look: Look)
    requires i < |calls| && NoFooterId(calls[i]) && Ready(s) && Looks(o, calls, i, s.c, look)
    ensures var c := DullClient(o, s, calls[i]);
            && (calls[i].AppendOf? && (IdAt(calls, i) in look.ids || look.size >= MAX_ELEMENTS) ==> Looks(o, calls, i + 1, c, look))
            && (calls[i].AppendOf? && IdAt(calls, i) !in look.ids && look.size < MAX_ELEMENTS ==>
                  Looks(o, calls, i + 1, c, Added(look, IdAt(calls, i))))
            && (Finishes(calls[i]) && Entering(o, calls, i) ==> Looks(o, calls, i + 1, c, Ringing(look)))
            && (!calls[i].AppendOf? && !Entering(o, calls, i) ==> Looks(o, calls, i + 1, c, look))
  {
    AfterCreationFields(s);
    LooksTell(o, calls, i, s.c, look);
    var e := CardAfterCreation(s).c;
    var c := DullClient(o, s, calls[i]);
    hide CardAfterCreation, Entering, Looks, AppendsBefore;
    match calls[i] {
      case AppendOf(kind, data) => DullAppendLooks(o, calls, i, s.c, e, look);
      case UpdateOf(id, data) =>
        CardMostBound.NotEntering(o, calls, i);
        CardMostBound.NumberKept(o, calls, i, s.c, look);
        LooksSame(o, calls, i, s.c, c, look);
      case FinishOf(footer) => DullFinishLooks(o, calls, i, s.c, e, look);
      case InterruptOf => DullFinishLooks(o, calls, i, s.c, e, look);
    }
  }

  lemma DullAppendLooks(o: Options, calls: seq<Call>, i: nat, c: Client, e: Client, look: Look)
    requires i < |calls| && calls[i].AppendOf? && NoFooterId(calls[i]) && Looks(o, calls, i, c, look)
    requires e.mirror == c.mirror && e.cardIds == c.cardIds && e.idSeq == c.idSeq && e.messageId.Some?
    requires HasId(c.mirror, IdAt(calls, i)) <==> IdAt(calls, i) in look.ids
    requires o.recallEmpty && look.size > 0 ==> c.cardIds != map[]
    ensures var r := DullShadow(TakeId(e, calls[i].data), NewElem(e, calls[i].kind, calls[i].data), e.messageId.value);
            && (IdAt(calls, i) in look.ids || look.size >= MAX_ELEMENTS ==> Looks(o, calls, i + 1, r, look))
            && (IdAt(calls, i) !in look.ids && look.size < MAX_ELEMENTS ==> Looks(o, calls, i + 1, r, Added(look, IdAt(calls, i))))
  {
    AppendId(calls, i, e);
    CardMostBound.SizeIs(o, calls, i, c, look);
    var elem := NewElem(e, calls[i].kind, calls[i].data);
    var r := DullShadow(TakeId(e, calls[i].data), elem, e.messageId.value);
    CardFields.ShadowIds(e, elem);
    CardMostBound.SameButNumber(e, calls[i].data);
    hide Looks, NewElem, HasId, ElementIds.IsFooterId, Generated, TakeId, MirrorElem, Ids;
    var id := IdAt(calls, i);
    hide IdAt;
    if id in look.ids || look.size >= MAX_ELEMENTS {
      if id in look.ids {
        CardMostBound.LooksIds(o, calls, i, c, look, id);
      }
      LooksSame(o, calls, i, c, r, look);
    } else {
      assert id in r.cardIds;
      LooksAdded(o, calls, i, c, r, look);
    }
  }

  lemma DullFinishLooks(o: Options, calls: seq<Call>, i: nat, c: Client, e: Client, look: Look)
    requires i < |calls| && Finishes(calls[i]) && Looks(o, calls, i, c, look)
    requires e.mirror == c.mirror && e.cardIds == c.cardIds && e.idSeq == c.idSeq && e.footerSeq == c.footerSeq
    requires Entering(o, calls, i) <==> !RecallEmptyCard(o, c)
    ensures var r := DullFinish(o, e, FooterOf(calls[i]));
            if Entering(o, calls, i) then Looks(o, calls, i + 1, r, Ringing(look)) else Looks(o, calls, i + 1, r, look)
  {
    CardMostBound.NumberKept(o, calls, i, c, look);
    FootedLooks(o, calls, i, c, e, look);
    hide Looks, Entering, FooterData, ElementIds.FooterId, Footed;
    if RecallEmptyCard(o, c) {
      LooksSame(o, calls, i, c, DullFinish(o, e, FooterOf(calls[i])), look);
    } else {
      var f := Footed(e, FooterOf(calls[i]));
      CardMostBound.LooksAfter(o, calls, i + 1, f, DullFinish(o, e, FooterOf(calls[i])), Ringing(look));
    }
  }

  lemma FootedLooks(o: Options, calls: seq<Call>, i: nat, c: Client, e: Client, look: Look)
    requires i < |calls| && Finishes(calls[i]) && Looks(o, calls, i, c, look)
    requires e.mirror == c.mirror && e.cardIds == c.cardIds && e.idSeq == c.idSeq
    ensures !RecallEmptyCard(o, c) ==> Looks(o, calls, i + 1, Footed(e, FooterOf(calls[i])), Ringing(look))
  {
    if !RecallEmptyCard(o, c) {
      var f := Footed(e, FooterOf(calls[i]));
      FootedFields(e, FooterOf(calls[i]));
      CardMostBound.FooterIdIs(e.footerSeq + 1);
      CardFields.ShadowIds(e, f.mirror[|e.mirror|]);
      hide Looks, FooterData, ElementIds.FooterId;
      LooksFooted(o, calls, i, c, f, look, ElementIds.FooterId(e.footerSeq + 1));
    }
  }

  // -------------------------------------------------------------------- steps

  lemma DullExact(o: Options, calls: seq<Call>, i: nat, start: nat, s: Sys, look: Look)
    requires i < |calls| && NoFooterId(calls[i]) && Exactly(o, calls, i, start, s, look)
    ensures var r := Perform(o, WithFaults(s, Dull(o, s.c, calls[i])), calls[i]).s;
            && Scripted(o, s, calls[i], Dull(o, s.c, calls[i]))
            && r.c == DullClient(o, s, calls[i]) && Ready(r) && r.w.unread == s.w.unread
            && (if look.rung then Rung(r) else Silent(r)) && (r.c.messageId.None? ==> !look.rung)
  {
    hide Scripted, Perform, Dull, Looks, DullClient, CardAfterCreation;
    DullScripted(o, s, calls[i]);
    DullKeeps(o, s, calls[i], Perform(o, WithFaults(s, Dull(o, s.c, calls[i])), calls[i]).s);
  }

  lemma DullStep(o: Options, calls: seq<Call>, i: nat, start: nat, s: Sys, look: Look, next: Look)
    requires i < |calls| && NoFooterId(calls[i]) && Exactly(o, calls, i, start, s, look)
    requires next.rung == look.rung && next.rings == look.rings
    requires Looks(o, calls, i + 1, DullClient(o, s, calls[i]), next)
    ensures Scripted(o, s, calls[i], Dull(o, s.c, calls[i]))
    ensures Exactly(o, calls, i + 1, start, Perform(o, WithFaults(s, Dull(o, s.c, calls[i])), calls[i]).s, next)
  {
    DullExact(o, calls, i, start, s, look);
    hide Scripted, Perform, Dull, Looks, DullClient, Ready, Silent, Rung;
  }

  lemma AppendStep(o: Options, calls: seq<Call>, i: nat, start: nat, s: Sys, look: Look, k: nat) returns (script: seq<Outcome>)
    requires i < |calls| && calls[i].AppendOf? && NoFooterId(calls[i])
    requires Exactly(o, calls, i, start, s, look) && k < |Nexts(o, calls, i, look)|
    ensures Scripted(o, s, calls[i], script)
    ensures Exactly(o, calls, i + 1, start, Perform(o, WithFaults(s, script), calls[i]).s, Nexts(o, calls, i, look)[k])
  {
    if k == 0 {
      script := Dull(o, s.c, calls[i]);
      DullLooks(o, calls, i, s, look);
      hide Scripted, Perform, Exactly, Looks, Dull, DullClient, IdAt;
      DullStep(o, calls, i, start, s, look, Nexts(o, calls, i, look)[0]);
    } else {
      FullCard(o, calls, i, s.c, look);
      ReadyOn(s);
      if k == 1 {
        script := SPLIT_SCRIPT;
        SplitStep(o, calls, i, start, s, look);
      } else {
        script := DROP_SCRIPT;
        DropStep(o, calls, i, start, s, look);
      }
    }
  }

  lemma ReadyOn(s: Sys)
    requires Ready(s) && s.c.mirror != []
    ensures Live(s.w, s.c.messageId)
  {
  }

  /** Only a full card that lacks the id offers a choice. */
  lemma FullCard(o: Options, calls: seq<Call>, i: nat, c: Client, look: Look)
    requires i < |calls| && calls[i].AppendOf? && NoFooterId(calls[i])
    requires Looks(o, calls, i, c, look) && |Nexts(o, calls, i, look)| == 3
    ensures |c.mirror| >= MAX_ELEMENTS && !HasId(c.mirror, NewElem(c, calls[i].kind, calls[i].data).id)
    ensures Nexts(o, calls, i, look)[1] == NewCard(look, {IdAt(calls, i)}) && Nexts(o, calls, i, look)[2] == NewCard(look, {})
    ensures NewElem(c, calls[i].kind, calls[i].data).id == IdAt(calls, i)
  {
    AppendId(calls, i, c);
    LooksTell(o, calls, i, c, look);
    CardMostBound.SizeIs(o, calls, i, c, look);
    hide IdAt, Looks, NewElem, HasId;
  }

  lemma SplitScripted(o: Options, s: Sys, kind: string, data: Data)
    requires !s.c.isSealed && Live(s.w, s.c.messageId)
    requires |s.c.mirror| >= MAX_ELEMENTS && !HasId(s.c.mirror, NewElem(s.c, kind, data).id)
    ensures Scripted(o, s, AppendOf(kind, data), SPLIT_SCRIPT)
    ensures var r := Perform(o, WithFaults(s, SPLIT_SCRIPT), AppendOf(kind, data)).s;
            && !r.c.isSealed && Live(r.w, r.c.messageId) && IsSilent(r.w.messages[r.c.messageId.value].card)
            && r.c.cardIds != map[] && r.w.unread == s.w.unread
            && r.c.mirror == [NewElem(s.c, kind, data)] && r.c.idSeq == TakeId(s.c, data).idSeq
  {
    hide Plays, Perform, NewElem, HasId, TakeId;
    forall rest ensures Plays(o, s, AppendOf(kind, data), SPLIT_SCRIPT, rest) {
      SplitCall(o, s, kind, data, rest);
    }
    SplitCall(o, s, kind, data, []);
  }

  lemma Unsealed(o: Options, calls: seq<Call>, i: nat, start: nat, s: Sys, look: Look)
    requires i <= |calls| && Exactly(o, calls, i, start, s, look)
    ensures !s.c.isSealed && Looks(o, calls, i, s.c, look) && s.w.unread == start + look.rings
  {
  }

  lemma SplitStep(o: Options, calls: seq<Call>, i: nat, start: nat, s: Sys, look: Look)
    requires i < |calls| && calls[i].AppendOf? && NoFooterId(calls[i]) && Exactly(o, calls, i, start, s, look)
    requires |Nexts(o, calls, i, look)| == 3 && Live(s.w, s.c.messageId)
    ensures Scripted(o, s, calls[i], SPLIT_SCRIPT)
    ensures Exactly(o, calls, i + 1, start, Perform(o, WithFaults(s, SPLIT_SCRIPT), calls[i]).s, Nexts(o, calls, i, look)[1])
  {
    Unsealed(o, calls, i, start, s, look);
    FullCard(o, calls, i, s.c, look);
    hide Scripted, Perform, Looks, Nexts, IdAt, NewElem, HasId, Generated, TakeId, WithFaults, Exactly, Ready, Rung, Silent, Live;
    SplitScripted(o, s, calls[i].kind, calls[i].data);
    SplitLooks(o, calls, i, start, s, Perform(o, WithFaults(s, SPLIT_SCRIPT), calls[i]).s, look);
  }

  lemma SplitLooks(o: Options, calls: seq<Call>, i: nat, start: nat, s: Sys, r: Sys, look: Look)
    requires i < |calls| && calls[i].AppendOf? && NoFooterId(calls[i]) && Looks(o, calls, i, s.c, look)
    requires |s.c.mirror| >= MAX_ELEMENTS && r.w.unread == s.w.unread == start + look.rings
    requires !r.c.isSealed && Live(r.w, r.c.messageId) && IsSilent(r.w.messages[r.c.messageId.value].card) && r.c.cardIds != map[]
    requires r.c.mirror == [NewElem(s.c, calls[i].kind, calls[i].data)] && r.c.idSeq == TakeId(s.c, calls[i].data).idSeq
    ensures Exactly(o, calls, i + 1, start, r, NewCard(look, {IdAt(calls, i)}))
  {
    AppendId(calls, i, s.c);
    CardMostBound.SizeIs(o, calls, i, s.c, look);
    hide Looks, NewElem, TakeId, Generated, IdAt;
    assert Ids(r.c.mirror) == [IdAt(calls, i)];
    LooksNew(o, calls, i, s.c, r.c, look, [IdAt(calls, i)]);
    NewCardNow(o, calls, i + 1, start, r, NewCard(look, {IdAt(calls, i)}));
  }

  lemma NewCardNow(o: Options, calls: seq<Call>, i: nat, start: nat, r: Sys, look: Look)
    requires i <= |calls| && Looks(o, calls, i, r.c, look) && !look.rung && r.w.unread == start + look.rings
    requires !r.c.isSealed && Live(r.w, r.c.messageId) && IsSilent(r.w.messages[r.c.messageId.value].card)
    ensures Exactly(o, calls, i, start, r, look)
  {
    hide Looks;
  }

  lemma DropStep(o: Options, calls: seq<Call>, i: nat, start: nat, s: Sys, look: Look)
    requires i < |calls| && calls[i].AppendOf? && NoFooterId(calls[i]) && Exactly(o, calls, i, start, s, look)
    requires |Nexts(o, calls, i, look)| == 3 && Live(s.w, s.c.messageId)
    ensures Scripted(o, s, calls[i], DROP_SCRIPT)
    ensures Exactly(o, calls, i + 1, start, Perform(o, WithFaults(s, DROP_SCRIPT), calls[i]).s, Nexts(o, calls, i, look)[2])
  {
    var kind, data := calls[i].kind, calls[i].data;
    FullCard(o, calls, i, s.c, look);
    AppendId(calls, i, s.c);
    CardMostBound.SizeIs(o, calls, i, s.c, look);
    hide Plays, Perform, Looks, Nexts, IdAt, NewElem, HasId, Generated, TakeId;
    forall rest ensures Plays(o, s, calls[i], DROP_SCRIPT, rest) {
      DropCall(o, s, kind, data, rest);
    }
    DropCall(o, s, kind, data, []);
    var r := Perform(o, WithFaults(s, DROP_SCRIPT), calls[i]).s;
    hide Scripted, Plays, WithFaults, SplitWorld, DropWorld;
    assert Ids(r.c.mirror) == [];
    LooksNew(o, calls, i, s.c, r.c, look, []);
    NoCardNow(o, calls, i + 1, start, r, NewCard(look, {}));
  }

  lemma NoCardNow(o: Options, calls: seq<Call>, i: nat, start: nat, r: Sys, look: Look)
    requires i <= |calls| && Looks(o, calls, i, r.c, look) && !look.rung && r.w.unread == start + look.rings
    requires !r.c.isSealed && r.c.messageId.None? && r.c.inflight.NoFlight? && r.c.mirror == []
    ensures Exactly(o, calls, i, start, r, look)
  {
    hide Looks;
  }

  lemma FinishStep(o: Options, calls: seq<Call>, i: nat, start: nat, s: Sys, look: Look) returns (script: seq<Outcome>)
    requires i < |calls| && Finishes(calls[i]) && NoFooterId(calls[i]) && Exactly(o, calls, i, start, s, look)
    ensures Scripted(o, s, calls[i], script)
    ensures Exactly(o, calls, i + 1, start, Perform(o, WithFaults(s, script), calls[i]).s, Nexts(o, calls, i, look)[0])
  {
    LooksTell(o, calls, i, s.c, look);
    if Entering(o, calls, i) && !look.rung {
      script := RingScript(s.c);
      RingStep(o, calls, i, start, s, look);
    } else {
      script := Dull(o, s.c, calls[i]);
      DullLooks(o, calls, i, s, look);
      hide Scripted, Perform, Exactly, Looks, Dull, DullClient, Entering;
      DullStep(o, calls, i, start, s, look, Nexts(o, calls, i, look)[0]);
    }
  }

  lemma RingStep(o: Options, calls: seq<Call>, i: nat, start: nat, s: Sys, look: Look)
    requires i < |calls| && Finishes(calls[i]) && Exactly(o, calls, i, start, s, look) && !look.rung
    requires !RecallEmptyCard(o, s.c)
    ensures Scripted(o, s, calls[i], RingScript(s.c))
    ensures Exactly(o, calls, i + 1, start, Perform(o, WithFaults(s, RingScript(s.c)), calls[i]).s, Ringing(look))
  {
    AfterCreationFields(s);
    var e := CardAfterCreation(s).c;
    FootedLooks(o, calls, i, s.c, e, look);
    FootedFields(e, FooterOf(calls[i]));
    hide Scripted, Perform, RingScript, Looks, Footed, CardAfterCreation, Rung, Ready, Silent, RecallEmptyCard, WithFaults;
    RingScripted(o, s, calls[i]);
    var r := Perform(o, WithFaults(s, RingScript(s.c)), calls[i]).s;
    hide Exactly;
    CardMostBound.LooksAfter(o, calls, i + 1, Footed(e, FooterOf(calls[i])), r.c, Ringing(look));
    RungNow(o, calls, i + 1, start, r, Ringing(look));
  }

  lemma RungNow(o: Options, calls: seq<Call>, i: nat, start: nat, r: Sys, look: Look)
    requires i <= |calls| && Looks(o, calls, i, r.c, look) && look.rung && r.w.unread == start + look.rings
    requires Ready(r) && Rung(r)
    ensures Exactly(o, calls, i, start, r, look)
  {
    RungHasCard(r);
    hide Looks, Ready, Rung;
  }

  /** Any of the next looks can be had. */
  lemma AnyStep(o: Options, calls: seq<Call>, i: nat, start: nat, s: Sys, look: Look, k: nat) returns (script: seq<Outcome>)
    requires i < |calls| && NoFooterId(calls[i]) && Exactly(o, calls, i, start, s, look) && k < |Nexts(o, calls, i, look)|
    ensures Scripted(o, s, calls[i], script)
    ensures Exactly(o, calls, i + 1, start, Perform(o, WithFaults(s, script), calls[i]).s, Nexts(o, calls, i, look)[k])
  {
    hide Scripted, Perform, Exactly, IdAt;
    if calls[i].AppendOf? {
      script := AppendStep(o, calls, i, start, s, look, k);
    } else if Finishes(calls[i]) {
      script := FinishStep(o, calls, i, start, s, look);
    } else {
      script := UpdateStep(o, calls, i, start, s, look);
    }
  }

  lemma UpdateStep(o: Options, calls: seq<Call>, i: nat, start: nat, s: Sys, look: Look) returns (script: seq<Outcome>)
    requires i < |calls| && calls[i].UpdateOf? && NoFooterId(calls[i]) && Exactly(o, calls, i, start, s, look)
    ensures Scripted(o, s, calls[i], script)
    ensures Exactly(o, calls, i + 1, start, Perform(o, WithFaults(s, script), calls[i]).s, Nexts(o, calls, i, look)[0])
  {
    script := Dull(o, s.c, calls[i]);
    DullLooks(o, calls, i, s, look);
    CardMostBound.NotEntering(o, calls, i);
    hide Scripted, Perform, Exactly, Looks, Dull, DullClient, Entering;
    DullStep(o, calls, i, start, s, look, look);
  }

  // --------------------------------------------------------------- whole rounds

  /** The rest of the round from call i on, with outcomes that reach Most. */
  lemma {:induction false} PlayMost(o: Options, calls: seq<Call>, i: nat, start: nat, s: Sys, look: Look)
    returns (faults: seq<Outcome>, t: Trace)
    requires i <= |calls| && NoFooterIds(calls) && Exactly(o, calls, i, start, s, look)
    ensures IsTrace(o, WithFaults(s, faults), t) && t.calls == calls[i..]
    ensures forall k :: 0 <= k < |t.states| ==> !t.states[k].c.isSealed
    ensures t.states[|t.calls|].w.unread == start + Most(o, calls, i, look)
    decreases |calls| - i
  {
    hide Perform, Looks, Nexts, NoFooterId;
    assert !s.c.isSealed;
    if i == |calls| {
      faults := [];
      t := Trace([], [WithFaults(s, [])], []);
      assert calls[i..] == [];
    } else {
      MostOfNext(o, calls, i, look);
      var k :| 0 <= k < |Nexts(o, calls, i, look)| && Most(o, calls, i + 1, Nexts(o, calls, i, look)[k]) == Most(o, calls, i, look);
      var script := AnyStep(o, calls, i, start, s, look, k);
      hide Exactly, Most;
      var next := Perform(o, WithFaults(s, script), calls[i]);
      var faults2, t2 := PlayMost(o, calls, i + 1, start, next.s, Nexts(o, calls, i, look)[k]);
      faults := script + faults2;
      t := Trace(calls[i..], [WithFaults(s, faults)] + t2.states, [next.ok] + t2.oks);
      assert Plays(o, s, calls[i], script, faults2);
      assert calls[i..] == [calls[i]] + calls[i + 1..];
      forall j: nat | j < |t.calls| ensures StepAt(o, t, j) {
        if j > 0 {
          assert StepAt(o, t2, j - 1);
        }
      }
    }
  }

  lemma BlankExactly(o: Options, calls: seq<Call>, s: Sys)
    requires s.c == NewClient.(failures := s.c.failures)
    ensures Exactly(o, calls, 0, s.w.unread, s, BLANK)
  {
    assert Ids(s.c.mirror) == [] && !AppendsBefore(calls, 0);
  }

  /** From any start of a round some outcomes make the list count exactly as much as Most says. */
  lemma MostIsReached(o: Options, s: Sys, calls: seq<Call>) returns (faults: seq<Outcome>, t: Trace)
    requires Sound(s) && RoundStart(s) && NoFooterIds(calls)
    requires s.c.isSealed ==> calls != [] && calls[0].AppendOf?
    ensures IsTrace(o, WithFaults(s, faults), t) && t.calls == calls && OneRound(o, t)
    ensures t.states[|calls|].w.unread == s.w.unread + Most(o, calls, 0, BLANK)
  {
    hide Exactly, Perform, Most, Sound, NoFooterId;
    var blank := if s.c.isSealed then s.(c := ResetRound(s.c)) else s;
    BlankExactly(o, calls, blank);
    var t1;
    faults, t1 := PlayMost(o, calls, 0, s.w.unread, blank, BLANK);
    assert calls[0..] == calls;
    t := t1.(states := t1.states[0 := WithFaults(s, faults)]);
    forall k: nat | k < |t.calls| ensures StepAt(o, t, k) {
      assert StepAt(o, t1, k);
      if k == 0 && s.c.isSealed {
        ResetFirst(o, WithFaults(s, faults), calls[0]);
      }
    }
    SoundWithFaults(s, faults);
  }

  /** At least n unread messages in one round: possible under some outcomes exactly if Most of the list is at least n. */
  lemma CountsAtLeastIff(o: Options, s: Sys, calls: seq<Call>, n: nat)
    requires Sound(s) && RoundStart(s) && NoFooterIds(calls)
    requires s.c.isSealed ==> calls != [] && calls[0].AppendOf?
    ensures Most(o, calls, 0, BLANK) >= n <==>
            exists faults, t: Trace ::
              && IsTrace(o, WithFaults(s, faults), t) && t.calls == calls && OneRound(o, t)
              && t.states[|calls|].w.unread >= s.w.unread + n
  {
    hide OneRound, Most, Sound, NoFooterId;
    var faults0, t0 := MostIsReached(o, s, calls);
    if faults, t: Trace :| IsTrace(o, WithFaults(s, faults), t) && t.calls == calls && OneRound(o, t)
                           && t.states[|calls|].w.unread >= s.w.unread + n
    {
      CardMostBound.NeverMoreThanMost(o, t);
    }
  }

  // -------------------------------------------------------------- closed form

  /** The plan (p, q, r): refuse what can be refused until q, leave the card there, and ring it before and the next one at r. */
  ghost predicate Planned(o: Options, calls: seq<Call>, p: nat, q: nat, r: nat, i: nat, look: Look)
    requires i <= |calls|
  {
    if i <= q then
      && (forall id <- look.ids :: exists a :: 0 <= a < i && calls[a].AppendOf? && IdAt(calls, a) == id)
      && (look.size >= MAX_ELEMENTS || look.size >= Entries(o, calls, i))
      && (look.rung ==> look.rings >= 1) && (i > p ==> look.rung)
    else if i <= r then look.rings >= 1 && (look.rung ==> look.rings >= 2)
    else look.rings >= 2
  }

  lemma PlannedBefore(o: Options, calls: seq<Call>, p: nat, q: nat, r: nat, i: nat, look: Look)
    requires Fresh(calls) && RingsAt(o, calls, p, q, r) && i < q && Planned(o, calls, p, q, r, i, look)
    ensures Planned(o, calls, p, q, r, i + 1, Nexts(o, calls, i, look)[0])
  {
    NewHere(calls, i, look.ids);
    KeepsIds(calls, i, look.ids);
    assert Entries(o, calls, i + 1) == Entries(o, calls, i) + if Entering(o, calls, i) then 1 else 0;
    assert calls[i].AppendOf? ==> Entering(o, calls, i);
    var next := Nexts(o, calls, i, look)[0];
    hide Entries, Entering, AppendsBefore, IdAt;
    if calls[i].AppendOf? {
      assert next == if look.size < MAX_ELEMENTS then Added(look, IdAt(calls, i)) else look;
      assert i != p;
    } else {
      assert next == if Entering(o, calls, i) then Ringing(look) else look;
      assert next.ids == look.ids;
    }
    hide Nexts;
  }

  lemma NewHere(calls: seq<Call>, i: nat, ids: set<string>)
    requires Fresh(calls) && i < |calls|
    requires forall id <- ids :: exists a :: 0 <= a < i && calls[a].AppendOf? && IdAt(calls, a) == id
    ensures calls[i].AppendOf? ==> IdAt(calls, i) !in ids
  {
    hide IdAt;
  }

  lemma PlannedLeave(o: Options, calls: seq<Call>, p: nat, q: nat, r: nat, look: Look)
    requires Fresh(calls) && RingsAt(o, calls, p, q, r) && Planned(o, calls, p, q, r, q, look)
    ensures |Nexts(o, calls, q, look)| == 3 && Planned(o, calls, p, q, r, q + 1, Nexts(o, calls, q, look)[1])
  {
    hide Entries, IdAt, Entering, AppendsBefore;
    assert IdAt(calls, q) !in look.ids;
  }

  lemma PlannedAfter(o: Options, calls: seq<Call>, p: nat, q: nat, r: nat, i: nat, look: Look)
    requires RingsAt(o, calls, p, q, r) && q < i < |calls| && Planned(o, calls, p, q, r, i, look)
    ensures Planned(o, calls, p, q, r, i + 1, Nexts(o, calls, i, look)[0])
  {
    EntersAfterAppend(o, calls, q, r);
    hide Entries, IdAt, Entering, AppendsBefore;
  }

  lemma PlannedNext(o: Options, calls: seq<Call>, p: nat, q: nat, r: nat, i: nat, look: Look) returns (k: nat)
    requires Fresh(calls) && RingsAt(o, calls, p, q, r) && i < |calls| && Planned(o, calls, p, q, r, i, look)
    ensures k < |Nexts(o, calls, i, look)| && Planned(o, calls, p, q, r, i + 1, Nexts(o, calls, i, look)[k])
  {
    hide Planned, Nexts, Fresh, Entries, Entering;
    k := if i == q then 1 else 0;
    if i < q {
      PlannedBefore(o, calls, p, q, r, i, look);
    } else if i == q {
      PlannedLeave(o, calls, p, q, r, look);
    } else {
      PlannedAfter(o, calls, p, q, r, i, look);
    }
  }

  lemma EntersAfterAppend(o: Options, calls: seq<Call>, q: nat, r: nat)
    requires q < r < |calls| && calls[q].AppendOf? && Finishes(calls[r])
    ensures Entering(o, calls, r)
  {
  }

  lemma KeepsIds(calls: seq<Call>, i: nat, ids: set<string>)
    requires i < |calls| && forall id <- ids :: exists a :: 0 <= a < i && calls[a].AppendOf? && IdAt(calls, a) == id
    ensures forall id <- ids :: exists a :: 0 <= a < i + 1 && calls[a].AppendOf? && IdAt(calls, a) == id
    ensures calls[i].AppendOf? ==>
              forall id <- ids + {IdAt(calls, i)} :: exists a :: 0 <= a < i + 1 && calls[a].AppendOf? && IdAt(calls, a) == id
  {
    hide IdAt;
  }

  lemma {:induction false} PlanReachesTwo(o: Options, calls: seq<Call>, p: nat, q: nat, r: nat, i: nat, look: Look)
    requires Fresh(calls) && RingsAt(o, calls, p, q, r) && i <= |calls| && Planned(o, calls, p, q, r, i, look)
    ensures Most(o, calls, i, look) >= 2
    decreases |calls| - i
  {
    hide Fresh, Nexts, Planned;
    if i == |calls| {
      PlanDone(o, calls, p, q, r, look);
    } else {
      var k := PlannedNext(o, calls, p, q, r, i, look);
      PlanReachesTwo(o, calls, p, q, r, i + 1, Nexts(o, calls, i, look)[k]);
      MostOfNext(o, calls, i, look);
    }
  }

  lemma PlanDone(o: Options, calls: seq<Call>, p: nat, q: nat, r: nat, look: Look)
    requires RingsAt(o, calls, p, q, r) && Planned(o, calls, p, q, r, |calls|, look)
    ensures look.rings >= 2
  {
  }

  /** For lists that append no id twice: two unread messages are possible exactly in the form finish, append after 20 elements, finish. */
  lemma FreshClosedForm(o: Options, calls: seq<Call>)
    requires Fresh(calls)
    ensures Most(o, calls, 0, BLANK) >= 2 <==> CanRingTwice(o, calls)
  {
    hide OneRound, Most, Sound, Fresh, Entries;
    if CanRingTwice(o, calls) {
      var p, q, r :| 0 <= p < q < r < |calls| && RingsAt(o, calls, p, q, r);
      BlankPlanned(o, calls, p, q, r);
      PlanReachesTwo(o, calls, p, q, r, 0, BLANK);
    }
    if Most(o, calls, 0, BLANK) >= 2 {
      NewIsSound([]);
      FreshHasNoFooters(calls);
      var faults, t := MostIsReached(o, NewSys([]), calls);
      TwiceNeedsThree(o, t);
    }
  }

  lemma FreshHasNoFooters(calls: seq<Call>)
    requires Fresh(calls)
    ensures NoFooterIds(calls)
  {
  }

  lemma BlankPlanned(o: Options, calls: seq<Call>, p: nat, q: nat, r: nat)
    ensures Planned(o, calls, p, q, r, 0, BLANK)
  {
    assert Entries(o, calls, 0) == 0;
  }

  /** The same said of runs: from any start of a round, some outcomes make such a list count two exactly if it has that form. */
  lemma RingsTwiceIff(o: Options, s: Sys, calls: seq<Call>)
    requires Sound(s) && RoundStart(s) && Fresh(calls)
    requires s.c.isSealed ==> calls != [] && calls[0].AppendOf?
    ensures CanRingTwice(o, calls) <==>
            exists faults, t: Trace ::
              && IsTrace(o, WithFaults(s, faults), t) && t.calls == calls && OneRound(o, t)
              && t.states[|calls|].w.unread >= s.w.unread + 2
  {
    hide OneRound, Most, Sound, CanRingTwice, IsTrace, Fresh;
    FreshClosedForm(o, calls);
    FreshHasNoFooters(calls);
    CountsAtLeastIff(o, s, calls, 2);
  }
}
