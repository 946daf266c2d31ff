// Which lists of calls can make one round count two unread messages: a finish
// that rings the card but is reported as failed, enough elements to split that
// card, and another finish. For lists that append no id twice that is exact.

module CardTwice {
  import opened Prelude
  import opened CardContent
  import opened Wire
  import opened CardSpec
  import opened CardFaults
  import opened CardUnread
  import opened CardFields
  import CardSync
  import ElementIds

  // ---------------------------------------------------- reading a list of calls

  predicate AppendsBefore(calls: seq<Call>, n: nat)
    requires n <= |calls|
  {
    exists a :: 0 <= a < n && calls[a].AppendOf?
  }

  /** The call adds an element to the card it finds: an append, or a finish that does not take the card for empty. */
  predicate Entering(o: Options, calls: seq<Call>, k: nat)
    requires k < |calls|
  {
    calls[k].AppendOf? || (Finishes(calls[k]) && (o.recallEmpty ==> AppendsBefore(calls, k)))
  }

  /** How many of the first n calls add an element. */
  function Entries(o: Options, calls: seq<Call>, n: nat): nat
    requires n <= |calls|
  {
    if n == 0 then 0 else Entries(o, calls, n - 1) + if Entering(o, calls, n - 1) then 1 else 0
  }

  /** A finish, later an append that comes after at least 20 elements, later another finish. */
  predicate RingsAt(o: Options, calls: seq<Call>, p: nat, q: nat, r: nat) {
    && p < q < r < |calls|
    && Finishes(calls[p]) && Entering(o, calls, p)
    && calls[q].AppendOf? && Entries(o, calls, q) >= 20
    && Finishes(calls[r])
  }

  predicate CanRingTwice(o: Options, calls: seq<Call>) {
    exists p, q, r :: 0 <= p < q < r < |calls| && RingsAt(o, calls, p, q, r)
  }

  /** How many of the first n calls take a generated id. */
  function Generated(calls: seq<Call>, n: nat): nat
    requires n <= |calls|
  {
    if n == 0 then 0
    else Generated(calls, n - 1) + if calls[n - 1].AppendOf? && ExplicitId(calls[n - 1].data).None? then 1 else 0
  }

  /** The id of the element that call i appends. */
  function IdAt(calls: seq<Call>, i: nat): string
    requires i < |calls| && calls[i].AppendOf?
  {
    NewElem(NewClient.(idSeq := Generated(calls, i)), calls[i].kind, calls[i].data).id
  }

  /** No id is appended twice, and none is a footer id. */
  ghost predicate Fresh(calls: seq<Call>) {
    && (forall i, j :: 0 <= i < j < |calls| && calls[i].AppendOf? && calls[j].AppendOf? ==> IdAt(calls, i) != IdAt(calls, j))
    && NoFooterIds(calls)
  }

  lemma NotFooter(c: Client, call: Call)
    requires call.AppendOf? && NoFooterId(call)
    ensures !ElementIds.IsFooterId(NewElem(c, call.kind, call.data).id)
  {
    ElementIds.GeneratedFooterIds(call.kind, c.idSeq + 1);
  }

  lemma AppendsBeforeStep(calls: seq<Call>, i: nat)
    requires i < |calls| && !calls[i].AppendOf?
    ensures AppendsBefore(calls, i + 1) <==> AppendsBefore(calls, i)
  {
  }

  /** The start of a round: a card object never used, or one whose last round is over. */
  predicate RoundStart(s: Sys) {
    s.c.isSealed || s.c == NewClient.(failures := s.c.failures)
  }

  // -------------------------------------------------------- one call, any faults

  lemma AppendCallShape(o: Options, s: Sys, kind: string, data: Data)
    requires Sound(s)
    ensures var r := AppendCall(o, s, kind, data).s;
            && |r.c.mirror| <= (if s.c.isSealed then 0 else |s.c.mirror|) + 1
            && (!s.c.isSealed && s.c.messageId.Some? && r.c.messageId != s.c.messageId ==> |s.c.mirror| >= MAX_ELEMENTS)
  {
    EnsureCardSound(s);
    var ensured := EnsureCard(s);
    if ensured.ok {
      var s1 := ensured.s.(c := TakeId(ensured.s.c, data));
      var elem := NewElem(ensured.s.c, kind, data);
      JobFields(o, s1, elem);
      EnterFields(o, s1, HasId(s1.c.mirror, elem.id));
      var r := AppendJob(o, s1, elem).s;
      assert |Ids(r.c.mirror)| == |r.c.mirror|;
      hide AppendJob, EnterCard, NewElem, HasId, Ids;
    }
  }

  lemma FinishShape(o: Options, s: Sys, footer: Data)
    requires Sound(s) && !s.c.isSealed
    ensures var r := FinishCall(o, s, footer).s;
            && |r.c.mirror| <= |s.c.mirror| + (if RecallEmptyCard(o, s.c) then 0 else 1)
            && r.c.cardIds == s.c.cardIds
            && (Rung(r) && !Rung(s) ==> !RecallEmptyCard(o, s.c))
  {
    hide FinishFull, FinishEmpty, EnsureCard;
    EnsureStays(s);
    EnsureQuiet(s);
    EnsureCardSound(s);
    var ensured := EnsureCard(s);
    if ensured.ok && ensured.s.c.messageId.Some? {
      if RecallEmptyCard(o, ensured.s.c) {
        FinishEmptyShape(o, ensured.s);
      } else {
        FinishFields(o, ensured.s, footer);
        var r := FinishFull(o, ensured.s, footer).s;
        assert |Ids(r.c.mirror)| == |r.c.mirror|;
      }
    }
  }

  lemma EnsureStays(s: Sys)
    requires !s.c.isSealed
    ensures var e := EnsureCard(s).s.c; e.mirror == s.c.mirror && e.cardIds == s.c.cardIds
  {
  }

  lemma FinishEmptyShape(o: Options, s: Sys)
    requires Sound(s)
    ensures var r := FinishEmpty(o, s).s;
            r.c.mirror == s.c.mirror && r.c.cardIds == s.c.cardIds && (Rung(r) ==> Rung(s))
  {
    if !o.canRecall {
      hide TryPatch;
      TryPatchHushed(o, s.(c := s.c.(state := "done")), SetState("done"));
    }
  }

  // ---------------------------------------------------- at most one: any list

  /** What every point of an open round keeps, whatever fails. */
  ghost predicate Bounded(o: Options, t: Trace, i: nat)
    requires i < |t.states| && i <= |t.calls|
  {
    var s := t.states[i];
    && |s.c.mirror| <= Entries(o, t.calls, i)
    && (s.c.cardIds != map[] ==> AppendsBefore(t.calls, i))
    && (Rung(s) ==> exists p :: 0 <= p < i && Finishes(t.calls[p]) && Entering(o, t.calls, p))
  }

  lemma {:induction false} RoundBounded(o: Options, t: Trace, i: nat)
    requires OneRound(o, t) && RoundStart(t.states[0]) && i <= |t.calls| && (t.states[0].c.isSealed ==> i > 0)
    ensures Bounded(o, t, i)
  {
    hide Perform, Sound, Rung, NoFooterId, Entering;
    if i == 0 {
      NoneNotRung(t.states[0]);
    } else {
      RoundUnread(o, t, i - 1);
      assert StepAt(o, t, i - 1);
      if i == 1 && t.states[0].c.isSealed {
        FirstBounded(o, t);
      } else {
        RoundBounded(o, t, i - 1);
        CallBounded(o, t, i - 1);
      }
    }
  }

  lemma FirstBounded(o: Options, t: Trace)
    requires OneRound(o, t) && t.states[0].c.isSealed
    ensures Bounded(o, t, 1)
  {
    hide Sound, Rung, NoFooterId, AppendCall;
    assert StepAt(o, t, 0);
    var call := t.calls[0];
    assert call.AppendOf? && Entering(o, t.calls, 0);
    assert Entries(o, t.calls, 1) == Entries(o, t.calls, 0) + 1;
    AppendCallShape(o, t.states[0], call.kind, call.data);
    SealedAppendQuiet(o, t.states[0], call);
  }

  lemma CallBounded(o: Options, t: Trace, i: nat)
    requires OneRound(o, t) && i < |t.calls| && Sound(t.states[i]) && !t.states[i].c.isSealed && Bounded(o, t, i)
    ensures Bounded(o, t, i + 1)
  {
    hide Sound, Rung, NoFooterId, AppendCall, UpdateCall, FinishCall;
    assert StepAt(o, t, i);
    var s, call := t.states[i], t.calls[i];
    assert call.AppendOf? ==> Entering(o, t.calls, i);
    assert Entries(o, t.calls, i + 1) == Entries(o, t.calls, i) + if Entering(o, t.calls, i) then 1 else 0;
    CallMoves(o, s, call);
    match call
    case AppendOf(kind, data) => AppendCallShape(o, s, kind, data);
    case UpdateOf(id, data) =>
      UpdateFields(o, s, id, data);
      assert |Ids(t.states[i + 1].c.mirror)| == |t.states[i + 1].c.mirror|;
    case FinishOf(footer) => FinishShape(o, s, footer);
    case InterruptOf => FinishShape(o, s, INTERRUPT_FOOTER);
  }

  lemma {:induction false} FirstLoudSplit(t: Trace, n: nat) returns (q: nat)
    requires n < |t.states| && LoudSplits(t, n) >= 1
    ensures q < n && LoudSplit(t.states[q], t.states[q + 1]) && LoudSplits(t, q + 1) == 1
  {
    hide LoudSplit;
    if LoudSplits(t, n - 1) >= 1 {
      q := FirstLoudSplit(t, n - 1);
    } else {
      q := n - 1;
    }
  }

  lemma {:induction false} LaterLoudSplit(t: Trace, a: nat, n: nat) returns (q: nat)
    requires a <= n < |t.states| && LoudSplits(t, n) > LoudSplits(t, a)
    ensures a <= q < n && LoudSplit(t.states[q], t.states[q + 1])
  {
    hide LoudSplit;
    if LoudSplits(t, n - 1) > LoudSplits(t, a) {
      q := LaterLoudSplit(t, a, n - 1);
    } else {
      q := n - 1;
    }
  }

  /** A card that becomes loud was rung by a finish in between. */
  lemma {:induction false} RungByFinish(o: Options, t: Trace, a: nat, b: nat) returns (r: nat)
    requires OneRound(o, t) && 0 < a <= b <= |t.calls| && !Rung(t.states[a]) && Rung(t.states[b])
    ensures a <= r < b && Finishes(t.calls[r])
  {
    hide Perform, Sound, Rung, NoFooterId;
    if Finishes(t.calls[b - 1]) {
      r := b - 1;
    } else {
      RoundUnread(o, t, b - 1);
      assert StepAt(o, t, b - 1);
      CallMoves(o, t.states[b - 1], t.calls[b - 1]);
      r := RungByFinish(o, t, a, b - 1);
    }
  }

  /** The call that splits a loud card is an append, comes after at least 20 elements, and leaves a silent card. */
  lemma SplitAt(o: Options, t: Trace, q: nat)
    requires OneRound(o, t) && RoundStart(t.states[0]) && q < |t.calls| && LoudSplit(t.states[q], t.states[q + 1])
    ensures t.calls[q].AppendOf? && Entries(o, t.calls, q) >= MAX_ELEMENTS && !Rung(t.states[q + 1])
    ensures exists p :: 0 <= p < q && Finishes(t.calls[p]) && Entering(o, t.calls, p)
  {
    hide Sound, NoFooterId, AppendCall, UpdateCall, FinishCall, Entries, Entering;
    var s, call := t.states[q], t.calls[q];
    RoundUnread(o, t, q);
    RoundBounded(o, t, q);
    assert StepAt(o, t, q);
    CallMoves(o, s, call);
    AppendAndUpdateCountNothing(o, s, call);
    AppendCallShape(o, s, call.kind, call.data);
  }

  /** Two increments in one round mean a list that can ring twice, whatever the failures were. */
  lemma TwiceNeedsThree(o: Options, t: Trace)
    requires OneRound(o, t) && RoundStart(t.states[0])
    requires t.states[|t.calls|].w.unread >= t.states[0].w.unread + 2
    ensures CanRingTwice(o, t.calls)
  {
    hide Sound, Rung, NoFooterId, Entries, Entering;
    var n := |t.calls|;
    RoundUnread(o, t, n);
    var q := FirstLoudSplit(t, n);
    SplitAt(o, t, q);
    var p :| 0 <= p < q && Finishes(t.calls[p]) && Entering(o, t.calls, p);
    var e := n;
    if LoudSplits(t, n) >= 2 {
      e := LaterLoudSplit(t, q + 1, n);
    }
    var r := RungByFinish(o, t, q + 1, e);
    assert RingsAt(o, t.calls, p, q, r);
  }

  /** In a round whose list cannot ring twice, no pattern of failures counts more than one. */
  lemma AtMostOneUnread(o: Options, t: Trace)
    requires OneRound(o, t) && RoundStart(t.states[0]) && !CanRingTwice(o, t.calls)
    ensures t.states[|t.calls|].w.unread <= t.states[0].w.unread + 1
  {
    hide Sound, RoundStart, CanRingTwice;
    if t.states[|t.calls|].w.unread >= t.states[0].w.unread + 2 {
      TwiceNeedsThree(o, t);
    }
  }
}
