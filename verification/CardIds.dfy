// The ids an object generates within one round are pairwise distinct, across
// types, cards, splits and failures.

module CardIds {
  import opened Prelude
  import opened CardContent
  import opened Wire
  import opened CardSpec
  import opened CardFields
  import ElementIds

  /** The append gets past ensureCard without an id of its own. */
  predicate TakesNumber(s: Sys, call: Call) {
    call.AppendOf? && ExplicitId(call.data).None? && EnsureCard(s).ok
  }

  /** The id it is given. */
  function IdGiven(s: Sys, call: Call): string
    requires call.AppendOf?
  {
    NewElem(EnsureCard(s).s.c, call.kind, call.data).id
  }

  lemma EnsureKeepsNumber(s: Sys)
    ensures EnsureCard(s).s.c.idSeq == if s.c.isSealed then 0 else s.c.idSeq
  {
  }

  /** Within a round the number only grows, and a call that takes it passes it. */
  lemma NumberGrows(o: Options, s: Sys, call: Call)
    ensures var r := Perform(o, s, call).s.c;
            && (!s.c.isSealed ==> s.c.idSeq <= r.idSeq)
            && (TakesNumber(s, call) ==> r.idSeq == EnsureCard(s).s.c.idSeq + 1)
  {
    hide AppendJob, EnterCard, FinishEmpty, FinishFull, UpdateCall, EnsureCard;
    EnsureKeepsNumber(s);
    var e := EnsureCard(s).s;
    match call
    case AppendOf(kind, data) =>
      var elem := NewElem(e.c, kind, data);
      var s1 := e.(c := TakeId(e.c, data));
      JobFields(o, s1, elem);
      EnterFields(o, s1, HasId(s1.c.mirror, elem.id));
    case UpdateOf(id, data) => UpdateFields(o, s, id, data);
    case FinishOf(footer) => FinishFields(o, e, footer);
    case InterruptOf => FinishFields(o, e, INTERRUPT_FOOTER);
  }

  /** The round is open at every state from a to b. */
  ghost predicate OpenFrom(t: Trace, a: nat, b: nat)
    requires b < |t.states|
  {
    forall k :: a <= k <= b ==> !t.states[k].c.isSealed
  }

  lemma {:induction false} NumberGrowsOver(o: Options, s: Sys, t: Trace, a: nat, b: nat)
    requires IsTrace(o, s, t) && a <= b <= |t.calls| && OpenFrom(t, a, b)
    ensures t.states[a].c.idSeq <= t.states[b].c.idSeq
  {
    hide Perform;
    if a < b {
      NumberGrowsOver(o, s, t, a, b - 1);
      assert StepAt(o, t, b - 1);
      NumberGrows(o, t.states[b - 1], t.calls[b - 1]);
    }
  }

  /** Any two ids generated in one round differ, whatever failed or was split in between. */
  lemma RoundIdsDistinct(o: Options, s: Sys, t: Trace, i: nat, j: nat)
    requires IsTrace(o, s, t) && i < j < |t.calls| && OpenFrom(t, i + 1, j)
    requires TakesNumber(t.states[i], t.calls[i]) && TakesNumber(t.states[j], t.calls[j])
    ensures IdGiven(t.states[i], t.calls[i]) != IdGiven(t.states[j], t.calls[j])
  {
    hide Perform, EnsureCard, ElementIds.ElementId;
    assert StepAt(o, t, i);
    NumberGrows(o, t.states[i], t.calls[i]);
    NumberGrowsOver(o, s, t, i + 1, j);
    EnsureKeepsNumber(t.states[j]);
    var m, n := EnsureCard(t.states[i]).s.c.idSeq + 1, EnsureCard(t.states[j]).s.c.idSeq + 1;
    if IdGiven(t.states[i], t.calls[i]) == IdGiven(t.states[j], t.calls[j]) {
      ElementIds.GeneratedIdsDistinct(t.calls[i].kind, m, t.calls[j].kind, n);
    }
  }
}
