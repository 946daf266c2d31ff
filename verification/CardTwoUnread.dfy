// One concrete round that counts two unread messages: nineteen elements, a
// finish whose last request takes effect but is reported as failed, one more
// element, and the finish again.

module CardTwoUnread {
  import opened Prelude
  import opened CardContent
  import opened Wire
  import opened CardSpec
  import opened CardFaults
  import opened CardUnread
  import opened CardTwice
  import opened CardScript
  import opened CardMost
  import CardFields
  import CardMostBound
  import CardMostReached
  import CardSplit
  import ElementIds

  const TEXT: Call := AppendOf("markdown", map[])
  const STOP: Call := FinishOf(map[])

  function Calls(): (calls: seq<Call>)
    ensures |calls| == 22
    ensures forall i :: 0 <= i < 22 ==> calls[i] == if i == 19 || i == 21 then STOP else TEXT
  {
    seq(19, _ => TEXT) + [STOP, TEXT, STOP]
  }

  /** The card's creation, 19 appends and two patches of the finish are delivered; its third is applied but not acknowledged. */
  function Faults(): seq<Outcome> {
    Deliveries(22) + [Unacked]
  }

  function Deliveries(n: nat): (d: seq<Outcome>)
    ensures |d| == n && forall i :: 0 <= i < n ==> d[i] == Delivered
  {
    seq(n, _ => Delivered)
  }

  // --------------------------------------------------------- the list is fresh

  lemma TextIsNoFooter()
    ensures NoFooterId(TEXT) && NoFooterId(STOP)
  {
    forall n: nat ensures ElementIds.TypePart("markdown", n) != "footer" {
      var part := ElementIds.TypePart("markdown", n);
      assert part[0] == 'm';
    }
  }

  lemma {:induction false} GeneratedCount(n: nat)
    requires n <= 22
    ensures Generated(Calls(), n) == if n <= 19 then n else if n == 20 then 19 else 20
  {
    if n > 0 {
      GeneratedCount(n - 1);
    }
  }

  lemma CallsAreFresh()
    ensures Fresh(Calls())
  {
    TextIsNoFooter();
    var calls := Calls();
    forall i, j | 0 <= i < j < |calls| && calls[i].AppendOf? && calls[j].AppendOf?
      ensures IdAt(calls, i) != IdAt(calls, j)
    {
      GeneratedCount(i);
      GeneratedCount(j);
      if IdAt(calls, i) == IdAt(calls, j) {
        ElementIds.GeneratedIdsDistinct("markdown", Generated(calls, i) + 1, "markdown", Generated(calls, j) + 1);
      }
    }
  }

  // --------------------------------------------------------- the first 19 calls

  /** The first card after k elements. */
  ghost function LookAt(k: nat): Look
    requires k <= 19
  {
    Look(set a | 0 <= a < k :: IdAt(Calls(), a), k, false, 0)
  }

  lemma NewId(k: nat)
    requires k < 19 && Fresh(Calls())
    ensures IdAt(Calls(), k) !in LookAt(k).ids && LookAt(k + 1) == Added(LookAt(k), IdAt(Calls(), k))
  {
  }

  /** The second text after the finish has an id of its own as well. */
  lemma LastId()
    requires Fresh(Calls())
    ensures IdAt(Calls(), 20) !in LookAt(19).ids
  {
  }

  /** After k elements: all of them on a silent card, nothing pending, no failure so far. */
  ghost predicate Growing(o: Options, k: nat, s: Sys) {
    && k <= 19 && Ready(s) && Looks(o, Calls(), k, s.c, LookAt(k)) && Silent(s) && s.w.unread == 0
    && s.c.pending == map[] && s.c.failures == 0 && |s.c.mirror| == k
    && (k > 0 ==> s.c.messageId.Some? && s.c.cardIds != map[])
    && (k == 0 ==> s.c.messageId.None?)
    && s.w.faults == Deliveries(if k == 0 then 22 else 21 - k) + [Unacked]
  }

  lemma DeliveredJob(o: Options, s: Sys, m: nat, elem: Elem, rest: seq<Outcome>)
    requires s.c.messageId == Some(m) && Live(s.w, Some(m)) && s.w.faults == [Delivered] + rest
    requires !HasId(s.c.mirror, elem.id) && elem.id !in s.c.pending && |s.c.mirror| < MAX_ELEMENTS
    ensures AppendJob(o, s, elem) ==
            Run(Sys(Shadow(s.c, elem, false, m).(failures := 0), TakenOp(s.w, m, Append(Some(elem)), rest)), true)
  {
    hide TryPatch;
    TakenPatch(o, s.(c := Shadow(s.c, elem, false, m)), m, Append(Some(elem)), true, rest);
  }

  /** A delivered append of a new element, on the open card or the one it creates. */
  lemma DeliveredAppend(o: Options, s: Sys, kind: string, data: Data, rest: seq<Outcome>)
    requires Ready(s) && s.w.faults == Creation(s.c) + ([Delivered] + rest)
    requires var elem := NewElem(CardAfterCreation(s).c, kind, data);
             !HasId(s.c.mirror, elem.id) && elem.id !in s.c.pending && |s.c.mirror| < MAX_ELEMENTS
    ensures var e := CardAfterCreation(s);
            var m := e.c.messageId.value;
            var elem := NewElem(e.c, kind, data);
            Perform(o, s, AppendOf(kind, data)) ==
            Run(Sys(Shadow(TakeId(e.c, data), elem, false, m).(failures := 0),
                    TakenOp(e.w.(faults := [Delivered] + rest), m, Append(Some(elem)), rest)), true)
  {
    hide AppendJob, EnsureCard, CardAfterCreation, ExplicitId, Shadow;
    EnsureScripted(s, [Delivered] + rest);
    AfterCreationFields(s);
    var e := CardAfterCreation(s);
    assert WithFaults(s, s.w.faults) == s;
    var e1 := WithFaults(e, [Delivered] + rest).(c := TakeId(e.c, data));
    DeliveredJob(o, e1, e.c.messageId.value, NewElem(e.c, kind, data), rest);
  }

  lemma GrownClient(o: Options, k: nat, c: Client, m: nat)
    requires Fresh(Calls()) && k < 19 && Looks(o, Calls(), k, c, LookAt(k))
    ensures var elem := NewElem(c, "markdown", map[]);
            var c' := Shadow(TakeId(c, map[]), elem, false, m).(failures := 0);
            && !HasId(c.mirror, elem.id)
            && Looks(o, Calls(), k + 1, c', LookAt(k + 1)) && |c'.mirror| == |c.mirror| + 1 && c'.cardIds != map[]
            && c'.pending == c.pending && c'.isSealed == c.isSealed && c'.messageId == c.messageId
  {
    TextIsNoFooter();
    NewId(k);
    LooksTell(o, Calls(), k, c, LookAt(k));
    AppendId(Calls(), k, c);
    var elem := NewElem(c, "markdown", map[]);
    CardFields.ShadowIds(c, elem);
    CardMostBound.SameButNumber(c, map[]);
    hide Calls, Fresh, Looks, HasId, NewElem, IdAt, LookAt, TakeId, Generated;
    var c' := Shadow(TakeId(c, map[]), elem, false, m).(failures := 0);
    assert elem.id in c'.cardIds;
    LooksAdded(o, Calls(), k, c, c', LookAt(k));
  }

  /** The outcomes before call k are the creation, if it is the first, its own, and the rest. */
  lemma OutcomesAt(k: nat)
    requires k < 19
    ensures Deliveries(if k == 0 then 22 else 21 - k) + [Unacked] ==
            (if k == 0 then [Delivered] else []) + ([Delivered] + (Deliveries(20 - k) + [Unacked]))
  {
    hide Deliveries;
    DeliverOne(21 - k);
    if k == 0 {
      DeliverOne(22);
    }
  }

  lemma GrowsByOne(o: Options, k: nat, s: Sys)
    requires Growing(o, k, s) && k < 19 && Fresh(Calls())
    ensures Growing(o, k + 1, Perform(o, s, TEXT).s)
  {
    hide Calls, Fresh, Looks, LookAt, HasId, NewElem, Perform, Shadow, TakeId, TakenOp;
    CardMostBound.SizeIs(o, Calls(), k, s.c, LookAt(k));
    var rest := Deliveries(20 - k) + [Unacked];
    var e := CardAfterCreation(s);
    var m := e.c.messageId.value;
    AfterCreationFields(s);
    hide Deliveries;
    OutcomesAt(k);
    CreationLooks(o, Calls(), k, s, LookAt(k));
    hide CardAfterCreation, Creation;
    GrownClient(o, k, e.c, m);
    DeliveredAppend(o, s, "markdown", map[], rest);
    StillSilent(e, m, NewElem(e.c, "markdown", map[]), rest);
  }

  lemma CreationLooks(o: Options, calls: seq<Call>, i: nat, s: Sys, look: Look)
    requires Ready(s) && i <= |calls| && Looks(o, calls, i, s.c, look)
    ensures Looks(o, calls, i, CardAfterCreation(s).c, look)
    ensures Silent(s) ==> Silent(CardAfterCreation(s))
  {
    AfterCreationFields(s);
    CardMostBound.LooksAfter(o, calls, i, s.c, CardAfterCreation(s).c, look);
    hide Looks;
  }

  lemma DeliverOne(n: nat)
    requires n > 0
    ensures Deliveries(n) == [Delivered] + Deliveries(n - 1)
  {
  }

  lemma StillSilent(e: Sys, m: nat, elem: Elem, rest: seq<Outcome>)
    requires e.c.messageId == Some(m) && Live(e.w, Some(m)) && Silent(e)
    ensures var w := TakenOp(e.w.(faults := [Delivered] + rest), m, Append(Some(elem)), rest);
            Live(w, Some(m)) && IsSilent(w.messages[m].card) && w.unread == e.w.unread && w.faults == rest
  {
  }

  lemma {:induction false} GrowsTo(o: Options, t: Trace, k: nat)
    requires IsTrace(o, NewSys(Faults()), t) && t.calls == Calls() && k <= 19
    ensures Growing(o, k, t.states[k])
  {
    hide Perform, Growing, Faults, Fresh;
    CallsAreFresh();
    if k == 0 {
      StartsGrowing(o);
    } else {
      GrowsTo(o, t, k - 1);
      assert StepAt(o, t, k - 1);
      GrowsByOne(o, k - 1, t.states[k - 1]);
    }
  }

  lemma GrowingIsOpen(o: Options, k: nat, s: Sys)
    requires Growing(o, k, s)
    ensures !s.c.isSealed
  {
  }

  lemma StartsGrowing(o: Options)
    ensures Growing(o, 0, NewSys(Faults()))
  {
    assert Ids(NewSys(Faults()).c.mirror) == [] && !AppendsBefore(Calls(), 0);
  }

  // ------------------------------------------------------------ the last three

  /**
   * Whatever the options: the finish throws although the card was counted, the
   * twentieth text splits that card, and the second finish counts the next one.
   */
  lemma TwoUnreadInOneRound(o: Options, t: Trace)
    requires IsTrace(o, NewSys(Faults()), t) && t.calls == Calls()
    ensures !t.oks[19] && t.oks[20] && t.oks[21]
    ensures t.states[20].w.unread == 1 && t.states[22].w.unread == 2
    ensures OneRound(o, t)
  {
    hide Faults, Fresh, Growing, AfterRing, OneRound, StepAt;
    CallsAreFresh();
    GrowsTo(o, t, 19);
    FirstFinish(o, t);
    LastTwo(o, t);
    RoundIsOne(o, t);
    RungOnceUnread(o, t.states[20]);
  }

  ghost predicate AfterRing(o: Options, s: Sys) {
    && Ready(s) && s.c.messageId.Some? && Looks(o, Calls(), 20, s.c, Ringing(LookAt(19))) && Rung(s) && s.w.unread == 1
    && s.c.pending == map[] && |s.c.mirror| == 20 && s.w.faults == [] && s.c.cardIds != map[]
  }

  lemma FirstFinish(o: Options, t: Trace)
    requires IsTrace(o, NewSys(Faults()), t) && t.calls == Calls() && Growing(o, 19, t.states[19])
    ensures !t.oks[19] && AfterRing(o, t.states[20])
  {
    assert StepAt(o, t, 19);
    hide IsTrace, Perform, Faults, AfterRing, Growing;
    RungOnce(o, t.states[19]);
  }

  lemma RingOutcomes()
    ensures Deliveries(2) + [Unacked] == UNACKED_RING + []
  {
  }

  lemma SilentCard(s: Sys)
    requires Ready(s) && Silent(s) && s.c.messageId.Some?
    ensures Live(s.w, s.c.messageId) && IsSilent(s.w.messages[s.c.messageId.value].card)
  {
  }

  lemma RungOnce(o: Options, s: Sys)
    requires Growing(o, 19, s)
    ensures var r := Perform(o, s, STOP); !r.ok && AfterRing(o, r.s)
  {
    var m := s.c.messageId.value;
    hide Deliveries, Calls, Looks, LookAt, Perform, RungWorld, Footed, FinishFull, Silent;
    RingOutcomes();
    SilentCard(s);
    OpenFinish(o, s, STOP);
    RingFull(o, s, m, map[], []);
    FootedSize(s.c, map[]);
    var elem := Footed(s.c, map[]).mirror[|s.c.mirror|];
    RungShape(s.w, m, elem, []);
    CardMostReached.FootedLooks(o, Calls(), 19, s.c, s.c, LookAt(19));
    CardMostBound.LooksAfter(o, Calls(), 20, Footed(s.c, map[]), Perform(o, s, STOP).s.c, Ringing(LookAt(19)));
  }

  lemma OpenFinish(o: Options, s: Sys, call: Call)
    requires !s.c.isSealed && s.c.messageId.Some? && Finishes(call) && s.c.cardIds != map[]
    ensures Perform(o, s, call) == FinishFull(o, s, FooterOf(call))
  {
    hide FinishFull;
  }

  lemma FootedSize(c: Client, footer: Data)
    ensures var f := Footed(c, footer);
            && |f.mirror| == |c.mirror| + 1 && f.messageId == c.messageId && f.cardIds == c.cardIds && f.idSeq == c.idSeq
            && f.pending == c.pending && f.isSealed == c.isSealed && f.inflight == c.inflight
  {
  }

  lemma RungOnceUnread(o: Options, s: Sys)
    requires AfterRing(o, s)
    ensures s.w.unread == 1
  {
  }

  ghost predicate AfterSplit(s: Sys) {
    && !s.c.isSealed && s.c.messageId.Some? && Live(s.w, s.c.messageId) && IsSilent(s.w.messages[s.c.messageId.value].card)
    && s.w.faults == [] && s.w.unread == 1 && s.c.cardIds != map[]
  }

  lemma LastTwo(o: Options, t: Trace)
    requires IsTrace(o, NewSys(Faults()), t) && t.calls == Calls() && AfterRing(o, t.states[20]) && Fresh(Calls())
    ensures t.oks[20] && t.oks[21] && AfterSplit(t.states[21]) && t.states[22].w.unread == 2
  {
    assert StepAt(o, t, 20);
    assert StepAt(o, t, 21);
    hide FinishFull, Perform, Faults, Fresh, AfterRing, IsTrace;
    SplitOff(o, t.states[20]);
    OpenFinish(o, t.states[21], STOP);
    CardSplit.FinishEffect(o, t.states[21], t.states[21].c.messageId.value, map[]);
  }

  lemma LastIsNew(o: Options, s: Sys)
    requires AfterRing(o, s) && Fresh(Calls())
    ensures !HasId(s.c.mirror, NewElem(s.c, "markdown", map[]).id)
  {
    TextIsNoFooter();
    LastId();
    LooksTell(o, Calls(), 20, s.c, Ringing(LookAt(19)));
    AppendId(Calls(), 20, s.c);
    hide Looks, LookAt, Fresh, NewElem, Calls, HasId, IdAt;
  }

  lemma SplitOff(o: Options, s: Sys)
    requires AfterRing(o, s) && Fresh(Calls())
    ensures var r := Perform(o, s, TEXT); r.ok && AfterSplit(r.s)
  {
    LastIsNew(o, s);
    hide Looks, LookAt, Fresh, AppendJob, NewElem, CardSplit.LeftBehind, Perform, Calls, HasId, ExplicitId, IdAt;
    var elem := NewElem(s.c, "markdown", map[]);
    var s1 := s.(c := TakeId(s.c, map[]));
    var segment := if s.c.segmentIndex == 0 then "first" else "middle";
    OpenAppend(o, s, "markdown", map[]);
    CardSplit.SplitEffect(o, s1, elem, s.c.messageId.value);
    CardSplit.LeftBehindShape(s.w, s.c.messageId.value, segment);
    assert elem.id in Perform(o, s, TEXT).s.c.cardIds;
  }

  lemma RoundIsOne(o: Options, t: Trace)
    requires IsTrace(o, NewSys(Faults()), t) && t.calls == Calls()
    requires AfterRing(o, t.states[20]) && AfterSplit(t.states[21])
    ensures OneRound(o, t)
  {
    TextIsNoFooter();
    NewIsSound(Faults());
    hide Perform, Sound, NoFooterId, Faults, Growing, Looks;
    forall i | 0 < i < 22 ensures !t.states[i].c.isSealed {
      if i <= 19 {
        GrowsTo(o, t, i);
        GrowingIsOpen(o, i, t.states[i]);
      }
    }
  }
}
