// The shape of a fault-free round: n fresh elements make ceil(n / 20) cards
// holding them in order, marked first / middle / last, and a finish closes the
// last one only.

module CardSplit {
  import opened Prelude
  import opened CardContent
  import opened ElementIds
  import opened Wire
  import opened CardSpec
  import opened CardFaults
  import opened CardFaultFree

  // ------------------------------------------------------ reference shape

  function CardCount(n: nat): nat {
    (n + MAX_ELEMENTS - 1) / MAX_ELEMENTS
  }

  function Chunk(es: seq<Elem>, j: nat): seq<Elem>
    requires MAX_ELEMENTS * j <= |es|
  {
    if MAX_ELEMENTS * (j + 1) <= |es| then es[MAX_ELEMENTS * j..MAX_ELEMENTS * (j + 1)] else es[MAX_ELEMENTS * j..]
  }

  /** The mark of card j of k. */
  function Mark(j: nat, k: nat): Option<string> {
    if k == 1 then None
    else if j == 0 then Some("first")
    else if j + 1 < k then Some("middle")
    else Some("last")
  }

  /** Card j of an open round that has taken es: every card but the last is done, none is loud. */
  function OpenCard(es: seq<Elem>, j: nat): Card
    requires j < CardCount(|es|)
  {
    var k := CardCount(|es|);
    Card(Chunk(es, j), if j + 1 < k then "done" else "generating", Mark(j, k), Some(true))
  }

  /** The same card once the round is finished: only the last one gets the footer and is turned loud. */
  function FinishedCard(es: seq<Elem>, j: nat, footer: Elem): Card
    requires j < CardCount(|es|)
  {
    if j + 1 < CardCount(|es|) then OpenCard(es, j)
    else OpenCard(es, j).(elements := Chunk(es, j) + [footer], state := "done", silent := Some(false))
  }

  /** The cards together hold es, in order. */
  function Joined(es: seq<Elem>, j: nat): seq<Elem>
    requires j <= CardCount(|es|)
  {
    if j == 0 then [] else Joined(es, j - 1) + Chunk(es, j - 1)
  }

  lemma {:induction false} JoinedIsPrefix(es: seq<Elem>, j: nat)
    requires j <= CardCount(|es|)
    ensures Joined(es, j) == if MAX_ELEMENTS * j <= |es| then es[..MAX_ELEMENTS * j] else es
  {
    if j > 0 {
      JoinedIsPrefix(es, j - 1);
    }
  }

  /** Nothing is lost, repeated or moved by the split, and every card but the last is full. */
  lemma ChunksCoverElements(es: seq<Elem>)
    ensures Joined(es, CardCount(|es|)) == es
    ensures forall j: nat :: j + 1 < CardCount(|es|) ==> |OpenCard(es, j).elements| == 20
    ensures es != [] ==> 1 <= |OpenCard(es, CardCount(|es|) - 1).elements| <= 20
  {
    JoinedIsPrefix(es, CardCount(|es|));
  }

  // ------------------------------------------------------- the round's input

  datatype AppendRequest = AppendRequest(kind: string, data: Data)

  function Generated(reqs: seq<AppendRequest>): nat {
    if reqs == [] then 0
    else Generated(reqs[..|reqs| - 1]) + if ExplicitId(reqs[|reqs| - 1].data).Some? then 0 else 1
  }

  /** The wire elements of a round that starts with these append calls. */
  function Elements(reqs: seq<AppendRequest>): (es: seq<Elem>)
    ensures |es| == |reqs|
  {
    if reqs == [] then []
    else
      var before, r := reqs[..|reqs| - 1], reqs[|reqs| - 1];
      Elements(before) + [NewElem(NewClient.(idSeq := Generated(before)), r.kind, r.data)]
  }

  function Calls(reqs: seq<AppendRequest>): (calls: seq<Call>)
    ensures |calls| == |reqs|
    ensures forall i :: 0 <= i < |reqs| ==> calls[i] == AppendOf(reqs[i].kind, reqs[i].data)
  {
    seq(|reqs|, i requires 0 <= i < |reqs| => AppendOf(reqs[i].kind, reqs[i].data))
  }

  // ------------------------------------------------------------ the store

  /** From base on, the store holds exactly the cards of an open round that has taken es. */
  ghost predicate Holds(w: World, base: nat, es: seq<Elem>) {
    && |w.messages| == base + CardCount(|es|)
    && (forall j: nat :: j < CardCount(|es|) ==> w.messages[base + j] == Message(OpenCard(es, j), false))
  }

  /** The card object in the middle of such a round. */
  ghost predicate Midway(start: World, s: Sys, es: seq<Elem>, used: nat) {
    var k := CardCount(|es|);
    var base := |start.messages|;
    && es != []
    && s.w.faults == [] && !s.c.isSealed && s.c.pending == map[]
    && s.c.messageId == Some(base + k - 1)
    && s.c.mirror == Chunk(es, k - 1)
    && s.c.segmentIndex == k - 1 && s.c.footerSeq == 0
    && s.c.idSeq == used
    && s.w.unread == start.unread
    && s.c.cardIds != map[]
    && Holds(s.w, base, es)
  }

  lemma FitsEffect(o: Options, s: Sys, elem: Elem, m: nat)
    requires s.w.faults == [] && s.c.messageId == Some(m) && Live(s.w, Some(m))
    requires !HasId(s.c.mirror, elem.id) && elem.id !in s.c.pending && |s.c.mirror| < MAX_ELEMENTS
    ensures var r := AppendJob(o, s, elem);
            var card := s.w.messages[m].card;
            && r.s.c == s.c.(mirror := s.c.mirror + [elem], cardIds := s.c.cardIds[elem.id := m], failures := 0)
            && r.s.w == Taken(s.w, m, Delta(Append(Some(elem))), card.(elements := card.elements + [elem]))
  {
    hide TryPatch;
    TryPatchTaken(o, s.(c := Shadow(s.c, elem, false, m)), m, Append(Some(elem)));
  }

  /** The store after card m was left as an intermediate card. */
  function LeftBehind(w: World, m: nat, segment: string): World
    requires m < |w.messages|
  {
    var card := w.messages[m].card;
    var done := Taken(w, m, Delta(SetState("done")), card.(state := "done"));
    Taken(done, m, Delta(SetSegment(segment)), card.(state := "done", segment := Some(segment)))
  }

  lemma MakeRoomEffect(o: Options, s: Sys, m: nat)
    requires s.w.faults == [] && s.c.messageId == Some(m) && Live(s.w, Some(m))
    requires |s.c.mirror| >= MAX_ELEMENTS
    ensures var segment := if s.c.segmentIndex == 0 then "first" else "middle";
            MakeRoom(o, s, false) ==
            Run(Sys(s.c.(messageId := None, inflight := NoFlight, mirror := [], segment := None, state := "done", failures := 0,
                         segmentIndex := s.c.segmentIndex + 1),
                    LeftBehind(s.w, m, segment)), true)
  {
    hide TryPatch;
    var segment := if s.c.segmentIndex == 0 then "first" else "middle";
    var s0 := s.(c := s.c.(segment := Some(segment), state := "done"));
    TryPatchTaken(o, s0, m, SetState("done"));
    TryPatchTaken(o, TryPatch(o, s0, SetState("done")).s, m, SetSegment(segment));
  }

  lemma SplitEffect(o: Options, s: Sys, elem: Elem, m: nat)
    requires s.w.faults == [] && s.c.messageId == Some(m) && Live(s.w, Some(m)) && !s.c.isSealed
    requires !HasId(s.c.mirror, elem.id) && elem.id !in s.c.pending && |s.c.mirror| >= MAX_ELEMENTS
    ensures var r := AppendJob(o, s, elem);
            var segment := if s.c.segmentIndex == 0 then "first" else "middle";
            var n := |s.w.messages|;
            && r.ok
            && r.s.c == s.c.(messageId := Some(n), inflight := NoFlight, mirror := [elem], segment := Some("last"),
                             state := "generating", segmentIndex := s.c.segmentIndex + 1,
                             cardIds := s.c.cardIds[elem.id := n], failures := 0)
            && r.s.w.faults == [] && r.s.w.unread == s.w.unread
            && r.s.w.messages == LeftBehind(s.w, m, segment).messages
                                 + [Message(Card([elem], "generating", Some("last"), Some(true)), false)]
  {
    hide TryPatch, MakeRoom, LeftBehind;
    MakeRoomEffect(o, s, m);
    var segment := if s.c.segmentIndex == 0 then "first" else "middle";
    LeftBehindShape(s.w, m, segment);
    var room := MakeRoom(o, s, false).s;
    var carded := CreateCard(room).s;
    var n := |s.w.messages|;
    TryPatchTaken(o, carded.(c := Shadow(carded.c, elem, false, n)), n, Append(Some(elem)));
    assert [] + [elem] == [elem];
  }

  lemma LeftBehindShape(w: World, m: nat, segment: string)
    requires m < |w.messages|
    ensures var w' := LeftBehind(w, m, segment);
            w'.faults == w.faults && w'.unread == w.unread && |w'.messages| == |w.messages|
            && w'.messages == w.messages[m := w.messages[m].(card := w.messages[m].card.(state := "done", segment := Some(segment)))]
  {
  }

  // ----------------------------------------------------------- the induction

  lemma CountStep(n: nat)
    ensures n > 0 && n % MAX_ELEMENTS != 0 ==> CardCount(n + 1) == CardCount(n)
    ensures n > 0 && n % MAX_ELEMENTS == 0 ==> CardCount(n + 1) == CardCount(n) + 1
    ensures n > 0 ==> CardCount(n) >= 1
    ensures n > 0 ==> n - MAX_ELEMENTS * (CardCount(n) - 1) == if n % MAX_ELEMENTS == 0 then MAX_ELEMENTS else n % MAX_ELEMENTS
  {
  }

  lemma ChunkStep(es: seq<Elem>, e: Elem, j: nat)
    requires j < CardCount(|es|)
    ensures MAX_ELEMENTS * j <= |es|
    ensures j == CardCount(|es|) - 1 && |es| % MAX_ELEMENTS != 0 ==> |Chunk(es, j)| < MAX_ELEMENTS
    ensures Chunk(es + [e], j) ==
            if j == CardCount(|es|) - 1 && |es| % MAX_ELEMENTS != 0 then Chunk(es, j) + [e] else Chunk(es, j)
  {
    CountStep(|es|);
  }

  /** The next element goes to the last card while it has room, and opens a new card when it is full. */
  lemma NextElement(o: Options, start: World, s: Sys, es: seq<Elem>, used: nat, elem: Elem)
    requires Midway(start, s, es, used) && !HasId(s.c.mirror, elem.id)
    ensures Midway(start, AppendJob(o, s, elem).s, es + [elem], used)
  {
    hide AppendJob;
    CountStep(|es|);
    if |es| % MAX_ELEMENTS != 0 {
      ElementFits(o, start, s, es, used, elem);
    } else {
      ElementSplits(o, start, s, es, used, elem);
    }
  }

  lemma ElementFits(o: Options, start: World, s: Sys, es: seq<Elem>, used: nat, elem: Elem)
    requires Midway(start, s, es, used) && !HasId(s.c.mirror, elem.id)
    requires |es| % MAX_ELEMENTS != 0
    ensures Midway(start, AppendJob(o, s, elem).s, es + [elem], used)
  {
    hide AppendJob, CardCount, Chunk, Mark, HasId;
    var k, base := CardCount(|es|), |start.messages|;
    CountStep(|es|);
    ChunkStep(es, elem, k - 1);
    assert s.w.messages[base + (k - 1)] == Message(OpenCard(es, k - 1), false);
    FitsEffect(o, s, elem, base + k - 1);
    FitsHolds(s.w, AppendJob(o, s, elem).s.w, base, es, elem);
    hide Holds, OpenCard;
  }

  lemma ElementSplits(o: Options, start: World, s: Sys, es: seq<Elem>, used: nat, elem: Elem)
    requires Midway(start, s, es, used) && !HasId(s.c.mirror, elem.id)
    requires |es| % MAX_ELEMENTS == 0
    ensures Midway(start, AppendJob(o, s, elem).s, es + [elem], used)
  {
    hide AppendJob, LeftBehind;
    var k, base := CardCount(|es|), |start.messages|;
    CountStep(|es|);
    LastChunk(es, elem);
    assert s.w.messages[base + (k - 1)] == Message(OpenCard(es, k - 1), false);
    SplitEffect(o, s, elem, base + k - 1);
    LeftBehindShape(s.w, base + k - 1, if s.c.segmentIndex == 0 then "first" else "middle");
    hide CardCount, Chunk;
    SplitHolds(s.w, AppendJob(o, s, elem).s.w, base, es, elem);
  }

  lemma LastChunk(es: seq<Elem>, elem: Elem)
    requires es != [] && |es| % MAX_ELEMENTS == 0
    ensures |Chunk(es, CardCount(|es|) - 1)| == MAX_ELEMENTS
    ensures Chunk(es + [elem], CardCount(|es|)) == [elem]
  {
    CountStep(|es|);
  }

  lemma FitsHolds(w: World, w': World, base: nat, es: seq<Elem>, elem: Elem)
    requires Holds(w, base, es) && es != [] && |es| % MAX_ELEMENTS != 0
    requires var m := base + CardCount(|es|) - 1;
             m < |w.messages| &&
             w'.messages == w.messages[m := w.messages[m].(card := w.messages[m].card.(elements := w.messages[m].card.elements + [elem]))]
    ensures Holds(w', base, es + [elem])
  {
    CountStep(|es|);
    forall j: nat | j < CardCount(|es|) ensures w'.messages[base + j] == Message(OpenCard(es + [elem], j), false) {
      ChunkStep(es, elem, j);
      assert w.messages[base + j] == Message(OpenCard(es, j), false);
      assert Mark(j, CardCount(|es + [elem]|)) == Mark(j, CardCount(|es|));
    }
  }

  lemma SplitHolds(w: World, w': World, base: nat, es: seq<Elem>, elem: Elem)
    requires Holds(w, base, es) && es != [] && |es| % MAX_ELEMENTS == 0
    requires var m := base + CardCount(|es|) - 1;
             var segment := if CardCount(|es|) == 1 then "first" else "middle";
             m < |w.messages| &&
             w'.messages == w.messages[m := w.messages[m].(card := w.messages[m].card.(state := "done", segment := Some(segment)))]
                            + [Message(Card([elem], "generating", Some("last"), Some(true)), false)]
    ensures Holds(w', base, es + [elem])
  {
    var k := CardCount(|es|);
    CountStep(|es|);
    forall j: nat | j < k + 1 ensures w'.messages[base + j] == Message(OpenCard(es + [elem], j), false) {
      if j < k {
        ChunkStep(es, elem, j);
        assert w.messages[base + j] == Message(OpenCard(es, j), false);
      } else {
        assert Chunk(es + [elem], k) == [elem];
      }
    }
  }

  lemma FirstElement(o: Options, s: Sys, kind: string, data: Data)
    requires s.w.faults == [] && (s.c.isSealed || s.c == NewClient)
    ensures var elem := NewElem(NewClient, kind, data);
            Midway(s.w, AppendCall(o, s, kind, data).s, [elem], Generated([AppendRequest(kind, data)]))
  {
    hide AppendJob, ElementId, HasId, ExplicitId;
    var elem := NewElem(NewClient, kind, data);
    var base := |s.w.messages|;
    var ensured := EnsureCard(s).s;
    assert !HasId([], elem.id) by { HasIdIffInIds([], elem.id); }
    FitsEffect(o, ensured.(c := TakeId(ensured.c, data)), elem, base);
    assert [AppendRequest(kind, data)][..0] == [];
    assert CardCount(1) == 1;
    assert Chunk([elem], 0) == [elem];
    assert [] + [elem] == [elem];
  }

  /** Calling append on an open card goes straight to the queued job. */
  lemma OpenAppend(o: Options, s: Sys, kind: string, data: Data)
    requires !s.c.isSealed && s.c.messageId.Some?
    ensures AppendCall(o, s, kind, data) == AppendJob(o, s.(c := TakeId(s.c, data)), NewElem(s.c, kind, data))
  {
  }

  lemma ChunkFresh(es: seq<Elem>, e: Elem)
    requires es != [] && Distinct(Ids(es + [e]))
    ensures MAX_ELEMENTS * (CardCount(|es|) - 1) <= |es|
    ensures !HasId(Chunk(es, CardCount(|es|) - 1), e.id)
  {
    var k, all := CardCount(|es|), es + [e];
    CountStep(|es|);
    var chunk := Chunk(es, k - 1);
    forall i | 0 <= i < |chunk| ensures chunk[i].id != e.id {
      assert chunk[i] == all[MAX_ELEMENTS * (k - 1) + i];
      assert Ids(all)[MAX_ELEMENTS * (k - 1) + i] != Ids(all)[|es|];
    }
  }

  /** After any number of fresh appends the store is as the reference shape says. */
  lemma {:induction false} OpenRoundShape(o: Options, s: Sys, reqs: seq<AppendRequest>)
    requires s.w.faults == [] && (s.c.isSealed || s.c == NewClient)
    requires reqs != [] && Distinct(Ids(Elements(reqs)))
    ensures Midway(s.w, RunAll(o, s, Calls(reqs)), Elements(reqs), Generated(reqs))
  {
    hide AppendCall, AppendJob, NewElem;
    var n := |reqs| - 1;
    var before, req := reqs[..n], reqs[n];
    assert Calls(reqs)[..n] == Calls(before);
    var r := RunAll(o, s, Calls(before));
    assert RunAll(o, s, Calls(reqs)) == AppendCall(o, r, req.kind, req.data).s;
    if n == 0 {
      assert reqs == [req];
      FirstElement(o, s, req.kind, req.data);
      FirstGenerated();
    } else {
      var es, elem := Elements(before), Elements(reqs)[n];
      assert Elements(reqs) == es + [elem];
      IdsConcat(es, [elem]);
      assert Distinct(Ids(es)) by {
        assert forall i :: 0 <= i < |es| ==> Ids(es)[i] == Ids(Elements(reqs))[i];
      }
      OpenRoundShape(o, s, before);
      OpenAppend(o, r, req.kind, req.data);
      ChunkFresh(es, elem);
      SameElem(r.c, NewClient.(idSeq := Generated(before)), req.kind, req.data);
      MidwayTakesId(s.w, r, es, Generated(before), req.data);
      NextElement(o, s.w, r.(c := TakeId(r.c, req.data)), es, Generated(reqs), elem);
    }
  }

  lemma FirstGenerated()
    ensures Generated([]) == 0 && NewClient.(idSeq := 0) == NewClient
  {
  }

  lemma SameElem(c: Client, d: Client, kind: string, data: Data)
    requires c.idSeq == d.idSeq
    ensures NewElem(c, kind, data) == NewElem(d, kind, data)
  {
  }

  lemma MidwayTakesId(start: World, s: Sys, es: seq<Elem>, used: nat, data: Data)
    requires Midway(start, s, es, used)
    ensures Midway(start, s.(c := TakeId(s.c, data)), es, used + if ExplicitId(data).Some? then 0 else 1)
  {
  }

  // ---------------------------------------------------------- main result

  /**
   * A fault-free round of n >= 1 fresh elements and a finish: ceil(n / 20)
   * cards, their contents concatenating to the appended elements, the footer
   * and the one unread increment on the last card only.
   */
  lemma FinishedRoundShape(o: Options, s: Sys, t: Trace, reqs: seq<AppendRequest>, footer: Data)
    requires s.w.faults == [] && (s.c.isSealed || s.c == NewClient)
    requires reqs != [] && Distinct(Ids(Elements(reqs)))
    requires IsTrace(o, s, t) && t.calls == Calls(reqs) + [FinishOf(footer)]
    ensures var r := t.states[|t.calls|];
            var es := Elements(reqs);
            && r.c.isSealed
            && r.w.unread == s.w.unread + 1
            && |r.w.messages| == |s.w.messages| + CardCount(|es|)
            && forall j: nat :: j < CardCount(|es|) ==>
                 r.w.messages[|s.w.messages| + j] ==
                 Message(FinishedCard(es, j, Elem("footer", FooterId(1), FooterData(footer))), false)
  {
    hide FinishCall, RunAll, Perform, FinishedCard, CardCount, FooterData, Elements;
    TraceIsRun(o, s, t, |reqs|);
    assert t.calls[..|reqs|] == Calls(reqs);
    assert StepAt(o, t, |reqs|);
    PerformFinishIs(o, t.states[|reqs|], footer);
    ClosingShape(o, s, reqs, footer);
  }

  lemma PerformFinishIs(o: Options, s: Sys, footer: Data)
    ensures Perform(o, s, FinishOf(footer)) == FinishCall(o, s, footer)
  {
    hide FinishCall;
  }

  lemma ClosingShape(o: Options, s: Sys, reqs: seq<AppendRequest>, footer: Data)
    requires s.w.faults == [] && (s.c.isSealed || s.c == NewClient)
    requires reqs != [] && Distinct(Ids(Elements(reqs)))
    ensures var r := FinishCall(o, RunAll(o, s, Calls(reqs)), footer).s;
            var es := Elements(reqs);
            && r.c.isSealed
            && r.w.unread == s.w.unread + 1
            && |r.w.messages| == |s.w.messages| + CardCount(|es|)
            && forall j: nat :: j < CardCount(|es|) ==>
                 r.w.messages[|s.w.messages| + j] ==
                 Message(FinishedCard(es, j, Elem("footer", FooterId(1), FooterData(footer))), false)
  {
    hide FinishFull, RunAll, CardCount, Chunk;
    OpenRoundShape(o, s, reqs);
    var mid := RunAll(o, s, Calls(reqs));
    var es := Elements(reqs);
    var base := |s.w.messages|;
    var k := CardCount(|es|);
    var m := base + k - 1;
    assert mid.w.messages[base + (k - 1)] == Message(OpenCard(es, k - 1), false);
    FinishEffect(o, mid, m, footer);
  }

  lemma FinishEffect(o: Options, s: Sys, m: nat, footer: Data)
    requires s.w.faults == [] && s.c.messageId == Some(m) && Live(s.w, Some(m))
    requires IsSilent(s.w.messages[m].card)
    ensures FinishFull(o, s, footer).ok
    ensures var r := FinishFull(o, s, footer).s;
            var elem := Elem("footer", FooterId(s.c.footerSeq + 1), FooterData(footer));
            var card := s.w.messages[m].card;
            && r.c.isSealed
            && r.w.messages == s.w.messages[m := s.w.messages[m].(card := Card(card.elements + [elem], "done", card.segment, Some(false)))]
            && r.w.unread == s.w.unread + 1
  {
    hide TryPatch;
    var k := s.c.footerSeq + 1;
    var elem := Elem("footer", FooterId(k), FooterData(footer));
    var s1 := s.(c := s.c.(footerSeq := k, mirror := s.c.mirror + [elem]));
    TryPatchTaken(o, s1, m, Append(Some(elem)));
    var added := TryPatch(o, s1, Append(Some(elem))).s;
    var s2 := added.(c := added.c.(state := "done"));
    TryPatchTaken(o, s2, m, SetState("done"));
    TryPatchTaken(o, TryPatch(o, s2, SetState("done")).s, m, SetSilent(Some(false)));
  }
}
