// What every run of a card object keeps, whatever the io calls do: the server's
// card holds a duplicate-free subsequence of the shadow, append is requested
// once per shadow element and in shadow order, and the unread count is the
// number of cards that have been turned loud.

module CardFaults {
  import opened Prelude
  import opened CardContent
  import opened ElementIds
  import opened Wire
  import opened CardSpec

  function IdsAt(w: World, m: nat): seq<string>
    requires m < |w.messages|
  {
    Ids(w.messages[m].card.elements)
  }

  /** The ids of the append requests issued to message m, oldest first. */
  function AppendsTo(log: seq<Sent>, m: nat): seq<string> {
    if log == [] then []
    else
      var before, x := AppendsTo(log[..|log| - 1], m), log[|log| - 1];
      if x.target == Some(m) && x.request.Delta? && x.request.op.Append? && x.request.op.element.Some?
      then before + [x.request.op.element.value.id]
      else before
  }

  /** How many messages are no longer silent. */
  function Loud(messages: seq<Message>): nat {
    if messages == [] then 0
    else Loud(messages[..|messages| - 1]) + if IsLoud(messages[|messages| - 1].card) then 1 else 0
  }

  ghost predicate Tidy(w: World) {
    && w.unread == Loud(w.messages)
    && (forall m :: 0 <= m < |w.messages| ==> w.messages[m].card.silent.Some?)
    && (forall m :: 0 <= m < |w.messages| ==> Distinct(IdsAt(w, m)))
    && (forall m: nat :: Distinct(AppendsTo(w.log, m)))
    && (forall m: nat :: m >= |w.messages| ==> AppendsTo(w.log, m) == [])
  }

  ghost predicate FootersBelow(c: Client) {
    forall i, k: nat :: 0 <= i < |c.mirror| && c.mirror[i].id == FooterId(k) ==> k <= c.footerSeq
  }

  ghost predicate Attached(s: Sys) {
    && Distinct(Ids(s.c.mirror))
    && FootersBelow(s.c)
    && match s.c.messageId {
         case None => s.c.mirror == []
         case Some(m) =>
           && m < |s.w.messages|
           && Subsequence(IdsAt(s.w, m), Ids(s.c.mirror))
           && AppendsTo(s.w.log, m) == Ids(s.c.mirror)
       }
  }

  ghost predicate Sound(s: Sys) {
    Tidy(s.w) && Attached(s)
  }

  // -------------------------------------------------------------- counting

  lemma LoudUpdate(ms: seq<Message>, k: nat, x: Message)
    requires k < |ms|
    ensures Loud(ms[k := x]) ==
            Loud(ms) - (if IsLoud(ms[k].card) then 1 else 0) + (if IsLoud(x.card) then 1 else 0)
  {
    var n := |ms| - 1;
    if k < n {
      assert ms[k := x][..n] == ms[..n][k := x];
      LoudUpdate(ms[..n], k, x);
    } else {
      assert ms[k := x][..n] == ms[..n];
    }
  }

  lemma LoudAppend(ms: seq<Message>, x: Message)
    ensures Loud(ms + [x]) == Loud(ms) + if IsLoud(x.card) then 1 else 0
  {
    assert (ms + [x])[..|ms|] == ms;
  }

  lemma AppendsSnoc(log: seq<Sent>, x: Sent, m: nat)
    ensures AppendsTo(log + [x], m) ==
            if x.target == Some(m) && x.request.Delta? && x.request.op.Append? && x.request.op.element.Some?
            then AppendsTo(log, m) + [x.request.op.element.value.id]
            else AppendsTo(log, m)
  {
    assert (log + [x])[..|log|] == log;
  }

  // --------------------------------------------------------------- one call

  /** The requests a card object issues, append aside: they touch no ids and at most turn a card loud. */
  predicate Plain(op: Op) {
    || (op.Update? && op.data.Some?)
    || op.SetState?
    || op.SetSegment?
    || op == SetSilent(Some(false))
  }

  lemma LogPlain(log: seq<Sent>, x: Sent)
    requires x.request.Replace? || (x.request.Delta? && !x.request.op.Append?)
    ensures forall m: nat :: AppendsTo(log + [x], m) == AppendsTo(log, m)
  {
    forall m: nat ensures AppendsTo(log + [x], m) == AppendsTo(log, m) {
      AppendsSnoc(log, x, m);
    }
  }

  /** All a request can do: change the card it is addressed to, as the server interprets it. */
  lemma SendShape(w: World, target: Option<nat>, r: Request) returns (x: Sent)
    ensures var w' := Send(w, target, r).w;
            && w'.log == w.log + [x] && x.target == target && x.request == r
            && |w'.messages| == |w.messages|
            && (forall m :: 0 <= m < |w.messages| && target != Some(m) ==> w'.messages[m] == w.messages[m])
            && ((w'.messages == w.messages && w'.unread == w.unread)
                || (target.Some? && target.value < |w.messages|
                    && var before := w.messages[target.value];
                       var v := ApplyRequest(before.card, r);
                       && v.Accept?
                       && w'.messages == w.messages[target.value := before.(card := v.card)]
                       && w'.unread == w.unread + if Flips(before.card, v.card) then 1 else 0))
  {
    x := Send(w, target, r).w.log[|w.log|];
  }

  lemma SendTally(w: World, target: Option<nat>, r: Request)
    requires w.unread == Loud(w.messages)
    requires forall m :: 0 <= m < |w.messages| ==> w.messages[m].card.silent.Some?
    requires r.Replace? ==> r.card.silent.None?
    requires r.Delta? && r.op.SetSilent? ==> r.op.silent == Some(false)
    ensures var w' := Send(w, target, r).w;
            && w'.unread == Loud(w'.messages)
            && (forall m :: 0 <= m < |w'.messages| ==> w'.messages[m].card.silent.Some?)
  {
    hide Send;
    var _ := SendShape(w, target, r);
    var w' := Send(w, target, r).w;
    if w'.messages != w.messages || w'.unread != w.unread {
      var before := w.messages[target.value];
      var after := ApplyRequest(before.card, r).card;
      assert IsSilent(before.card) || IsLoud(before.card);
      assert after.silent == before.card.silent || IsLoud(after);
      LoudUpdate(w.messages, target.value, before.(card := after));
    }
  }

  lemma SendPlain(w: World, target: Option<nat>, op: Op)
    requires Tidy(w) && Plain(op)
    ensures var w' := Send(w, target, Delta(op)).w;
            && Tidy(w') && |w'.messages| == |w.messages|
            && (forall m: nat :: AppendsTo(w'.log, m) == AppendsTo(w.log, m))
            && (forall m :: 0 <= m < |w.messages| ==> IdsAt(w', m) == IdsAt(w, m))
  {
    hide Send, Tick;
    SendTally(w, target, Delta(op));
    var x := SendShape(w, target, Delta(op));
    LogPlain(w.log, x);
    var w' := Send(w, target, Delta(op)).w;
    forall m | 0 <= m < |w.messages| ensures IdsAt(w', m) == IdsAt(w, m) {
      if target == Some(m) {
        assert ApplyOp(w.messages[m].card, op).Accept? ==>
            Ids(ApplyOp(w.messages[m].card, op).card.elements) == Ids(w.messages[m].card.elements);
      }
    }
  }

  lemma SendReplace(w: World, m: nat, c: Client)
    requires Tidy(w) && m < |w.messages|
    requires Distinct(Ids(c.mirror)) && Subsequence(IdsAt(w, m), Ids(c.mirror))
    ensures var w' := Send(w, Some(m), Replace(ShadowCard(c))).w;
            && Tidy(w') && |w'.messages| == |w.messages|
            && (forall k: nat :: AppendsTo(w'.log, k) == AppendsTo(w.log, k))
            && Subsequence(IdsAt(w', m), Ids(c.mirror))
  {
    hide Send;
    var r := Replace(ShadowCard(c));
    SendTally(w, Some(m), r);
    var x := SendShape(w, Some(m), r);
    LogPlain(w.log, x);
    SubsequenceRefl(Ids(c.mirror));
    var w' := Send(w, Some(m), r).w;
    assert IdsAt(w', m) == IdsAt(w, m) || IdsAt(w', m) == Ids(c.mirror);
    KeepDistinct(w, w', m);
  }

  /** A request changes the ids of one card at most. */
  lemma KeepDistinct(w: World, w': World, m: nat)
    requires |w'.messages| == |w.messages| && m < |w.messages|
    requires forall k :: 0 <= k < |w.messages| ==> Distinct(IdsAt(w, k))
    requires forall k :: 0 <= k < |w.messages| && k != m ==> w'.messages[k] == w.messages[k]
    requires Distinct(IdsAt(w', m))
    ensures forall k :: 0 <= k < |w'.messages| ==> Distinct(IdsAt(w', k))
  {
    forall k | 0 <= k < |w'.messages| ensures Distinct(IdsAt(w', k)) {
      if k != m {
        assert IdsAt(w', k) == IdsAt(w, k);
      }
    }
  }

  lemma SendAppend(w: World, m: nat, e: Elem, before: seq<string>)
    requires Tidy(w) && m < |w.messages|
    requires Distinct(before + [e.id])
    requires Subsequence(IdsAt(w, m), before) && AppendsTo(w.log, m) == before
    ensures var w' := Send(w, Some(m), Delta(Append(Some(e)))).w;
            && Tidy(w') && |w'.messages| == |w.messages|
            && AppendsTo(w'.log, m) == before + [e.id]
            && Subsequence(IdsAt(w', m), before + [e.id])
  {
    hide Send;
    var r := Delta(Append(Some(e)));
    SendTally(w, Some(m), r);
    var x := SendShape(w, Some(m), r);
    var w' := Send(w, Some(m), r).w;
    LogAppend(w.log, x, m, e.id, before + [e.id]);
    IdsConcat(w.messages[m].card.elements, [e]);
    assert Ids([e]) == [e.id];
    assert IdsAt(w', m) == IdsAt(w, m) || IdsAt(w', m) == IdsAt(w, m) + [e.id];
    SubsequenceExtend(IdsAt(w, m), before, e.id);
    SubsequenceDistinct(IdsAt(w', m), before + [e.id]);
    KeepDistinct(w, w', m);
  }

  lemma LogAppend(log: seq<Sent>, x: Sent, m: nat, id: string, after: seq<string>)
    requires x.target == Some(m) && x.request.Delta? && x.request.op.Append?
    requires x.request.op.element.Some? && x.request.op.element.value.id == id
    requires AppendsTo(log, m) + [id] == after && Distinct(after)
    requires forall k: nat :: Distinct(AppendsTo(log, k))
    ensures AppendsTo(log + [x], m) == after
    ensures forall k: nat :: k != m ==> AppendsTo(log + [x], k) == AppendsTo(log, k)
    ensures forall k: nat :: Distinct(AppendsTo(log + [x], k))
  {
    forall k: nat ensures AppendsTo(log + [x], k) == if k == m then after else AppendsTo(log, k) {
      AppendsSnoc(log, x, k);
    }
  }

  // --------------------------------------------------------------- tryPatch

  lemma TryPatchPlain(o: Options, s: Sys, op: Op)
    requires Sound(s) && s.c.messageId.Some? && Plain(op)
    ensures var r := TryPatch(o, s, op);
            Sound(r.s) && r.s.c == s.c.(failures := r.s.c.failures)
  {
    hide Send;
    var m := s.c.messageId.value;
    SendPlain(s.w, Some(m), op);
    var first := Send(s.w, Some(m), Delta(op));
    SendReplace(first.w, m, s.c.(failures := s.c.failures + 1));
    var healed := Send(first.w, Some(m), Replace(ShadowCard(s.c.(failures := s.c.failures + 1))));
    SendPlain(healed.w, Some(m), op);
  }

  /** The one place where append is requested: the shadow has just taken e as its last element. */
  lemma TryPatchAppend(o: Options, s: Sys, e: Elem)
    requires s.c.messageId.Some? && s.c.mirror != [] && s.c.mirror[|s.c.mirror| - 1] == e
    requires Distinct(Ids(s.c.mirror)) && FootersBelow(s.c) && Tidy(s.w)
    requires var m := s.c.messageId.value;
             var before := Ids(s.c.mirror[..|s.c.mirror| - 1]);
             && m < |s.w.messages|
             && Subsequence(IdsAt(s.w, m), before) && AppendsTo(s.w.log, m) == before
    ensures var r := TryPatch(o, s, Append(Some(e)));
            Sound(r.s) && r.s.c == s.c.(failures := r.s.c.failures)
  {
    hide Send, Tidy, Subsequence;
    var m := s.c.messageId.value;
    var before := Ids(s.c.mirror[..|s.c.mirror| - 1]);
    assert Ids(s.c.mirror) == before + [e.id];
    SendAppend(s.w, m, e, before);
    var first := Send(s.w, Some(m), Delta(Append(Some(e))));
    var c := s.c.(failures := s.c.failures + 1);
    assert Sound(Sys(c, first.w));
    SendReplace(first.w, m, c);
    var healed := Send(first.w, Some(m), Replace(ShadowCard(c)));
    assert Sound(Sys(c, healed.w));
    SendPlain(healed.w, Some(m), Update(e.id, Some(e.data)));
  }

  // ------------------------------------------------------------- every step

  lemma CreateCardSound(s: Sys)
    requires Sound(s) && s.c.messageId.None?
    ensures Sound(CreateCard(s).s)
    ensures CreateCard(s).s.c.mirror == s.c.mirror && CreateCard(s).s.c.footerSeq == s.c.footerSeq
    ensures CreateCard(s).ok ==> CreateCard(s).s.c.messageId.Some?
  {
    var segment := if s.c.segmentIndex > 0 then Some("last") else None;
    LoudAppend(s.w.messages, Message(EmptyCard(segment), false));
    var w' := SendCard(s.w, segment).w;
    var n := |s.w.messages|;
    forall m | 0 <= m < |w'.messages| ensures Distinct(IdsAt(w', m)) {
      if m < n { assert IdsAt(w', m) == IdsAt(s.w, m); }
    }
    if CreateCard(s).ok {
      assert IdsAt(w', n) == [];
      assert Embeds([], [], Ids(s.c.mirror));
      assert Ids(s.c.mirror) == [];
    }
  }

  lemma EnsureCardSound(s: Sys)
    requires Sound(s)
    ensures Sound(EnsureCard(s).s)
  {
    hide CreateCard;
    var c := if s.c.isSealed then ResetRound(s.c) else s.c;
    assert Ids([]) == [];
    assert Sound(s.(c := c));
    if c.messageId.None? && c.inflight == NoFlight {
      CreateCardSound(s.(c := c));
    }
  }

  lemma MakeRoomSound(o: Options, s: Sys, existed: bool)
    requires Sound(s)
    ensures Sound(MakeRoom(o, s, existed).s)
    ensures !MakeRoom(o, s, existed).ok ==> MakeRoom(o, s, existed).s.c.mirror == s.c.mirror
    ensures MakeRoom(o, s, existed).s.c.mirror == s.c.mirror || MakeRoom(o, s, existed).s.c.mirror == []
    ensures existed ==> MakeRoom(o, s, existed).s == s
  {
    hide TryPatch;
    if !existed && |s.c.mirror| >= MAX_ELEMENTS {
      var segment := if s.c.segmentIndex == 0 then "first" else "middle";
      var s0 := s.(c := s.c.(segment := Some(segment), state := "done"));
      TryPatchPlain(o, s0, SetState("done"));
      var done := TryPatch(o, s0, SetState("done"));
      if done.ok {
        TryPatchPlain(o, done.s, SetSegment(segment));
      }
      assert Ids([]) == [];
    }
  }

  lemma EnterCardSound(o: Options, s: Sys, existed: bool)
    requires Sound(s)
    ensures Sound(EnterCard(o, s, existed).s)
    ensures var r := EnterCard(o, s, existed);
            && (r.s.c.mirror == s.c.mirror || r.s.c.mirror == [])
            && (existed ==> r.s.c.mirror == s.c.mirror)
            && (r.ok ==> r.s.c.messageId.Some?)
  {
    hide MakeRoom, CreateCard;
    MakeRoomSound(o, s, existed);
    var room := MakeRoom(o, s, existed);
    if room.ok && room.s.c.messageId.None? {
      CreateCardSound(room.s);
    }
  }

  lemma FlushPendingSound(o: Options, s: Sys, elem: Elem)
    requires Sound(s) && s.c.messageId.Some?
    ensures Sound(FlushPending(o, s, elem).s)
  {
    hide TryPatch;
    if elem.id in s.c.pending {
      var merged := elem.data + s.c.pending[elem.id];
      var c := s.c.(pending := s.c.pending - {elem.id}, mirror := MirrorData(s.c.mirror, elem.id, merged));
      assert Ids(c.mirror) == Ids(s.c.mirror);
      TryPatchPlain(o, s.(c := c), Update(elem.id, Some(merged)));
    }
  }

  lemma AppendJobSound(o: Options, s: Sys, elem: Elem)
    requires Sound(s) && !IsFooterId(elem.id)
    ensures Sound(AppendJob(o, s, elem).s)
  {
    hide TryPatch, EnterCard, FlushPending, Send;
    var existed := HasId(s.c.mirror, elem.id);
    EnterCardSound(o, s, existed);
    var carded := EnterCard(o, s, existed);
    if carded.ok {
      var s1 := carded.s.(c := Shadow(carded.s.c, elem, existed, carded.s.c.messageId.value));
      if existed {
        assert Ids(s1.c.mirror) == Ids(carded.s.c.mirror);
        TryPatchPlain(o, s1, Update(elem.id, Some(elem.data)));
        FlushPendingSound(o, TryPatch(o, s1, Update(elem.id, Some(elem.data))).s, elem);
      } else {
        ShadowGrows(carded.s.c, elem) by {
          HasIdIffInIds(s.c.mirror, elem.id);
        }
        assert s1.c.mirror[..|s1.c.mirror| - 1] == carded.s.c.mirror;
        TryPatchAppend(o, s1, elem);
        FlushPendingSound(o, TryPatch(o, s1, Append(Some(elem))).s, elem);
      }
    }
  }

  lemma ShadowGrows(c: Client, elem: Elem)
    requires Distinct(Ids(c.mirror)) && FootersBelow(c)
    requires elem.id !in Ids(c.mirror) && !IsFooterId(elem.id)
    ensures Distinct(Ids(c.mirror + [elem])) && FootersBelow(c.(mirror := c.mirror + [elem]))
  {
    IdsConcat(c.mirror, [elem]);
  }

  /** A call whose content id, if it names one, is not of the form footer_k. */
  ghost predicate NoFooterId(call: Call) {
    call.AppendOf? ==>
      && (ExplicitId(call.data).Some? ==> !IsFooterId(ExplicitId(call.data).value))
      && (ExplicitId(call.data).None? ==> forall n: nat :: TypePart(call.kind, n) != "footer")
  }

  lemma AppendCallSound(o: Options, s: Sys, kind: string, data: Data)
    requires Sound(s) && NoFooterId(AppendOf(kind, data))
    ensures Sound(AppendCall(o, s, kind, data).s)
  {
    hide AppendJob, EnsureCard;
    EnsureCardSound(s);
    var ensured := EnsureCard(s);
    if ensured.ok {
      var elem := NewElem(ensured.s.c, kind, data);
      GeneratedFooterIds(kind, ensured.s.c.idSeq + 1);
      AppendJobSound(o, ensured.s.(c := TakeId(ensured.s.c, data)), elem);
    }
  }

  lemma UpdateCallSound(o: Options, s: Sys, id: string, data: Data)
    requires Sound(s)
    ensures Sound(UpdateCall(o, s, id, data).s)
  {
    hide TryPatch, Send;
    if s.c.isSealed {
    } else if HasId(s.c.mirror, id) {
      var merged := s.c.mirror[IndexOf(s.c.mirror, id)].data + data;
      var s1 := s.(c := s.c.(mirror := MirrorData(s.c.mirror, id, merged)));
      assert Ids(s1.c.mirror) == Ids(s.c.mirror);
      TryPatchPlain(o, s1, Update(id, Some(merged)));
    } else if id in s.c.cardIds && Some(s.c.cardIds[id]) != s.c.messageId {
      SendPlain(s.w, Some(s.c.cardIds[id]), Update(id, Some(data)));
    }
  }

  lemma FinishEmptySound(o: Options, s: Sys)
    requires Sound(s) && s.c.messageId.Some?
    ensures Sound(FinishEmpty(o, s).s)
  {
    hide TryPatch, Recall;
    if o.canRecall {
      RecallTidy(s.w, s.c.messageId);
    } else {
      TryPatchPlain(o, s.(c := s.c.(state := "done")), SetState("done"));
    }
  }

  lemma RecallTidy(w: World, target: Option<nat>)
    requires Tidy(w)
    ensures var w' := Recall(w, target).w;
            && Tidy(w') && |w'.messages| == |w.messages| && w'.log == w.log
            && forall m :: 0 <= m < |w.messages| ==> w'.messages[m].card == w.messages[m].card
  {
    if Live(Tick(w), target) {
      LoudUpdate(w.messages, target.value, w.messages[target.value].(recalled := true));
    }
    var w' := Recall(w, target).w;
    forall m | 0 <= m < |w'.messages| ensures Distinct(IdsAt(w', m)) && w'.messages[m].card.silent.Some? {
      assert w'.messages[m].card == w.messages[m].card;
      assert IdsAt(w', m) == IdsAt(w, m);
    }
  }

  lemma FinishFullSound(o: Options, s: Sys, footer: Data)
    requires Sound(s) && s.c.messageId.Some?
    ensures Sound(FinishFull(o, s, footer).s)
  {
    hide TryPatch, FooterData, Tidy, Subsequence, AppendsTo;
    var k := s.c.footerSeq + 1;
    var elem := Elem("footer", FooterId(k), FooterData(footer));
    var c1 := s.c.(footerSeq := k, mirror := s.c.mirror + [elem]);
    FooterGrows(s.c, elem);
    assert c1.mirror[..|c1.mirror| - 1] == s.c.mirror;
    TryPatchAppend(o, s.(c := c1), elem);
    var added := TryPatch(o, s.(c := c1), Append(Some(elem)));
    if added.ok {
      var s2 := added.s.(c := added.s.c.(state := "done"));
      TryPatchPlain(o, s2, SetState("done"));
      var done := TryPatch(o, s2, SetState("done"));
      if done.ok {
        TryPatchPlain(o, done.s, SetSilent(Some(false)));
      }
    }
  }

  lemma FooterGrows(c: Client, elem: Elem)
    requires Distinct(Ids(c.mirror)) && FootersBelow(c) && elem.id == FooterId(c.footerSeq + 1)
    ensures Distinct(Ids(c.mirror + [elem]))
    ensures FootersBelow(c.(footerSeq := c.footerSeq + 1, mirror := c.mirror + [elem]))
  {
    IdsConcat(c.mirror, [elem]);
    var grown := c.mirror + [elem];
    forall i, k: nat | 0 <= i < |grown| && grown[i].id == FooterId(k) ensures k <= c.footerSeq + 1 {
      if i == |c.mirror| {
        FooterIdsDistinct(c.footerSeq + 1, k);
      }
    }
  }

  lemma FinishCallSound(o: Options, s: Sys, footer: Data)
    requires Sound(s)
    ensures Sound(FinishCall(o, s, footer).s)
  {
    hide EnsureCard, FinishEmpty, FinishFull;
    if !s.c.isSealed {
      EnsureCardSound(s);
      var ensured := EnsureCard(s);
      if ensured.ok && ensured.s.c.messageId.Some? {
        if RecallEmptyCard(o, ensured.s.c) {
          FinishEmptySound(o, ensured.s);
        } else {
          FinishFullSound(o, ensured.s, footer);
        }
      }
    }
  }

  lemma PerformSound(o: Options, s: Sys, call: Call)
    requires Sound(s) && NoFooterId(call)
    ensures Sound(Perform(o, s, call).s)
  {
    hide AppendCall, UpdateCall, FinishCall;
    match call
    case AppendOf(kind, data) => AppendCallSound(o, s, kind, data);
    case UpdateOf(id, data) => UpdateCallSound(o, s, id, data);
    case FinishOf(footer) => FinishCallSound(o, s, footer);
    case InterruptOf => FinishCallSound(o, s, INTERRUPT_FOOTER);
  }

  // ---------------------------------------------------------- main results

  ghost predicate NoFooterIds(calls: seq<Call>) {
    forall i :: 0 <= i < |calls| ==> NoFooterId(calls[i])
  }

  /** At every point of every run, under every pattern of failures. */
  lemma {:induction false} RunSound(o: Options, faults: seq<Outcome>, t: Trace, i: nat)
    requires IsTrace(o, NewSys(faults), t) && NoFooterIds(t.calls) && i <= |t.calls|
    ensures Sound(t.states[i])
  {
    hide Perform, Sound, NoFooterId;
    if i == 0 {
      NewIsSound(faults);
    } else {
      RunSound(o, faults, t, i - 1);
      assert StepAt(o, t, i - 1);
      PerformSound(o, t.states[i - 1], t.calls[i - 1]);
    }
  }

  lemma NewIsSound(faults: seq<Outcome>)
    ensures Sound(NewSys(faults))
  {
    assert Ids(NewSys(faults).c.mirror) == [];
  }

  /**
   * The server's current card holds, in shadow order and without repeats, only
   * ids of the shadow; and append was requested exactly once for each of them.
   */
  lemma ServerFollowsShadow(o: Options, faults: seq<Outcome>, t: Trace, i: nat)
    requires IsTrace(o, NewSys(faults), t) && NoFooterIds(t.calls) && i <= |t.calls|
    ensures var s := t.states[i];
            s.c.messageId.Some? ==>
              var m := s.c.messageId.value;
              && m < |s.w.messages|
              && Subsequence(IdsAt(s.w, m), Ids(s.c.mirror))
              && Distinct(IdsAt(s.w, m))
              && AppendsTo(s.w.log, m) == Ids(s.c.mirror)
  {
    RunSound(o, faults, t, i);
  }

  /** No card, current or left behind, is ever asked twice to append one id. */
  lemma AppendRequestedOnce(o: Options, faults: seq<Outcome>, t: Trace, i: nat, m: nat)
    requires IsTrace(o, NewSys(faults), t) && NoFooterIds(t.calls) && i <= |t.calls|
    ensures Distinct(AppendsTo(t.states[i].w.log, m))
  {
    RunSound(o, faults, t, i);
  }

  /** Unread is incremented once for each card that was turned loud, and for nothing else. */
  lemma UnreadCountsLoudCards(o: Options, faults: seq<Outcome>, t: Trace, i: nat)
    requires IsTrace(o, NewSys(faults), t) && NoFooterIds(t.calls) && i <= |t.calls|
    ensures t.states[i].w.unread == Loud(t.states[i].w.messages)
  {
    RunSound(o, faults, t, i);
  }
}
