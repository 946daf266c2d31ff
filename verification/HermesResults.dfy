// What the runs of the plugin promise, in the terms of the store and the
// shadow alone.

module HermesResults {
  import opened Prelude
  import opened CardContent
  import opened Wire
  import opened CardSpec
  import opened HermesSpec
  import opened HermesMirror
  import opened HermesSettle
  import opened HermesFinish
  import opened HermesShadow
  import opened HermesEvents
  import opened HermesRun
  import opened HermesMoves
  import opened HermesDesk

  /** At every point of every run the session's card is in the store, open, and is the shadow: same elements, same order. */
  lemma ServerCardIsShadow(signals: seq<Signal>, desks: seq<Desk>, i: nat)
    requires IsRun(signals, desks) && i <= |signals|
    ensures var d := desks[i];
            Elements(d) != [] ==>
              var h := d.session.value;
              && h.cardMsgId == h.s.c.messageId && Live(d.w, h.cardMsgId)
              && d.w.messages[h.cardMsgId.value].card.elements == Elements(d)
              && d.w.messages[h.cardMsgId.value].card.state == "generating"
              && Distinct(Ids(Elements(d))) && |Elements(d)| <= 20 && |h.s.c.mirror| == |Elements(d)|
  {
    RunOrderly(signals, desks, i);
  }

  /** Every card a split has left behind, at any time, has no unfinished thinking and no running tool. */
  lemma SplitCardsStaySettled(signals: seq<Signal>, desks: seq<Desk>, i: nat, m: nat, e: Elem)
    requires IsRun(signals, desks) && i <= |signals|
    requires m < |desks[i].w.messages| && IsSplitOff(desks[i].w.messages[m].card) && e in desks[i].w.messages[m].card.elements
    ensures !IsOpenReasoning(e) && !IsRunningTool(e)
  {
    RunOrderly(signals, desks, i);
    OrderlySplits(desks[i]);
    assert !Loose(e);
  }

  lemma OrderlySplits(d: Desk)
    requires Orderly(d)
    ensures SplitsSettled(d.w)
  {
  }

  /** The shadow has at most one unfinished thinking block, and it is the last block. */
  lemma OneThoughtAtATime(signals: seq<Signal>, desks: seq<Desk>, i: nat, j: nat, k: nat)
    requires IsRun(signals, desks) && i <= |signals|
    requires j < k < |Elements(desks[i])| && IsReasoning(Elements(desks[i])[j]) && IsReasoning(Elements(desks[i])[k])
    ensures !IsOpenReasoning(Elements(desks[i])[j])
  {
    RunOrderly(signals, desks, i);
    ShadowTidy(desks[i]);
    OneOpenReasoning(Elements(desks[i]), j, k);
  }

  lemma ShadowTidy(d: Desk)
    requires Orderly(d)
    ensures Tidy(Elements(d))
  {
    TidyEmpty();
  }

  /** Neighbouring markdown texts of a card never repeat each other. */
  lemma NeighboursDiffer(signals: seq<Signal>, desks: seq<Desk>, i: nat, k: nat)
    requires IsRun(signals, desks) && i <= |signals|
    requires k + 1 < |Filter(Elements(desks[i]), IsMarkdown)|
    ensures var mds := Filter(Elements(desks[i]), IsMarkdown);
            var s, t := TextOf(mds[k].data), TextOf(mds[k + 1].data);
            !(s <= t) && !(t <= s)
  {
    RunOrderly(signals, desks, i);
    ShadowTidy(desks[i]);
  }

  // ------------------------------------------------------- markdown snapshots

  /** sessions[i + 1] is what text i makes of sessions[i]. */
  ghost predicate UpdateStep(texts: seq<string>, sessions: seq<Session>, i: nat)
    requires i < |texts| && |sessions| == |texts| + 1
  {
    sessions[i + 1] == AppendOrMergeMarkdown(sessions[i], texts[i])
  }

  ghost predicate Streams(texts: seq<string>, sessions: seq<Session>) {
    |sessions| == |texts| + 1 && forall i: nat :: i < |texts| ==> UpdateStep(texts, sessions, i)
  }

  /** The longest of the snapshots seen so far. */
  function Longest(text: string, texts: seq<string>): (r: string)
    ensures |r| >= |text| && forall t <- texts :: |Strip(t)| <= |r|
    ensures r == text || exists t <- texts :: r == Strip(t)
  {
    if texts == [] then text
    else
      var r := Longest(text, texts[..|texts| - 1]);
      var s := Strip(texts[|texts| - 1]);
      if |s| > |r| then s else r
  }

  /** Snapshots of one text, in whatever order they arrive, are one element holding the longest so far. */
  lemma {:induction false} SnapshotsCollapse(texts: seq<string>, sessions: seq<Session>, k: nat, full: string, i: nat)
    requires Streams(texts, sessions) && i <= |texts|
    requires var es := sessions[0].elements;
             && Proper(sessions[0]) && k < |es| && IsMarkdown(es[k]) && TextOf(es[k].data) <= full
             && forall j :: k < j < |es| ==> !IsMarkdown(es[j])
    requires forall t <- texts :: Strip(t) <= full
    ensures var es := sessions[0].elements;
            var longest := Longest(TextOf(es[k].data), texts[..i]);
            && Proper(sessions[i]) && longest <= full
            && sessions[i].elements == es[k := es[k].(data := MarkdownData(longest))]
  {
    hide AppendOrMergeMarkdown, Proper, Strip;
    var h := sessions[0];
    if i == 0 {
      StoredAsIs(h, k);
    } else {
      SnapshotsCollapse(texts, sessions, k, full, i - 1);
      assert UpdateStep(texts, sessions, i - 1);
      assert texts[..i][..i - 1] == texts[..i - 1];
      TextOfMarkdown(Longest(TextOf(h.elements[k].data), texts[..i - 1]));
      assert texts[i - 1] in texts;
      OneSnapshot(sessions[i - 1], k, full, texts[i - 1]);
    }
  }

  lemma StoredAsIs(h: Session, k: nat)
    requires Proper(h) && k < |h.elements| && IsMarkdown(h.elements[k])
    ensures h.elements[k].data == MarkdownData(TextOf(h.elements[k].data))
  {
    assert WellFormed(h.elements[k]);
  }

  lemma OneSnapshot(h: Session, k: nat, full: string, raw: string)
    requires Proper(h) && k < |h.elements| && IsMarkdown(h.elements[k])
    requires forall j :: k < j < |h.elements| ==> !IsMarkdown(h.elements[j])
    requires TextOf(h.elements[k].data) <= full && Strip(raw) <= full
    ensures var text := TextOf(h.elements[k].data);
            var longer := if |Strip(raw)| > |text| then Strip(raw) else text;
            var h' := AppendOrMergeMarkdown(h, raw);
            Proper(h') && h'.elements == h.elements[k := h.elements[k].(data := MarkdownData(longer))]
  {
    StoredAsIs(h, k);
    hide AppendOrMergeMarkdown, Strip, NextId, Ready, Tidy, MarkdownShadow;
    MarkdownMeaning(h, raw);
    MarkdownProper(h, raw);
    ReadyDistinct(h);
    LongerStays(h.elements, k, full, Strip(raw), NextId("markdown", h.seqNo + 1));
  }

  lemma LongerStays(es: seq<Elem>, k: nat, full: string, text: string, id: string)
    requires Distinct(Ids(es)) && k < |es| && IsMarkdown(es[k]) && es[k].data == MarkdownData(TextOf(es[k].data))
    requires forall j :: k < j < |es| ==> !IsMarkdown(es[j])
    requires TextOf(es[k].data) <= full && text <= full
    ensures var was := TextOf(es[k].data);
            MarkdownShadow(es, text, id) == es[k := es[k].(data := MarkdownData(if |text| > |was| then text else was))]
  {
    hide TextOf, MarkdownData, LastWhere;
    var was := TextOf(es[k].data);
    assert es[k].(data := MarkdownData(was)) == es[k] && es[k := es[k]] == es;
    assert text <= was || was <= text;
    MirrorAt(es, k, MarkdownData(text));
    LastIsAt(es, k);
    if |text| <= |was| && was <= text {
      assert text == was;
    }
  }

  lemma LastIsAt(es: seq<Elem>, k: nat)
    requires k < |es| && IsMarkdown(es[k]) && forall j :: k < j < |es| ==> !IsMarkdown(es[j])
    ensures LastWhere(es, IsMarkdown) == Some(es[k])
  {
    assert es[k] in es;
    var i := LastWhereAt(es, IsMarkdown);
  }

  /** Growing raw text makes growing snapshots. */
  lemma {:induction false} StripKeepsPrefixes(s: string, t: string)
    requires s <= t
    ensures Strip(s) <= Strip(t)
  {
    StripLeftPrefix(s, t);
    if StripLeft(s) != "" {
      StripRightPrefix(StripLeft(s), StripLeft(t));
    }
  }

  lemma {:induction false} StripLeftPrefix(s: string, t: string)
    requires s <= t
    ensures StripLeft(s) == "" || StripLeft(s) <= StripLeft(t)
  {
    hide IsSpace;
    if s != "" && IsSpace(s[0]) {
      StripLeftPrefix(s[1..], t[1..]);
    }
  }

  lemma {:induction false} StripRightPrefix(s: string, t: string)
    requires s <= t
    ensures StripRight(s) <= StripRight(t)
  {
    hide IsSpace;
    StripRightBare(s);
    if t != s && IsSpace(t[|t| - 1]) {
      StripRightPrefix(s, t[..|t| - 1]);
    }
  }

  // --------------------------------------------------------- what finish leaves

  ghost predicate NothingLoose(es: seq<Elem>) {
    forall e <- es :: !Loose(e)
  }

  ghost predicate OnlyBlanksLoose(es: seq<Elem>) {
    forall e <- es :: Loose(e) ==> IsOpenReasoning(e) && Blank(e.data)
  }

  /**
   * finish leaves nothing loose on the card exactly when all that was loose
   * is a blank thinking block: the session is finalized before it settles, so
   * the updates of running tools and non-blank thoughts are dropped.
   */
  lemma FinishSettlesIff(h: Session, m: nat, footer: Data)
    requires Open(h, m)
    ensures m < |Finish(h, footer).s.w.messages|
    ensures NothingLoose(Finish(h, footer).s.w.messages[m].card.elements) <==> OnlyBlanksLoose(h.elements)
  {
    FinishOpen(h, m, footer);
    hide *;
    LooseLeft(h.elements, FooterElem(h.s, footer)) by { FooterKind(h.s, footer); }
  }

  lemma FooterKind(s: Sys, footer: Data)
    ensures FooterElem(s, footer).kind == "footer"
  {
  }

  lemma LooseLeft(es: seq<Elem>, f: Elem)
    requires f.kind == "footer"
    ensures NothingLoose(SettledAll(es, false) + [f]) <==> OnlyBlanksLoose(es)
  {
    SettledFinal(es);
    assert !Loose(f);
    hide SettledAll, Blank, Unfinished, Says;
    var left := SettledAll(es, false);
    assert forall e :: e in left + [f] <==> e in left || e == f;
  }

  lemma {:induction false} SettledFinal(es: seq<Elem>)
    ensures forall e :: e in SettledAll(es, false) <==> e in es && !(IsOpenReasoning(e) && Blank(e.data))
  {
    hide Blank, IsOpenReasoning;
    if es != [] {
      SettledFinal(es[..|es| - 1]);
    }
  }

  /** An interrupt fails the running tools while updates still work: none stays running on the closed card. */
  lemma InterruptStopsTools(h: Session, m: nat)
    requires Proper(h) && Open(h, m)
    ensures var w := OnInterrupt(h).s.w;
            m < |w.messages| && forall e <- w.messages[m].card.elements :: !IsRunningTool(e)
  {
    hide Attached, Finish, FailTools, SettledAll, Tidy, Idle, Blank, FooterElem;
    assert h.elements[..|h.elements|] == h.elements;
    FailToolsKeeps(h, |h.elements|);
    var h1 := FailTools(h, h.elements);
    assert h1.elements == FailedAll(h.elements);
    AttachedCard(h, m);
    FinishOpen(h1, m, INTERRUPT);
    SettledFinal(h1.elements);
    assert !IsRunningTool(FooterElem(h1.s, INTERRUPT)) by { FooterKind(h1.s, INTERRUPT); }
    forall e | e in SettledAll(h1.elements, false) ensures !IsRunningTool(e) {
      var i :| 0 <= i < |h1.elements| && h1.elements[i] == e;
      assert h1.elements[i] == Failed(h.elements[i]);
    }
  }

  ghost predicate OnlyToolsOrBlanksLoose(es: seq<Elem>) {
    forall e <- es :: Loose(e) ==> IsRunningTool(e) || (IsOpenReasoning(e) && Blank(e.data))
  }

  /** An interrupt leaves nothing loose on the card it closes exactly when all that was loose is tools and blank thoughts. */
  lemma InterruptSettlesIff(h: Session, m: nat)
    requires Proper(h) && Open(h, m)
    ensures m < |OnInterrupt(h).s.w.messages|
    ensures NothingLoose(OnInterrupt(h).s.w.messages[m].card.elements) <==> OnlyToolsOrBlanksLoose(h.elements)
  {
    hide Attached, Finish, FailTools, Tidy, NothingLoose, OnlyBlanksLoose, OnlyToolsOrBlanksLoose;
    assert h.elements[..|h.elements|] == h.elements;
    FailToolsKeeps(h, |h.elements|);
    var h1 := FailTools(h, h.elements);
    assert h1.elements == FailedAll(h.elements);
    AttachedCard(h, m);
    FinishSettlesIff(h1, m, INTERRUPT);
    FailedBlanks(h.elements);
  }

  lemma FailedBlanks(es: seq<Elem>)
    ensures OnlyBlanksLoose(FailedAll(es)) <==> OnlyToolsOrBlanksLoose(es)
  {
    hide Blank, Unfinished;
    var fs := FailedAll(es);
    forall i | 0 <= i < |es|
      ensures (Loose(fs[i]) ==> IsOpenReasoning(fs[i]) && Blank(fs[i].data))
              <==> (Loose(es[i]) ==> IsRunningTool(es[i]) || (IsOpenReasoning(es[i]) && Blank(es[i].data)))
    {
      assert IsRunningTool(es[i]) ==> !Loose(fs[i]);
    }
    if OnlyBlanksLoose(fs) {
      forall e | e in es && Loose(e) ensures IsRunningTool(e) || (IsOpenReasoning(e) && Blank(e.data)) {
        var i :| 0 <= i < |es| && es[i] == e;
        assert fs[i] in fs;
      }
    }
    if OnlyToolsOrBlanksLoose(es) {
      forall e | e in fs && Loose(e) ensures IsOpenReasoning(e) && Blank(e.data) {
        var i :| 0 <= i < |fs| && fs[i] == e;
        assert es[i] in es;
      }
    }
  }

  /** A tool that never reports back is still running on the finished card. */
  lemma FinishLeavesToolRunning(name: string, args: Json, footer: Data)
    ensures var h := OnEvent(NewSession(NewWorld([])), ToolStart(name, args));
            var w := Finish(h, footer).s.w;
            && |h.elements| == 1 && h.cardMsgId.Some? && h.cardMsgId.value < |w.messages|
            && var message := w.messages[h.cardMsgId.value];
               message.card.state == "done" && !message.recalled
               && message.card.elements == h.elements + [FooterElem(h.s, footer)] && IsRunningTool(h.elements[0])
  {
    var start := NewSession(NewWorld([]));
    PlainParts("", false, name, args);
    hide AppendNew, Finish, Attached, FooterElem, NextId, SettledAll, OnlyFooters, Done;
    AppendNewKeeps(start, "tool_card", ToolData(name, args));
    var h := AppendNew(start, "tool_card", ToolData(name, args));
    var e := Elem("tool_card", NextId("tool_card", 1), ToolData(name, args));
    assert RoomIn([]) + [e] == [e];
    FinishOpen(h, h.cardMsgId.value, footer);
    ToolStays(e);
  }

  lemma ToolStays(e: Elem)
    requires IsRunningTool(e)
    ensures SettledAll([e], false) == [e] && !OnlyFooters([e])
  {
    assert [e][..0] == [] && e in [e];
  }
}
