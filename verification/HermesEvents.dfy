// Every event of a round, on delivered calls: the server's card stays the
// shadow, and the shadow stays tidy.

module HermesEvents {
  import opened Prelude
  import opened CardContent
  import opened ElementIds
  import opened Wire
  import opened CardSpec
  import opened HermesSpec
  import opened HermesMirror
  import opened HermesSettle
  import opened HermesFinish
  import opened HermesShadow

  ghost predicate Proper(h: Session) {
    Ready(h) && Tidy(h.elements)
  }

  // -------------------------------------------------------- building blocks

  /** An update of element k of the shadow. */
  lemma UpdateAt(h: Session, k: nat, data: Data)
    requires Ready(h) && k < |h.elements|
    ensures var h' := UpdateElement(h, h.elements[k].id, data);
            && Ready(h') && h'.elements == h.elements[k := h.elements[k].(data := h.elements[k].data + data)]
            && UpdateCall(OPTIONS, h.s, h.elements[k].id, data).ok && SameCard(h, h') && h.elements[k].id != ""
  {
    hide UpdateElement, Attached, UpdateCall;
    var m := h.cardMsgId.value;
    var es := h.elements;
    var a, b := es[..k], es[k + 1..];
    assert es == a + [es[k]] + b;
    ShadowDistinct(h, m);
    MergeOne(a, es[k], b, data);
    UpdateKeeps(h, m, es[k].id, data);
    UpdateOne(h, m, a, es[k], b, data);
    ShadowNamed(h, m, es[k]);
    SameLengths(h, UpdateElement(h, es[k].id, data));
  }

  lemma ShadowDistinct(h: Session, m: nat)
    requires Attached(h, m)
    ensures Distinct(Ids(h.elements))
  {
  }

  lemma ShadowNamed(h: Session, m: nat, e: Elem)
    requires Attached(h, m) && e in h.elements
    ensures e.id != ""
  {
    NameOf(h.s.c.mirror, e, h.seqNo);
  }

  lemma SameLengths(h: Session, h': Session)
    requires SameCard(h, h')
    ensures |h'.s.c.mirror| == |h.s.c.mirror|
  {
    assert |Ids(h'.s.c.mirror)| == |h'.s.c.mirror|;
  }

  /** A permutation of the shadow stays ready. */
  lemma ReorderReady(h: Session, p: seq<Elem>)
    requires Ready(h) && h.elements != [] && multiset(p) == multiset(h.elements)
    ensures var h' := ReorderTo(h, Ids(p)); Ready(h') && h'.elements == p && SameCard(h, h')
  {
    hide ReorderTo, Attached;
    ReorderKeeps(h, h.cardMsgId.value, p);
    SameLengths(h, ReorderTo(h, Ids(p)));
    assert |multiset(p)| == |p| && |multiset(h.elements)| == |h.elements|;
  }

  lemma WithoutLast(x: seq<Elem>, e: Elem)
    requires Distinct(Ids(x + [e]))
    ensures Without(x + [e], e.id) == x && HasId(x + [e], e.id)
  {
    assert x + [e] == x + [e] + [] && x + [] == x;
    OthersDiffer(x, e, []);
    WithoutConcat(x, [e], e.id);
    WithoutAbsent(x, e.id);
    assert Without([e], e.id) == [] by { assert [e][1..] == []; }
    HasIdAt(x + [e], |x|);
  }

  lemma PlacedPermutes(x: seq<Elem>, e: Elem)
    ensures multiset(Placed(x, e)) == multiset(x + [e])
  {
    FilterSplits(x);
  }

  lemma PlacedIds(x: seq<Elem>, e: Elem)
    ensures Ids(Placed(x, e)) == Ids(Filter(x, NotMarkdown)) + [e.id] + Ids(Filter(x, IsMarkdown))
  {
  }

  /** A new thinking block ends up after everything but the markdown. */
  lemma AppendReasoningReady(h: Session, data: Data)
    requires Ready(h) && Plain(data)
    ensures var h' := AppendReasoning(h, data);
            Ready(h') && h'.elements == Placed(RoomIn(h.elements), Elem("reasoning", NextId("reasoning", h.seqNo + 1), data))
  {
    hide AppendNew, ReorderTo, Attached, NextId, Placed, Without, HasId, Ids;
    AppendNewKeeps(h, "reasoning", data);
    var h1 := AppendNew(h, "reasoning", data);
    var x, e := RoomIn(h.elements), Elem("reasoning", NextId("reasoning", h.seqNo + 1), data);
    ShadowDistinct(h1, h1.cardMsgId.value);
    WithoutLast(x, e);
    PlacedIds(x, e);
    PlacedPermutes(x, e);
    ReorderReady(h1, Placed(x, e));
  }

  lemma TidyRoom(es: seq<Elem>)
    requires Tidy(es)
    ensures Tidy(RoomIn(es))
    ensures forall e <- RoomIn(es) :: e in es
  {
    TidyEmpty();
  }

  lemma PlainParts(text: string, finished: bool, name: string, args: Json)
    ensures Plain(ThinkingData(text, finished)) && Plain(MarkdownData(text)) && Plain(ToolData(name, args))
  {
  }

  // ---------------------------------------------------------------- markdown

  /** What append_or_merge_markdown makes of a shadow. */
  function MarkdownShadow(es: seq<Elem>, text: string, id: string): seq<Elem> {
    var last := LastWhere(es, IsMarkdown);
    if text == "" then es
    else if last.None? || !Comparable(TextOf(last.value.data), text) then RoomIn(es) + [Elem("markdown", id, MarkdownData(text))]
    else if TextOf(last.value.data) <= text then MirrorData(es, last.value.id, MarkdownData(text))
    else es
  }

  lemma MarkdownMeaning(h: Session, raw: string)
    requires Proper(h)
    ensures var h' := AppendOrMergeMarkdown(h, raw);
            Ready(h') && h'.elements == MarkdownShadow(h.elements, Strip(raw), NextId("markdown", h.seqNo + 1))
  {
    hide AppendNew, Attached, NextId, Strip, Filter;
    var text := Strip(raw);
    var last := LastWhere(h.elements, IsMarkdown);
    StripIdempotent(raw);
    if text != "" {
      if last.Some? {
        var k := LastWhereAt(h.elements, IsMarkdown);
        assert WellFormed(last.value);
        ShadowNamed(h, h.cardMsgId.value, last.value);
        var lastText := TextOf(last.value.data);
        if lastText <= text {
          ReplaceMarkdown(h, k, text);
        } else if !(text <= lastText) {
          AppendNewKeeps(h, "markdown", MarkdownData(text));
        }
      } else {
        AppendNewKeeps(h, "markdown", MarkdownData(text));
      }
    }
  }

  /** Sending the same element again with a longer text. */
  lemma ReplaceMarkdown(h: Session, k: nat, text: string)
    requires Ready(h) && k < |h.elements| && IsMarkdown(h.elements[k]) && StoredText(h.elements[k].data)
    ensures var e := h.elements[k];
            var h' := AppendElement(h, "markdown", MarkdownData(text), e.id);
            Ready(h') && h'.elements == MirrorData(h.elements, e.id, MarkdownData(text))
            && h'.elements == h.elements[k := e.(data := MarkdownData(text))]
            && (TextOf(e.data) == text ==> h'.elements == h.elements)
  {
    hide Attached, PlaceElement;
    var m := h.cardMsgId.value;
    var e := h.elements[k];
    ShadowDistinct(h, m);
    HasIdAt(h.elements, k);
    ReappendKeeps(h, m, Elem("markdown", e.id, MarkdownData(text)));
    SameLengths(h, PlaceElement(h, Elem("markdown", e.id, MarkdownData(text))));
    assert forall i :: 0 <= i < |h.elements| && i != k ==> h.elements[i].id != e.id by {
      forall i | 0 <= i < |h.elements| && i != k ensures h.elements[i].id != e.id {
        assert Ids(h.elements)[i] != Ids(h.elements)[k];
      }
    }
  }

  lemma MarkdownShadowTidy(es: seq<Elem>, raw: string, id: string)
    requires Tidy(es) && Distinct(Ids(es))
    ensures Tidy(MarkdownShadow(es, Strip(raw), id))
  {
    var text := Strip(raw);
    StripIdempotent(raw);
    assert text != "" ==> StoredText(MarkdownData(text));
    hide Tidy, Filter, Comparable, Strip, StoredText, TextOf;
    var last := LastWhere(es, IsMarkdown);
    assert TextOf(MarkdownData(text)) == text by { TextOfMarkdown(text); }
    if text != "" && (last.None? || !Comparable(TextOf(last.value.data), text)) {
      NewMarkdownRoom(es, Elem("markdown", id, MarkdownData(text)));
    } else if text != "" && TextOf(last.value.data) <= text {
      var k := LastWhereAt(es, IsMarkdown);
      MirrorAt(es, k, MarkdownData(text));
      TidyExtended(es, k, MarkdownData(text));
    }
  }

  lemma TextOfMarkdown(text: string)
    ensures TextOf(MarkdownData(text)) == text
  {
  }

  lemma MirrorAt(es: seq<Elem>, k: nat, data: Data)
    requires Distinct(Ids(es)) && k < |es|
    ensures MirrorData(es, es[k].id, data) == es[k := es[k].(data := data)]
  {
    forall i | 0 <= i < |es| && i != k ensures es[i].id != es[k].id {
      assert Ids(es)[i] != Ids(es)[k];
    }
  }

  lemma NewMarkdownRoom(es: seq<Elem>, e: Elem)
    requires Tidy(es) && IsMarkdown(e) && StoredText(e.data)
    requires var last := LastWhere(es, IsMarkdown);
             last.None? || !Comparable(TextOf(last.value.data), TextOf(e.data))
    ensures Tidy(RoomIn(es) + [e])
  {
    TidyEmpty();
    TidyNewMarkdown(if |es| >= MAX_ELEMENTS then [] else es, e);
  }

  lemma MarkdownProper(h: Session, raw: string)
    requires Proper(h)
    ensures Proper(AppendOrMergeMarkdown(h, raw))
  {
    hide AppendOrMergeMarkdown, Tidy, Attached, Strip, NextId, MarkdownShadow;
    MarkdownMeaning(h, raw);
    ReadyDistinct(h);
    MarkdownShadowTidy(h.elements, raw, NextId("markdown", h.seqNo + 1));
  }

  lemma ReadyDistinct(h: Session)
    requires Ready(h)
    ensures Distinct(Ids(h.elements))
  {
    assert h.elements == [] ==> Ids(h.elements) == [];
  }

  /** The final text: all markdown is a suffix, and both classes keep their order. */
  lemma FinalMarkdown(h: Session, raw: string)
    requires Proper(h)
    ensures var es := AppendOrMergeMarkdown(h, raw).elements;
            var h' := OnEvent(h, Markdown(raw));
            Proper(h') && h'.elements == Filter(es, NotMarkdown) + Filter(es, IsMarkdown)
  {
    hide AppendOrMergeMarkdown, Tidy, Attached, Filter, ReorderTo, Ids;
    MarkdownProper(h, raw);
    var h1 := AppendOrMergeMarkdown(h, raw);
    FilterSplits(h1.elements);
    TidyMarkdownLast(h1.elements);
    ReadyDistinct(h1);
    if Ids(MarkdownLast(h1.elements)) == Ids(h1.elements) {
      SameIdsSame(h1.elements, MarkdownLast(h1.elements));
    }
    if Filter(h1.elements, IsMarkdown) == [] {
      NoMarkdown(h1.elements);
    } else if h1.elements != [] {
      ReorderReady(h1, MarkdownLast(h1.elements));
    }
    NotFinalized(h1);
  }

  lemma NotFinalized(h: Session)
    requires Ready(h)
    ensures !h.finalized
  {
  }

  lemma {:induction false} NoMarkdown(es: seq<Elem>)
    requires Filter(es, IsMarkdown) == []
    ensures MarkdownLast(es) == es
  {
    if es != [] {
      NoMarkdown(es[..|es| - 1]);
    }
  }

  lemma SameIdsSame(es: seq<Elem>, p: seq<Elem>)
    requires Distinct(Ids(es)) && multiset(p) == multiset(es) && Ids(p) == Ids(es)
    ensures p == es
  {
    assert |Ids(p)| == |Ids(es)|;
    forall i | 0 <= i < |es| ensures p[i] == es[i] {
      assert p[i] in multiset(es);
      var k :| 0 <= k < |es| && es[k] == p[i];
      assert Ids(es)[k] == Ids(p)[i] == Ids(es)[i];
    }
  }

  // ------------------------------------------------------- tools and thinking

  lemma AppendOther(h: Session, kind: string, data: Data)
    requires Proper(h) && Plain(data) && kind != "reasoning" && kind != "markdown"
    ensures Proper(AppendNew(h, kind, data))
  {
    hide AppendNew, Tidy, Attached, NextId;
    AppendNewKeeps(h, kind, data);
    TidyRoom(h.elements);
    TidyOther(RoomIn(h.elements), Elem(kind, NextId(kind, h.seqNo + 1), data));
  }

  lemma UpdateProper(h: Session, k: nat, data: Data)
    requires Proper(h) && k < |h.elements|
    requires var e := h.elements[k].(data := h.elements[k].data + data);
             && !IsMarkdown(e) && WellFormed(e)
             && (IsOpenReasoning(e) ==> forall j :: k < j < |h.elements| ==> !IsReasoning(h.elements[j]))
    ensures Proper(UpdateElement(h, h.elements[k].id, data)) && h.elements[k].id != ""
  {
    hide UpdateElement, Tidy, Attached, WellFormed;
    UpdateAt(h, k, data);
    TidyReplaced(h.elements, k, h.elements[k].(data := h.elements[k].data + data));
  }

  lemma PreLlmProper(h: Session)
    requires Proper(h)
    ensures Proper(OnEvent(h, PreLlmCall))
  {
    hide AppendNew, Attached, NextId;
    if h.elements == [] {
      var e := Elem("reasoning", NextId("reasoning", h.seqNo + 1), ThinkingData("", false));
      AppendNewKeeps(h, "reasoning", ThinkingData("", false));
      TidyAlone(e);
      assert [] + [e] == [e];
    }
  }

  lemma TidyAlone(e: Elem)
    requires WellFormed(e)
    ensures Tidy([e])
  {
    FilterOne(e, IsReasoning);
    FilterOne(e, IsMarkdown);
  }

  /** tool_end settles the last running tool of that name, if there is one, with the whole result over its data. */
  lemma ToolEndProper(h: Session, e: Event)
    requires Proper(h) && e.ToolEnd?
    ensures Proper(OnToolEnd(h, e))
  {
    hide UpdateElement, Tidy, Attached, ToolResult, Says;
    var p := (x: Elem) => IsRunningTool(x) && Says(x.data, "name", e.name);
    if LastWhere(h.elements, p).Some? {
      var k := LastWhereAt(h.elements, p);
      UpdateProper(h, k, ToolResult(e));
    }
  }
}
