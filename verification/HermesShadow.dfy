// What a shadow of the plugin looks like: its markdown texts and its thinking
// blocks, under each of the few ways the session changes a list of elements.

module HermesShadow {
  import opened Prelude
  import opened CardContent
  import opened HermesSpec

  // ------------------------------------------------------------------- strip

  lemma StripLeftBare(s: string)
    ensures var t := StripLeft(s); |t| <= |s| && (t == "" || !IsSpace(t[0]))
  {
  }

  lemma {:induction false} StripRightBare(s: string)
    ensures var t := StripRight(s); t <= s && (t == "" || !IsSpace(t[|t| - 1]))
  {
    hide IsSpace;
    if s != "" && IsSpace(s[|s| - 1]) {
      StripRightBare(s[..|s| - 1]);
    }
  }

  lemma StripIdempotent(s: string)
    ensures Strip(Strip(s)) == Strip(s)
  {
    hide IsSpace;
    StripLeftBare(s);
    StripRightBare(StripLeft(s));
  }

  // ------------------------------------------------------------------ filter

  lemma {:induction false} FilterConcat(a: seq<Elem>, b: seq<Elem>, p: Elem -> bool)
    ensures Filter(a + b, p) == Filter(a, p) + Filter(b, p)
  {
    if b == [] {
      assert a + b == a;
    } else {
      var n := |b| - 1;
      assert (a + b)[..|a + b| - 1] == a + b[..n];
      FilterConcat(a, b[..n], p);
    }
  }

  lemma FilterOne(e: Elem, p: Elem -> bool)
    ensures Filter([e], p) == if p(e) then [e] else []
  {
    assert [e][..0] == [];
  }

  lemma FilterInsert(a: seq<Elem>, e: Elem, b: seq<Elem>, p: Elem -> bool)
    ensures Filter(a + [e] + b, p) == Filter(a, p) + (if p(e) then [e] else []) + Filter(b, p)
  {
    FilterConcat(a + [e], b, p);
    FilterConcat(a, [e], p);
    FilterOne(e, p);
  }

  lemma FilterSnoc(a: seq<Elem>, e: Elem, p: Elem -> bool)
    ensures Filter(a + [e], p) == Filter(a, p) + (if p(e) then [e] else [])
  {
    FilterConcat(a, [e], p);
    FilterOne(e, p);
  }

  lemma {:induction false} FilterFilter(es: seq<Elem>, p: Elem -> bool, q: Elem -> bool)
    ensures (forall e :: p(e) ==> q(e)) ==> Filter(Filter(es, q), p) == Filter(es, p)
    ensures (forall e :: p(e) ==> !q(e)) ==> Filter(Filter(es, q), p) == []
  {
    if es != [] {
      var n := |es| - 1;
      FilterFilter(es[..n], p, q);
      FilterSnoc(Filter(es[..n], q), es[n], p);
    }
  }

  lemma FilterNone(es: seq<Elem>, p: Elem -> bool)
    requires forall e <- es :: !p(e)
    ensures Filter(es, p) == []
  {
  }

  lemma {:induction false} LastWhereAt(es: seq<Elem>, p: Elem -> bool) returns (k: nat)
    requires LastWhere(es, p).Some?
    ensures k < |es| && es[k] == LastWhere(es, p).value
    ensures forall j :: k < j < |es| ==> !p(es[j])
  {
    if p(es[|es| - 1]) {
      k := |es| - 1;
    } else {
      k := LastWhereAt(es[..|es| - 1], p);
    }
  }

  // -------------------------------------------------------------------- tidy

  /** Markdown data as the session stores it: a stripped text and nothing else. */
  ghost predicate StoredText(data: Data) {
    data == MarkdownData(TextOf(data)) && TextOf(data) != "" && Strip(TextOf(data)) == TextOf(data)
  }

  predicate Comparable(s: string, t: string) {
    s <= t || t <= s
  }

  /** No two neighbours say the same thing twice. */
  ghost predicate Apart(mds: seq<Elem>) {
    forall i :: 0 <= i < |mds| - 1 ==> !Comparable(TextOf(mds[i].data), TextOf(mds[i + 1].data))
  }

  /** Every thinking block but the last is finished. */
  ghost predicate OnlyLastOpen(rs: seq<Elem>) {
    forall i :: 0 <= i < |rs| - 1 ==> !Unfinished(rs[i].data)
  }

  ghost predicate WellFormed(e: Elem) {
    && (IsReasoning(e) ==> "finished" in e.data && e.data["finished"].Bool?)
    && (IsMarkdown(e) ==> StoredText(e.data))
  }

  ghost predicate Tidy(es: seq<Elem>) {
    && (forall e <- es :: WellFormed(e))
    && OnlyLastOpen(Filter(es, IsReasoning))
    && Apart(Filter(es, IsMarkdown))
  }

  lemma OpenSnoc(rs: seq<Elem>, e: Elem)
    requires forall x <- rs :: !Unfinished(x.data)
    ensures OnlyLastOpen(rs + [e])
  {
    hide Unfinished;
    forall i | 0 <= i < |rs| ensures !Unfinished((rs + [e])[i].data) {
      assert rs[i] in rs;
    }
  }

  lemma OpenSwap(a: seq<Elem>, x: seq<Elem>, y: seq<Elem>, b: seq<Elem>)
    requires OnlyLastOpen(a + x + b) && |x| == |y| <= 1
    requires b != [] ==> forall e <- y :: !Unfinished(e.data)
    ensures OnlyLastOpen(a + y + b)
  {
    hide Unfinished;
    forall i | 0 <= i < |a + y + b| - 1 ensures !Unfinished((a + y + b)[i].data) {
      if i < |a| || |a| + |y| <= i {
        assert (a + y + b)[i] == (a + x + b)[i];
      } else {
        assert (a + y + b)[i] in y;
      }
    }
  }

  lemma ApartSnoc(mds: seq<Elem>, e: Elem)
    requires Apart(mds) && (mds != [] ==> !Comparable(TextOf(mds[|mds| - 1].data), TextOf(e.data)))
    ensures Apart(mds + [e])
  {
    hide Comparable, TextOf;
  }

  lemma ApartFront(mds: seq<Elem>, e: Elem)
    requires Apart(mds + [e])
    ensures Apart(mds) && (mds != [] ==> !Comparable(TextOf(mds[|mds| - 1].data), TextOf(e.data)))
  {
    hide Comparable, TextOf;
    var all := mds + [e];
    forall i | 0 <= i < |mds| - 1 ensures !Comparable(TextOf(mds[i].data), TextOf(mds[i + 1].data)) {
      assert all[i] == mds[i] && all[i + 1] == mds[i + 1];
    }
    if mds != [] {
      assert all[|mds| - 1] == mds[|mds| - 1] && all[|mds| - 1 + 1] == e;
    }
  }

  lemma TidyEmpty()
    ensures Tidy([])
  {
  }

  lemma TidyOther(es: seq<Elem>, e: Elem)
    requires Tidy(es) && !IsReasoning(e) && !IsMarkdown(e)
    ensures Tidy(es + [e])
  {
    FilterSnoc(es, e, IsReasoning);
    FilterSnoc(es, e, IsMarkdown);
  }

  /** An element of the tidy list replaced by another of its kind, markdown excepted. */
  lemma TidyReplaced(es: seq<Elem>, k: nat, e: Elem)
    requires Tidy(es) && k < |es| && e.kind == es[k].kind && !IsMarkdown(e) && WellFormed(e)
    requires IsOpenReasoning(e) ==> forall j :: k < j < |es| ==> !IsReasoning(es[j])
    ensures Tidy(es[k := e])
  {
    var a, b := es[..k], es[k + 1..];
    assert es == a + [es[k]] + b && es[k := e] == a + [e] + b;
    FilterInsert(a, es[k], b, IsReasoning);
    FilterInsert(a, e, b, IsReasoning);
    FilterInsert(a, es[k], b, IsMarkdown);
    FilterInsert(a, e, b, IsMarkdown);
    if IsOpenReasoning(e) {
      FilterNone(b, IsReasoning);
    }
    hide Filter, WellFormed, Apart, Unfinished;
    if IsReasoning(e) {
      OpenSwap(Filter(a, IsReasoning), [es[k]], [e], Filter(b, IsReasoning));
    }
  }

  // --------------------------------------------------------------- reasoning

  /** Where a new thinking block goes: after everything but the markdown. */
  function Placed(es: seq<Elem>, e: Elem): seq<Elem> {
    Filter(es, NotMarkdown) + [e] + Filter(es, IsMarkdown)
  }

  lemma PlacedClasses(es: seq<Elem>, e: Elem)
    requires !IsMarkdown(e)
    ensures Filter(Placed(es, e), IsMarkdown) == Filter(es, IsMarkdown)
    ensures Filter(Placed(es, e), NotMarkdown) == Filter(es, NotMarkdown) + [e]
    ensures Filter(Placed(es, e), IsReasoning) == Filter(es, IsReasoning) + if IsReasoning(e) then [e] else []
  {
    var a, b := Filter(es, NotMarkdown), Filter(es, IsMarkdown);
    FilterInsert(a, e, b, IsMarkdown);
    FilterInsert(a, e, b, NotMarkdown);
    FilterInsert(a, e, b, IsReasoning);
    FilterFilter(es, IsMarkdown, NotMarkdown);
    FilterFilter(es, IsMarkdown, IsMarkdown);
    FilterFilter(es, NotMarkdown, NotMarkdown);
    FilterFilter(es, NotMarkdown, IsMarkdown);
    FilterFilter(es, IsReasoning, NotMarkdown);
    FilterFilter(es, IsReasoning, IsMarkdown);
  }

  lemma TidyPlaced(es: seq<Elem>, e: Elem)
    requires Tidy(es) && IsReasoning(e) && WellFormed(e)
    requires forall x <- es :: !IsOpenReasoning(x)
    ensures Tidy(Placed(es, e))
  {
    PlacedClasses(es, e);
    hide Filter, WellFormed, Apart, Unfinished;
    OpenSnoc(Filter(es, IsReasoning), e) by {
      forall x | x in Filter(es, IsReasoning) ensures !Unfinished(x.data) {
        assert !IsOpenReasoning(x);
      }
    }
    forall x | x in Placed(es, e) ensures WellFormed(x) {
    }
  }

  // ---------------------------------------------------------------- markdown

  lemma MarkdownLastClasses(es: seq<Elem>)
    ensures Filter(MarkdownLast(es), IsMarkdown) == Filter(es, IsMarkdown)
    ensures Filter(MarkdownLast(es), NotMarkdown) == Filter(es, NotMarkdown)
    ensures Filter(MarkdownLast(es), IsReasoning) == Filter(es, IsReasoning)
  {
    var a, b := Filter(es, NotMarkdown), Filter(es, IsMarkdown);
    FilterConcat(a, b, IsMarkdown);
    FilterConcat(a, b, NotMarkdown);
    FilterConcat(a, b, IsReasoning);
    FilterFilter(es, IsMarkdown, NotMarkdown);
    FilterFilter(es, IsMarkdown, IsMarkdown);
    FilterFilter(es, NotMarkdown, NotMarkdown);
    FilterFilter(es, NotMarkdown, IsMarkdown);
    FilterFilter(es, IsReasoning, NotMarkdown);
    FilterFilter(es, IsReasoning, IsMarkdown);
  }

  lemma TidyMarkdownLast(es: seq<Elem>)
    requires Tidy(es)
    ensures Tidy(MarkdownLast(es))
  {
    MarkdownLastClasses(es);
  }

  /** The last markdown of the list is the last of its class. */
  lemma LastMarkdown(es: seq<Elem>)
    ensures LastWhere(es, IsMarkdown).None? <==> Filter(es, IsMarkdown) == []
    ensures LastWhere(es, IsMarkdown).Some? ==>
              var mds := Filter(es, IsMarkdown); mds != [] && mds[|mds| - 1] == LastWhere(es, IsMarkdown).value
  {
    hide IsMarkdown;
  }

  /** A text that is no snapshot of the last one gets an element of its own. */
  lemma TidyNewMarkdown(es: seq<Elem>, e: Elem)
    requires Tidy(es) && IsMarkdown(e) && StoredText(e.data)
    requires var last := LastWhere(es, IsMarkdown);
             last.Some? ==> !Comparable(TextOf(last.value.data), TextOf(e.data))
    ensures Tidy(es + [e])
  {
    FilterSnoc(es, e, IsReasoning);
    FilterSnoc(es, e, IsMarkdown);
    LastMarkdown(es);
    hide Filter, Comparable, TextOf, LastWhere, OnlyLastOpen;
    assert !IsReasoning(e) && WellFormed(e);
    assert Filter(es + [e], IsReasoning) == Filter(es, IsReasoning);
    assert Filter(es + [e], IsMarkdown) == Filter(es, IsMarkdown) + [e];
    ApartSnoc(Filter(es, IsMarkdown), e);
  }

  /** A longer snapshot replaces the last text; the one before it stays apart from both. */
  lemma TidyExtended(es: seq<Elem>, k: nat, data: Data)
    requires Tidy(es) && k < |es| && IsMarkdown(es[k]) && StoredText(data)
    requires forall j :: k < j < |es| ==> !IsMarkdown(es[j])
    requires TextOf(es[k].data) <= TextOf(data)
    ensures Tidy(es[k := es[k].(data := data)])
    ensures Filter(es[k := es[k].(data := data)], IsMarkdown) ==
            Filter(es[..k], IsMarkdown) + [es[k].(data := data)]
    ensures Filter(es, IsMarkdown) == Filter(es[..k], IsMarkdown) + [es[k]]
  {
    var e := es[k].(data := data);
    SwapLastMarkdown(es, k, e);
    var mds := Filter(es[..k], IsMarkdown);
    hide Filter, Comparable, TextOf, OnlyLastOpen, StoredText;
    ApartFront(mds, es[k]);
    if mds != [] {
      PrefixesMeet(TextOf(mds[|mds| - 1].data), TextOf(es[k].data), TextOf(data));
    }
    ApartSnoc(mds, e);
    assert WellFormed(e);
  }

  lemma SwapLastMarkdown(es: seq<Elem>, k: nat, e: Elem)
    requires k < |es| && IsMarkdown(es[k]) && IsMarkdown(e)
    requires forall j :: k < j < |es| ==> !IsMarkdown(es[j])
    ensures Filter(es[k := e], IsReasoning) == Filter(es, IsReasoning)
    ensures Filter(es[k := e], IsMarkdown) == Filter(es[..k], IsMarkdown) + [e]
    ensures Filter(es, IsMarkdown) == Filter(es[..k], IsMarkdown) + [es[k]]
  {
    var a, b := es[..k], es[k + 1..];
    assert es == a + [es[k]] + b && es[k := e] == a + [e] + b;
    FilterInsert(a, es[k], b, IsReasoning);
    FilterInsert(a, e, b, IsReasoning);
    FilterInsert(a, es[k], b, IsMarkdown);
    FilterInsert(a, e, b, IsMarkdown);
    FilterNone(b, IsMarkdown);
    hide Filter;
    assert !IsReasoning(e) && !IsReasoning(es[k]);
  }

  /** A text comparable with an extension is comparable with what it extends. */
  lemma PrefixesMeet(before: string, text: string, longer: string)
    requires text <= longer && !Comparable(before, text)
    ensures !Comparable(before, longer)
  {
  }

  // ------------------------------------------------------- reading it by index

  lemma FilterPlaces(es: seq<Elem>, p: Elem -> bool, i: nat, j: nat) returns (a: nat, b: nat)
    requires i < j < |es| && p(es[i]) && p(es[j])
    ensures a < b < |Filter(es, p)| && Filter(es, p)[a] == es[i] && Filter(es, p)[b] == es[j]
  {
    var front, back := es[..j], es[j + 1..];
    assert es == front + [es[j]] + back;
    FilterInsert(front, es[j], back, p);
    assert es[i] in front by { assert front[i] == es[i]; }
    a :| 0 <= a < |Filter(front, p)| && Filter(front, p)[a] == es[i];
    b := |Filter(front, p)|;
  }

  /** At most one thinking block is unfinished, and it is the last one. */
  lemma OneOpenReasoning(es: seq<Elem>, i: nat, j: nat)
    requires Tidy(es) && i < j < |es| && IsReasoning(es[i]) && IsReasoning(es[j])
    ensures !IsOpenReasoning(es[i])
  {
    var a, b := FilterPlaces(es, IsReasoning, i, j);
  }
}
