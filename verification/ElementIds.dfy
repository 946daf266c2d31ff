// Generated element ids: "<type>_<seq>" with the type cut to fit, and the
// footer ids "footer_<k>".

module ElementIds {

  function Digit(d: nat): (c: char)
    requires d < 10
    ensures c != '_'
    ensures c == "0123456789"[d]
  {
    "0123456789"[d]
  }

  /** The decimal digits of a natural number. */
  function Decimal(n: nat): (s: string)
    ensures |s| >= 1
    ensures '_' !in s
  {
    if n < 10 then [Digit(n)] else Decimal(n / 10) + [Digit(n % 10)]
  }

  function Pow10(k: nat): nat {
    if k == 0 then 1 else 10 * Pow10(k - 1)
  }

  function Max(a: int, b: int): int {
    if a < b then b else a
  }

  /** The type cut so that a number of this length still fits, or a stand-in when nothing is left. */
  function TypePart(kind: string, n: nat): string {
    var room := Max(1, 19 - |Decimal(n)|);
    var cut := if |kind| <= room then kind else kind[..room];
    if cut == "" then "element" else cut
  }

  function ElementId(kind: string, n: nat): string {
    TypePart(kind, n) + "_" + Decimal(n)
  }

  function FooterId(k: nat): string {
    "footer_" + Decimal(k)
  }

  ghost predicate IsFooterId(id: string) {
    exists k: nat :: id == FooterId(k)
  }

  // ------------------------------------------------------------ uniqueness

  lemma DigitInjective(a: nat, b: nat)
    requires a < 10 && b < 10 && Digit(a) == Digit(b)
    ensures a == b
  {
  }

  lemma {:induction false} DecimalInjective(a: nat, b: nat)
    requires Decimal(a) == Decimal(b)
    ensures a == b
  {
    var da, db := Decimal(a), Decimal(b);
    DigitInjective(a % 10, b % 10) by {
      assert da[|da| - 1] == Digit(a % 10);
      assert db[|db| - 1] == Digit(b % 10);
    }
    if a >= 10 && b >= 10 {
      assert da[..|da| - 1] == Decimal(a / 10);
      assert db[..|db| - 1] == Decimal(b / 10);
      DecimalInjective(a / 10, b / 10);
    }
  }

  lemma LastUnderscore(p: string, n: nat)
    ensures var s := p + "_" + Decimal(n);
            s[|p|] == '_' && forall k :: |p| < k < |s| ==> s[k] != '_'
  {
    var s := p + "_" + Decimal(n);
    forall k | |p| < k < |s| ensures s[k] != '_' {
      assert s[k] == Decimal(n)[k - |p| - 1];
    }
  }

  /** The part after the last underscore is the number, whatever the prefixes are. */
  lemma SuffixDecides(p: string, q: string, a: nat, b: nat)
    requires p + "_" + Decimal(a) == q + "_" + Decimal(b)
    ensures a == b && p == q
  {
    LastUnderscore(p, a);
    LastUnderscore(q, b);
    var s, t := p + "_" + Decimal(a), q + "_" + Decimal(b);
    assert |p| == |q|;
    assert s[|p| + 1..] == Decimal(a) && t[|q| + 1..] == Decimal(b);
    DecimalInjective(a, b);
    assert s[..|p|] == p && t[..|q|] == q;
  }

  /** Ids generated in one round are pairwise distinct, across types and cards: the seq is never reused. */
  lemma GeneratedIdsDistinct(kind1: string, n1: nat, kind2: string, n2: nat)
    requires ElementId(kind1, n1) == ElementId(kind2, n2)
    ensures n1 == n2
  {
    SuffixDecides(TypePart(kind1, n1), TypePart(kind2, n2), n1, n2);
  }

  lemma FooterIdsDistinct(j: nat, k: nat)
    requires FooterId(j) == FooterId(k)
    ensures j == k
  {
    assert "footer_" == "footer" + "_";
    assert FooterId(j) == "footer" + "_" + Decimal(j);
    assert FooterId(k) == "footer" + "_" + Decimal(k);
    SuffixDecides("footer", "footer", j, k);
  }

  /** A generated id looks like a footer id exactly when its type part is "footer". */
  lemma GeneratedFooterIds(kind: string, n: nat)
    ensures IsFooterId(ElementId(kind, n)) <==> TypePart(kind, n) == "footer"
  {
    if TypePart(kind, n) == "footer" {
      assert "footer_" == "footer" + "_";
      assert ElementId(kind, n) == FooterId(n);
    }
    if IsFooterId(ElementId(kind, n)) {
      var k: nat :| ElementId(kind, n) == FooterId(k);
      assert "footer_" == "footer" + "_";
      assert FooterId(k) == "footer" + "_" + Decimal(k);
      SuffixDecides(TypePart(kind, n), "footer", n, k);
    }
  }

  // ------------------------------------------------------- first character

  predicate IsLetter(c: char) {
    'a' <= c <= 'z' || 'A' <= c <= 'Z'
  }

  /** A generated id starts with a letter exactly when its type does, or is empty. */
  lemma StartsWithLetterIff(kind: string, n: nat)
    ensures IsLetter(ElementId(kind, n)[0]) <==> kind == "" || IsLetter(kind[0])
  {
    var part := TypePart(kind, n);
    assert part != "" && ElementId(kind, n)[0] == part[0];
    assert kind != "" ==> part[0] == kind[0];
    assert "element"[0] == 'e';
  }

  /** A type that starts with a digit makes an id that does. */
  lemma DigitFirst()
    ensures ElementId("9", 1) == "9_1" && !IsLetter(ElementId("9", 1)[0])
  {
    assert Decimal(1) == [Digit(1)] == "1";
    assert TypePart("9", 1) == "9";
  }

  // ---------------------------------------------------------------- length

  lemma {:induction false} DecimalLength(n: nat, d: nat)
    requires d >= 1
    ensures |Decimal(n)| <= d <==> n < Pow10(d)
    decreases d
  {
    if d == 1 {
      assert Pow10(1) == 10 * Pow10(0);
      if n >= 10 { assert |Decimal(n / 10)| >= 1; }
    } else if n < 10 {
      Pow10Grows(d);
    } else {
      DecimalLength(n / 10, d - 1);
      assert n / 10 < Pow10(d - 1) <==> n < 10 * Pow10(d - 1);
    }
  }

  lemma Pow10Grows(d: nat)
    requires d >= 1
    ensures Pow10(d) >= 10
  {
    if d > 1 { Pow10Grows(d - 1); }
  }

  /** The 20-character rule: when exactly a generated id keeps it. */
  lemma GeneratedIdLength(kind: string, n: nat)
    ensures kind == "" ==> (|ElementId(kind, n)| <= 20 <==> n < Pow10(12))
    ensures |kind| == 1 ==> (|ElementId(kind, n)| <= 20 <==> n < Pow10(18))
    ensures kind != "" && n < Pow10(18) ==> |ElementId(kind, n)| <= 20
    ensures kind != "" && n >= Pow10(18) ==> |ElementId(kind, n)| > 20
  {
    DecimalLength(n, 12);
    DecimalLength(n, 18);
    assert |"element"| == 7;
    assert |ElementId(kind, n)| == |TypePart(kind, n)| + 1 + |Decimal(n)|;
  }

  // ------------------------------------------------------------------- form

  /** The number a string of digits stands for. */
  function Value(s: string): int {
    if s == "" then 0 else 10 * Value(s[..|s| - 1]) + (s[|s| - 1] as int - '0' as int)
  }

  /** The digits are those of the number. */
  lemma {:induction false} DecimalValue(n: nat)
    ensures Value(Decimal(n)) == n
    ensures forall c <- Decimal(n) :: '0' <= c <= '9'
    ensures Decimal(n)[0] == '0' ==> n == 0
  {
    DigitValue(n % 10);
    if n >= 10 {
      DecimalValue(n / 10);
      assert Decimal(n)[..|Decimal(n)| - 1] == Decimal(n / 10);
    } else {
      assert Decimal(n)[..0] == "";
    }
  }

  lemma DigitValue(d: nat)
    requires d < 10
    ensures '0' <= Digit(d) <= '9' && Digit(d) as int - '0' as int == d
    ensures Digit(d) == '0' ==> d == 0
  {
  }

  /**
   * A generated id is the type, an underscore and the number. A type is cut,
   * from the right and no more than it takes to come to 20 characters, only
   * when the whole would be longer.
   */
  lemma TypeIsKept(kind: string, n: nat)
    requires kind != "" && n < Pow10(18)
    ensures var whole := kind + "_" + Decimal(n);
            if |whole| <= 20 then ElementId(kind, n) == whole
            else
              && |ElementId(kind, n)| == 20
              && ElementId(kind, n) == kind[..20 - |"_" + Decimal(n)|] + "_" + Decimal(n)
  {
    DecimalLength(n, 18);
  }
}
