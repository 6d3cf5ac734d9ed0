/**
 * Sequential document codes `PREFIX-YEAR[-MM]-NNNN` (bills, payments, invoices, advance
 * payments, refunds, customers). A new code takes the suffix of the last code in its scope
 * plus one, zero padded to four digits.
 */
module Codes {
  import opened Common
  import opened Text

  /** `f'{prefix}-{year}-'`: the scope of PAY, INV, ADV, REF and ISP codes. */
  function YearScope(prefix: string, year: int): string
  {
    prefix + "-" + IntToString(year) + "-"
  }

  /** `f'{prefix}-{year}-{month:02d}-'`: the scope of BILL codes. */
  function YearMonthScope(prefix: string, year: int, month: int): string
  {
    prefix + "-" + IntToString(year) + "-" + FormatPadded(month, 2) + "-"
  }

  /** `f'{scope}{n:04d}'`. */
  function FormatCode(scope: string, n: int): string
  {
    scope + FormatPadded(n, 4)
  }

  /** The numeric suffix of a code, `int(code.split('-')[-1])`; `None` where `int` raises. */
  function SuffixValue(code: string): Option<int>
  {
    ParseInt(AfterLast(code, '-'))
  }

  predicate InScope(code: string, scope: string)
  {
    StartsWith(code, scope)
  }

  /** The codes of a table that lie in a scope (`filter(code__startswith=scope)`), in table order. */
  function Scoped(codes: seq<string>, scope: string): (r: seq<string>)
    ensures forall c :: c in r <==> c in codes && InScope(c, scope)
  {
    if codes == [] then []
    else
      var last := codes[|codes| - 1];
      assert codes == codes[..|codes| - 1] + [last];
      Scoped(codes[..|codes| - 1], scope) + (if InScope(last, scope) then [last] else [])
  }

  /** Python's `a < b` on strings: code-point lexicographic order. */
  predicate LexLess(a: string, b: string)
  {
    if a == [] then b != []
    else if b == [] then false
    else if a[0] != b[0] then a[0] < b[0]
    else LexLess(a[1..], b[1..])
  }

  lemma {:induction false} LexLessCommonPrefix(p: string, x: string, y: string)
    ensures LexLess(p + x, p + y) == LexLess(x, y)
    decreases |p|
  {
    if p == [] {
      assert p + x == x && p + y == y;
    } else {
      assert (p + x)[0] == (p + y)[0];
      assert (p + x)[1..] == p[1..] + x;
      assert (p + y)[1..] == p[1..] + y;
      LexLessCommonPrefix(p[1..], x, y);
    }
  }

  /** The first row of `order_by('-code')`: the lexicographically greatest code. */
  function LexGreatest(codes: seq<string>): (r: string)
    requires |codes| > 0
    ensures r in codes
  {
    if |codes| == 1 then codes[0]
    else
      var m := LexGreatest(codes[..|codes| - 1]);
      if LexLess(m, codes[|codes| - 1]) then codes[|codes| - 1] else m
  }

  /**
   * The next suffix as the source computes it: from the lexicographically greatest code in
   * the scope, or 1 for an empty scope. `None` is the ValueError of a non-numeric suffix.
   */
  function NextNumberAsWritten(codes: seq<string>, scope: string): Option<int>
  {
    NextAfterGreatest(Scoped(codes, scope))
  }

  /** One more than the suffix of the greatest of the scoped codes `s`, or 1 when `s` is empty. */
  function NextAfterGreatest(s: seq<string>): Option<int>
  {
    if s == [] then Some(1)
    else match SuffixValue(LexGreatest(s))
      case None => None
      case Some(v) => Some(v + 1)
  }

  /** The largest numeric suffix among the codes of a scope, and 0 when there is none. */
  function MaxSuffix(codes: seq<string>, scope: string): (m: int)
    ensures m >= 0
    ensures forall c :: c in codes && InScope(c, scope) && SuffixValue(c).Some? ==> SuffixValue(c).value <= m
  {
    if codes == [] then 0
    else
      var rest := MaxSuffix(codes[..|codes| - 1], scope);
      var c := codes[|codes| - 1];
      assert codes == codes[..|codes| - 1] + [c];
      if InScope(c, scope) && SuffixValue(c).Some? && SuffixValue(c).value > rest then SuffixValue(c).value
      else rest
  }

  /**
   * The next suffix by numeric order: one more than the largest suffix in the scope, so the
   * new code can never repeat an existing one. Non-numeric suffixes are passed over.
   */
  function NextNumber(codes: seq<string>, scope: string): (n: int)
    ensures n >= 1
    ensures forall c :: c in codes && InScope(c, scope) && SuffixValue(c).Some? ==> SuffixValue(c).value < n
  {
    MaxSuffix(codes, scope) + 1
  }

  /** The suffix of a freshly formatted code reads back as its number. */
  lemma SuffixOfFormatCode(scope: string, n: nat)
    requires |scope| > 0 && scope[|scope| - 1] == '-'
    ensures InScope(FormatCode(scope, n), scope)
    ensures SuffixValue(FormatCode(scope, n)) == Some(n)
  {
    var t := FormatPadded(n, 4);
    FormatPaddedRoundTrip(n, 4);
    assert '-' !in t by {
      forall i | 0 <= i < |t| ensures t[i] != '-' { assert IsDigit(t[i]); }
    }
    AfterLastOfSuffix(scope, '-', t);
    assert t != [] by { assert |NatToString(n)| >= 1; }
    assert FormatCode(scope, n)[..|scope|] == scope;
  }

  /** The numbering rule never hands out a code that already exists. */
  lemma NextCodeIsFresh(codes: seq<string>, scope: string)
    requires |scope| > 0 && scope[|scope| - 1] == '-'
    ensures FormatCode(scope, NextNumber(codes, scope)) !in codes
  {
    var n := NextNumber(codes, scope);
    SuffixOfFormatCode(scope, n);
  }

  /**
   * As written, once a scope holds `…-9999` and `…-10000` the lexicographic maximum is still
   * `…-9999` (because "9999" > "10000" as strings), so the next code is `…-10000` again.
   */
  lemma AsWrittenRepeatsAfter9999(scope: string)
    requires |scope| > 0 && scope[|scope| - 1] == '-'
    ensures var codes := [FormatCode(scope, 9999), FormatCode(scope, 10000)];
      NextNumberAsWritten(codes, scope) == Some(10000) && FormatCode(scope, 10000) in codes
  {
    var a, b := FormatCode(scope, 9999), FormatCode(scope, 10000);
    var codes := [a, b];
    SuffixOfFormatCode(scope, 9999);
    SuffixOfFormatCode(scope, 10000);
    ScopedPair(a, b, scope);
    LexGreatestAfter9999(scope);
  }

  lemma ScopedPair(a: string, b: string, scope: string)
    requires InScope(a, scope) && InScope(b, scope)
    ensures Scoped([a, b], scope) == [a, b]
  {
    assert [a][..0] == [];
    assert Scoped([a], scope) == [a];
    assert [a, b][..1] == [a];
  }

  lemma Render9999()
    ensures FormatPadded(9999, 4) == "9999"
  {
    assert NatToString(9) == "9";
    assert NatToString(99) == "99";
    assert NatToString(999) == "999";
    assert NatToString(9999) == "9999";
  }

  lemma Render10000()
    ensures FormatPadded(10000, 4) == "10000"
  {
    assert NatToString(1) == "1";
    assert NatToString(10) == "10";
    assert NatToString(100) == "100";
    assert NatToString(1000) == "1000";
    assert NatToString(10000) == "10000";
  }

  lemma LexGreatestAfter9999(scope: string)
    ensures LexGreatest([FormatCode(scope, 9999), FormatCode(scope, 10000)]) == FormatCode(scope, 9999)
  {
    var a, b := FormatCode(scope, 9999), FormatCode(scope, 10000);
    Render9999();
    Render10000();
    LexLessCommonPrefix(scope, "9999", "10000");
    assert !LexLess("9999", "10000");
    assert !LexLess(a, b);
    assert [a, b][..1] == [a];
  }

  /** On a lone code in the scope with a numeric suffix, both rules give that suffix plus one. */
  lemma RulesAgreeOnSingle(c: string, scope: string, k: nat)
    requires InScope(c, scope) && SuffixValue(c) == Some(k)
    ensures NextNumberAsWritten([c], scope) == Some(k + 1)
    ensures NextNumber([c], scope) == k + 1
  {
    ScopedSingle(c, scope);
    MaxSuffixSingle(c, scope, k);
    assert LexGreatest([c]) == c;
  }

  lemma ScopedSingle(c: string, scope: string)
    requires InScope(c, scope)
    ensures Scoped([c], scope) == [c]
  {
    assert [c][..0] == [];
  }

  lemma MaxSuffixSingle(c: string, scope: string, k: nat)
    requires InScope(c, scope) && SuffixValue(c) == Some(k)
    ensures MaxSuffix([c], scope) == k
  {
    assert [c][..0] == [];
  }

  /** Below the threshold the two rules agree on a lone existing code. */
  lemma AsWrittenAgreesOnSingleCode(scope: string, k: nat)
    requires |scope| > 0 && scope[|scope| - 1] == '-'
    ensures NextNumberAsWritten([FormatCode(scope, k)], scope) == Some(k + 1)
    ensures NextNumber([FormatCode(scope, k)], scope) == k + 1
  {
    SuffixOfFormatCode(scope, k);
    RulesAgreeOnSingle(FormatCode(scope, k), scope, k);
  }

  // ---------------------------------------------------------------- where the two rules agree

  function Pow10(k: nat): (p: nat)
    ensures p >= 1
  {
    if k == 0 then 1 else 10 * Pow10(k - 1)
  }

  /** A string of k digits reads as a number below 10^k. */
  lemma {:induction false} ParseDigitsBound(s: string)
    requires AllDigits(s)
    ensures ParseDigits(s) < Pow10(|s|)
    decreases |s|
  {
    if s != [] {
      ParseDigitsBound(s[..|s| - 1]);
    }
  }

  /** A digit string read from the front: its first digit weighs 10^(k-1). */
  lemma {:induction false} ParseDigitsFront(s: string)
    requires AllDigits(s) && s != []
    ensures ParseDigits(s) == DigitValue(s[0]) * Pow10(|s| - 1) + ParseDigits(s[1..])
    decreases |s|
  {
    if |s| == 1 {
      assert s[..0] == [] && s[1..] == [];
    } else {
      var init := s[..|s| - 1];
      ParseDigitsFront(init);
      assert init[0] == s[0];
      assert s[1..][..|s| - 2] == init[1..];
      var d, p := DigitValue(s[0]), Pow10(|s| - 2);
      var r, l := ParseDigits(init[1..]), DigitValue(s[|s| - 1]);
      assert ParseDigits(s) == ParseDigits(init) * 10 + l;
      assert ParseDigits(s[1..]) == r * 10 + l;
      FrontStep(d, p, r, l);
    }
  }

  lemma FrontStep(d: int, p: int, r: int, l: int)
    ensures (d * p + r) * 10 + l == d * (10 * p) + (r * 10 + l)
  {
    assert (d * p) * 10 == d * (10 * p);
  }

  /** A smaller leading digit outweighs whatever follows it. */
  lemma LeadingDigitDecides(da: nat, db: nat, ra: nat, rb: nat, p: nat)
    requires da < db && ra < p
    ensures da * p + ra < db * p + rb
  {
    assert (da + 1) * p == da * p + p;
    assert (da + 1) * p <= db * p;
  }

  /** On digit strings of equal length, string order is numeric order. */
  lemma {:induction false} DigitOrder(a: string, b: string)
    requires AllDigits(a) && AllDigits(b) && |a| == |b|
    ensures LexLess(a, b) <==> ParseDigits(a) < ParseDigits(b)
    decreases |a|
  {
    if a != [] {
      ParseDigitsFront(a);
      ParseDigitsFront(b);
      var da, db, p := DigitValue(a[0]), DigitValue(b[0]), Pow10(|a| - 1);
      var ra, rb := ParseDigits(a[1..]), ParseDigits(b[1..]);
      if a[0] == b[0] {
        DigitOrder(a[1..], b[1..]);
      } else if a[0] < b[0] {
        ParseDigitsBound(a[1..]);
        LeadingDigitDecides(da, db, ra, rb, p);
      } else {
        ParseDigitsBound(b[1..]);
        LeadingDigitDecides(db, da, rb, ra, p);
      }
    }
  }

  /** A code of the scope with exactly four digits after it, as `{n:04d}` writes every n up to 9999. */
  predicate FourDigit(c: string, scope: string)
  {
    |c| == |scope| + 4 && c[..|scope|] == scope && AllDigits(c[|scope|..])
  }

  lemma FourDigitSuffix(c: string, scope: string)
    requires |scope| > 0 && scope[|scope| - 1] == '-' && FourDigit(c, scope)
    ensures SuffixValue(c) == Some(ParseDigits(c[|scope|..]))
  {
    var t := c[|scope|..];
    assert c == scope + t;
    assert '-' !in t by {
      forall i | 0 <= i < |t| ensures t[i] != '-' { assert IsDigit(t[i]); }
    }
    AfterLastOfSuffix(scope, '-', t);
  }

  /** On four-digit codes of one scope, string order is the order of their suffixes. */
  lemma FourDigitOrder(a: string, b: string, scope: string)
    requires |scope| > 0 && scope[|scope| - 1] == '-' && FourDigit(a, scope) && FourDigit(b, scope)
    ensures LexLess(a, b) <==> SuffixValue(a).value < SuffixValue(b).value
  {
    FourDigitSuffix(a, scope);
    FourDigitSuffix(b, scope);
    assert a == scope + a[|scope|..] && b == scope + b[|scope|..];
    LexLessCommonPrefix(scope, a[|scope|..], b[|scope|..]);
    DigitOrder(a[|scope|..], b[|scope|..]);
  }

  lemma {:induction false} NatToStringLength(n: nat, k: nat)
    requires k >= 1 && n < Pow10(k)
    ensures |NatToString(n)| <= k
    decreases n
  {
    if n >= 10 {
      NatToStringLength(n / 10, k - 1);
    }
  }

  /** Every number up to 9999 is written with exactly four digits. */
  lemma FormatCodeFourDigit(scope: string, n: nat)
    requires n <= 9999
    ensures FourDigit(FormatCode(scope, n), scope)
  {
    NatToStringLength(n, 4);
    FormatPaddedRoundTrip(n, 4);
    var c := FormatCode(scope, n);
    assert c[|scope|..] == FormatPadded(n, 4);
  }

  /**
   * While every code of the scope has four digits, the lexicographically greatest code
   * carries the largest suffix.
   */
  lemma {:induction false} GreatestCarriesMax(codes: seq<string>, scope: string)
    requires |scope| > 0 && scope[|scope| - 1] == '-'
    requires forall c :: c in codes && InScope(c, scope) ==> FourDigit(c, scope)
    ensures Scoped(codes, scope) == [] ==> MaxSuffix(codes, scope) == 0
    ensures Scoped(codes, scope) != [] ==> SuffixValue(LexGreatest(Scoped(codes, scope))) == Some(MaxSuffix(codes, scope))
    decreases |codes|
  {
    if codes != [] {
      var init, c := codes[..|codes| - 1], codes[|codes| - 1];
      assert forall x :: x in init ==> x in codes;
      GreatestCarriesMax(init, scope);
      assert codes == init + [c];
      if InScope(c, scope) {
        GreatestStep(init, c, scope);
      } else {
        assert Scoped(codes, scope) == Scoped(init, scope);
        assert MaxSuffix(codes, scope) == MaxSuffix(init, scope);
      }
    }
  }

  /** One more code of the scope: the greatest code and the largest suffix move together. */
  lemma GreatestStep(init: seq<string>, c: string, scope: string)
    requires |scope| > 0 && scope[|scope| - 1] == '-'
    requires forall x :: x in init && InScope(x, scope) ==> FourDigit(x, scope)
    requires InScope(c, scope) && FourDigit(c, scope)
    requires Scoped(init, scope) == [] ==> MaxSuffix(init, scope) == 0
    requires Scoped(init, scope) != [] ==> SuffixValue(LexGreatest(Scoped(init, scope))) == Some(MaxSuffix(init, scope))
    ensures var codes := init + [c];
      Scoped(codes, scope) != [] && SuffixValue(LexGreatest(Scoped(codes, scope))) == Some(MaxSuffix(codes, scope))
  {
    var codes := init + [c];
    assert codes[..|codes| - 1] == init && codes[|codes| - 1] == c;
    FourDigitSuffix(c, scope);
    var s0 := Scoped(init, scope);
    var sc := Scoped(codes, scope);
    assert sc == s0 + [c];
    if s0 != [] {
      assert sc[..|sc| - 1] == s0;
      var m := LexGreatest(s0);
      assert m in init && InScope(m, scope);
      FourDigitSuffix(m, scope);
      FourDigitOrder(m, c, scope);
    }
  }

  /**
   * While every code of the scope has four digits after it (as the first 9999 codes of a
   * scope do), the source's lexicographic rule gives the numeric rule's next number.
   */
  lemma AsWrittenAgreesBelow10000(codes: seq<string>, scope: string)
    requires |scope| > 0 && scope[|scope| - 1] == '-'
    requires forall c :: c in codes && InScope(c, scope) ==> FourDigit(c, scope)
    ensures NextNumberAsWritten(codes, scope) == Some(NextNumber(codes, scope))
  {
    GreatestCarriesMax(codes, scope);
    var m := MaxSuffix(codes, scope);
    NextNumberIs(codes, scope, m);
    AsWrittenIs(codes, scope, m);
  }

  lemma NextNumberIs(codes: seq<string>, scope: string, m: int)
    requires m == MaxSuffix(codes, scope)
    ensures NextNumber(codes, scope) == m + 1
  {
  }

  /** Where the lexicographically greatest code of a non-empty scope reads as `m`, the next number is `m + 1`. */
  lemma AsWrittenIs(codes: seq<string>, scope: string, m: int)
    requires Scoped(codes, scope) == [] ==> m == 0
    requires Scoped(codes, scope) != [] ==> SuffixValue(LexGreatest(Scoped(codes, scope))) == Some(m)
    ensures NextNumberAsWritten(codes, scope) == Some(m + 1)
  {
    NextAfterGreatestIs(Scoped(codes, scope), m);
  }

  lemma NextAfterGreatestIs(s: seq<string>, m: int)
    requires s == [] ==> m == 0
    requires s != [] ==> SuffixValue(LexGreatest(s)) == Some(m)
    ensures NextAfterGreatest(s) == Some(m + 1)
  {
  }
}
