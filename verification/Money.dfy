/** Dollar amounts (formatMoney in internal/dispatch/template.go) and their reader in the dashboard. */
module Money {

  const MIN_INT64 := -0x8000_0000_0000_0000
  const MAX_INT64 := 0x7FFF_FFFF_FFFF_FFFF

  type Int64 = x: int | MIN_INT64 <= x <= MAX_INT64

  // ----- Decimal digits -----

  predicate IsDigit(c: char) { '0' <= c <= '9' }

  predicate AllDigits(s: string) { forall i :: 0 <= i < |s| ==> IsDigit(s[i]) }

  function DigitChar(d: nat): (c: char)
    requires d < 10
    ensures IsDigit(c) && (c as int) - ('0' as int) == d
  {
    ('0' as int + d) as char
  }

  function Digits(n: nat): (s: string)
    ensures s != "" && AllDigits(s) && ReadDigits(s) == n
    ensures n > 0 ==> s[0] != '0'
  {
    if n < 10 then
      assert [DigitChar(n)][..0] == "";
      [DigitChar(n)]
    else
      var s := Digits(n / 10) + [DigitChar(n % 10)];
      assert s[..|s| - 1] == Digits(n / 10);
      s
  }

  function ReadDigits(s: string): nat
    requires AllDigits(s)
  {
    if s == "" then 0 else 10 * ReadDigits(s[..|s| - 1]) + (s[|s| - 1] as int - '0' as int)
  }

  // ----- Grouping -----

  /** Commas every three characters, counted from the right. */
  function Grouped(s: string): string {
    if |s| <= 3 then s else Grouped(s[..|s| - 3]) + "," + s[|s| - 3..]
  }

  /** What is written after `i` characters when the current group starts at `start`. */
  function Written(s: string, start: nat, i: nat): string
    requires start <= i <= |s|
  {
    if start == 0 then s[..i] else Grouped(s[..start]) + "," + s[start..i]
  }

  method GroupDigits(s: string) returns (buf: string)
    ensures buf == Grouped(s)
  {
    hide Grouped, Written;
    buf := "";
    var rem := |s| % 3;
    ghost var start := 0;     // where the current group starts
    NothingWritten(s);
    for i := 0 to |s|
      invariant start <= i <= start + 3 && (start == 0 || (start - rem) % 3 == 0)
      invariant (start < i || i == 0) && (start == 0 ==> i <= (if rem == 0 then 3 else rem))
      invariant buf == Written(s, start, i)
    {
      if i > 0 && (i - rem) % 3 == 0 {
        GroupEnds(s, start, i);
        buf := buf + ",";
        start := i;
      }
      NextWritten(s, start, i);
      buf := buf + [s[i]];
    }
    if |s| > 0 { GroupEnds(s, start, |s|); }
    assert s[..|s|] == s;
  }

  lemma NothingWritten(s: string)
    ensures Written(s, 0, 0) == "" && (s == "" ==> Grouped(s) == "")
  {
  }

  lemma NextWritten(s: string, start: nat, i: nat)
    requires start <= i < |s|
    ensures Written(s, start, i + 1) == Written(s, start, i) + [s[i]]
  {
    assert s[start..i + 1] == s[start..i] + [s[i]];
    hide Grouped;
  }

  /** A full group: what is written is grouped, and a comma starts the next group. */
  lemma GroupEnds(s: string, start: nat, i: nat)
    requires start < i <= |s| && i <= start + 3 && (start > 0 ==> i == start + 3)
    ensures Grouped(s[..i]) == Written(s, start, i) && Written(s, i, i) == Written(s, start, i) + ","
  {
    if start > 0 {
      assert s[..i][..i - 3] == s[..start] && s[..i][i - 3..] == s[start..i];
    }
  }

  // ----- Formatting -----

  /** Rounds half away from zero. */
  function Round(f: real): int {
    if f >= 0.0 then (f + 0.5).Floor else -((-f + 0.5).Floor)
  }

  lemma RoundIsNearest(f: real)
    ensures -0.5 <= Round(f) as real - f <= 0.5
    ensures Round(f) as real - f == 0.5 ==> f >= 0.0
    ensures Round(f) as real - f == -0.5 ==> f < 0.0
    ensures Round(-f) == -Round(f)
  {
  }

  /** Negation of a 64-bit integer wraps around at the minimum. */
  function Negate(n: Int64): Int64 { if n == MIN_INT64 then n else -n }

  /** A signed integer in decimal. */
  function Decimal(n: int): string { if n < 0 then "-" + Digits(-n) else Digits(n) }

  function FormatInt(n: Int64): string {
    var magnitude := if n < 0 then Negate(n) else n;
    var result := "$" + Grouped(Decimal(magnitude));
    if n < 0 then "-" + result else result
  }

  /** Conversion to 64 bits; what an out-of-range number becomes is up to the platform. */
  function ToInt64(x: int, overflow: int -> Int64): Int64 {
    if MIN_INT64 <= x <= MAX_INT64 then x else overflow(x)
  }

  method FormatMoney(f: real, overflow: int -> Int64) returns (result: string)
    ensures result == FormatInt(ToInt64(Round(f), overflow))
  {
    var n := ToInt64(Round(f), overflow);
    var negative := n < 0;
    if negative { n := Negate(n); }
    var buf := GroupDigits(Decimal(n));
    result := "$" + buf;
    if negative { result := "-" + result; }
  }

  // ----- Reading back -----

  /** The text without dollar signs and commas. */
  function Strip(s: string): string {
    if s == "" then "" else
    var init, c := Strip(s[..|s| - 1]), s[|s| - 1];
    if c == '$' || c == ',' then init else init + [c]
  }

  /** An optionally signed decimal integer; anything else reads as 0. */
  function ReadInt(s: string): int {
    if s != "" && AllDigits(s) then ReadDigits(s)
    else if |s| > 1 && s[0] == '-' && AllDigits(s[1..]) then 0 - ReadDigits(s[1..])
    else 0
  }

  function ParseDealValue(s: string): int { ReadInt(Strip(s)) }

  lemma {:induction false} StripConcat(s: string, t: string)
    ensures Strip(s + t) == Strip(s) + Strip(t)
  {
    if t == "" {
      assert s + t == s;
    } else {
      var n := |t| - 1;
      assert (s + t)[..|s + t| - 1] == s + t[..n] && (s + t)[|s + t| - 1] == t[n];
      StripConcat(s, t[..n]);
    }
  }

  predicate Clean(s: string) { forall i :: 0 <= i < |s| ==> s[i] != '$' && s[i] != ',' }

  lemma {:induction false} StripClean(s: string)
    requires Clean(s)
    ensures Strip(s) == s
  {
    if s != "" {
      StripClean(s[..|s| - 1]);
      assert s == s[..|s| - 1] + [s[|s| - 1]];
    }
  }

  lemma {:induction false} StripGrouped(s: string)
    requires Clean(s)
    ensures Strip(Grouped(s)) == s
  {
    if |s| <= 3 {
      StripClean(s);
    } else {
      var head, tail := s[..|s| - 3], s[|s| - 3..];
      StripGrouped(head);
      StripClean(tail);
      StripConcat(Grouped(head) + ",", tail);
      StripConcat(Grouped(head), ",");
      StripOne(',');
      assert s == head + tail;
    }
  }

  lemma StripOne(c: char)
    requires c == ',' || c == '$'
    ensures Strip([c]) == ""
  {
  }

  /** Every group but the first has exactly three characters, the first has one to three. */
  lemma {:induction false} GroupsOfThree(s: string)
    requires s != "" && Clean(s)
    ensures var g := Grouped(s);
            forall i :: 0 <= i < |g| ==> (g[i] == ',' <==> (|g| - i) % 4 == 0)
    ensures Grouped(s) != "" && Grouped(s)[0] != ','
  {
    if |s| > 3 {
      var head, tail := s[..|s| - 3], s[|s| - 3..];
      assert Clean(head) && Clean(tail) && Grouped(s) == Grouped(head) + "," + tail;
      hide Grouped, Clean;
      GroupsOfThree(head);
      OneMoreGroup(Grouped(head), tail);
    }
  }

  lemma OneMoreGroup(h: string, tail: string)
    requires |tail| == 3 && Clean(tail)
    requires forall i :: 0 <= i < |h| ==> (h[i] == ',' <==> (|h| - i) % 4 == 0)
    ensures var g := h + "," + tail; forall i :: 0 <= i < |g| ==> (g[i] == ',' <==> (|g| - i) % 4 == 0)
  {
    var g := h + "," + tail;
    forall i | 0 <= i < |g| ensures g[i] == ',' <==> (|g| - i) % 4 == 0 {
      if i < |h| {
        assert g[i] == h[i];
        FourMore(|h| - i);
      } else if i > |h| {
        assert g[i] == tail[i - |h| - 1];
      }
    }
  }

  lemma FourMore(n: int)
    ensures (n + 4) % 4 == n % 4
  {
  }

  lemma DecimalClean(n: int)
    ensures Clean(Decimal(n))
  {
  }

  lemma FormattedStrips(n: Int64)
    ensures var d := Decimal(if n < 0 then Negate(n) else n); Strip(FormatInt(n)) == if n < 0 then "-" + d else d
  {
    var d := Decimal(if n < 0 then Negate(n) else n);
    DecimalClean(if n < 0 then Negate(n) else n);
    hide Digits, Grouped, Decimal, Negate, Clean, Strip;
    StripGrouped(d);
    StripConcat("$", Grouped(d));
    StripOne('$');
    assert "" + d == d;
    if n < 0 {
      StripConcat("-", "$" + Grouped(d));
      StripMinus();
    }
  }

  lemma StripMinus()
    ensures Strip("-") == "-"
  {
  }

  /** A comma stands before every third place from the right, and digits everywhere else. */
  predicate CommaPlaces(g: string) {
    forall i :: 0 <= i < |g| ==> if (|g| - i) % 4 == 0 then g[i] == ',' else IsDigit(g[i])
  }

  /** The digits of `m` without leading zeros, with a comma before every third digit from the right and nowhere else. */
  predicate IsAmount(g: string, m: nat) {
    && g != "" && g[0] != ',' && (m > 0 ==> g[0] != '0') && CommaPlaces(g)
    && AllDigits(Strip(g)) && ReadDigits(Strip(g)) == m
  }

  lemma {:induction false} GroupedKeeps(s: string)
    requires s != ""
    ensures Grouped(s) != "" && Grouped(s)[0] == s[0]
    ensures forall i :: 0 <= i < |Grouped(s)| ==> Grouped(s)[i] == ',' || Grouped(s)[i] in s
  {
    if |s| > 3 { GroupedKeeps(s[..|s| - 3]); }
  }

  lemma {:induction false} GroupedPlaces(d: string)
    requires d != "" && AllDigits(d)
    ensures CommaPlaces(Grouped(d)) && Grouped(d) != "" && Grouped(d)[0] == d[0] && d[0] != ','
            && Strip(Grouped(d)) == d
  {
    assert Clean(d) && (forall c :: c in d ==> IsDigit(c)) && d[0] in d && !IsDigit(',');
    GroupedKeeps(d);
    GroupsOfThree(d);
    StripGrouped(d);
    var g := Grouped(d);
    hide Grouped, Strip, IsDigit, AllDigits, Clean;
    forall i | 0 <= i < |g| ensures if (|g| - i) % 4 == 0 then g[i] == ',' else IsDigit(g[i]) {
      assert g[i] == ',' || g[i] in d;
    }
  }

  lemma {:induction false} GroupedIsAmount(m: nat)
    ensures IsAmount(Grouped(Digits(m)), m)
  {
    hide Grouped, Digits, Strip, ReadDigits, CommaPlaces, AllDigits;
    GroupedPlaces(Digits(m));
  }

  /** What is written: a dollar sign and the grouped digits, with the minus sign before the dollar sign; the smallest
      integer, whose negation wraps around, has a second minus sign after it. */
  lemma {:induction false} AmountText(n: Int64)
    ensures n >= 0 ==> exists g :: FormatInt(n) == "$" + g && IsAmount(g, n)
    ensures MIN_INT64 < n < 0 ==> exists g :: FormatInt(n) == "-$" + g && IsAmount(g, -n)
    ensures n == MIN_INT64 ==> "-$-" <= FormatInt(n)
  {
    hide Grouped, Digits, IsAmount;
    var k: int := n;
    if k >= 0 {
      GroupedIsAmount(k);
    } else if k > MIN_INT64 {
      GroupedIsAmount(-k);
      assert "-" + ("$" + Grouped(Digits(-k))) == "-$" + Grouped(Digits(-k));
    } else {
      var g := Grouped("-" + Digits(-k));
      GroupedKeeps("-" + Digits(-k));
      assert FormatInt(n) == "-" + ("$" + g) && ("-" + ("$" + g))[..3] == "-$-";
    }
  }

  /** Reading a formatted amount recovers the integer, for every 64-bit integer but the smallest, whose negation wraps
      around and puts a second sign inside. */
  lemma FormatRoundTripIff(n: Int64)
    ensures ParseDealValue(FormatInt(n)) == n <==> n != MIN_INT64
  {
    FormattedStrips(n);
    hide FormatInt, Digits, ReadInt, Strip;
    var k: int := n;
    if k < 0 {
      if n == MIN_INT64 { ReadDoubleSign(Digits(-k)); } else { ReadSigned(Digits(-k)); }
    } else {
      ReadPlain(Digits(k));
    }
  }

  lemma ReadPlain(d: string)
    requires d != "" && AllDigits(d)
    ensures ReadInt(d) == ReadDigits(d)
  {
  }

  lemma ReadSigned(d: string)
    requires d != "" && AllDigits(d)
    ensures ReadInt("-" + d) == 0 - ReadDigits(d)
  {
    assert ("-" + d)[1..] == d && ("-" + d)[0] == '-' && !IsDigit('-');
  }

  lemma ReadDoubleSign(d: string)
    ensures ReadInt("-" + ("-" + d)) == 0
  {
    var s := "-" + ("-" + d);
    assert s[1..] == "-" + d && s[1..][0] == '-' && s[0] == '-' && !IsDigit('-');
  }
}
