/** The parts of Go's `strings` and `strconv` packages that the builders use. */
module Text {
  import opened Collections

  // ----- strings.TrimSpace -----

  /** Go's unicode.IsSpace. */
  predicate IsSpace(c: char) {
    || c in "\t\n\r \U{0B}\U{0C}\U{85}\U{A0}\U{1680}\U{2028}\U{2029}\U{202F}\U{205F}\U{3000}"
    || '\U{2000}' <= c <= '\U{200A}'
  }

  function TrimLeft(s: string): string {
    if s != "" && IsSpace(s[0]) then TrimLeft(s[1..]) else s
  }

  function TrimRight(s: string): string {
    if s != "" && IsSpace(s[|s| - 1]) then TrimRight(s[..|s| - 1]) else s
  }

  function TrimSpace(s: string): string {
    TrimRight(TrimLeft(s))
  }

  lemma {:induction false} TrimLeftFacts(s: string)
    ensures var t := TrimLeft(s); |t| <= |s| && t == s[|s| - |t|..] && (t == "" || !IsSpace(t[0]))
    decreases |s|
  {
    if s != "" && IsSpace(s[0]) {
      TrimLeftFacts(s[1..]);
      var t := TrimLeft(s);
      assert s[1..][|s| - 1 - |t|..] == s[|s| - |t|..];
    }
  }

  lemma {:induction false} TrimRightFacts(s: string)
    ensures var t := TrimRight(s); |t| <= |s| && t == s[..|t|] && (t == "" || !IsSpace(t[|t| - 1]))
    decreases |s|
  {
    if s != "" && IsSpace(s[|s| - 1]) {
      TrimRightFacts(s[..|s| - 1]);
    }
  }

  lemma {:induction false} TrimLeftDropsSpace(s: string)
    ensures forall i :: 0 <= i < |s| - |TrimLeft(s)| ==> IsSpace(s[i])
    decreases |s|
  {
    if s != "" && IsSpace(s[0]) {
      TrimLeftDropsSpace(s[1..]);
      assert forall i :: 1 <= i < |s| ==> s[i] == s[1..][i - 1];
    }
  }

  lemma {:induction false} TrimRightDropsSpace(s: string)
    ensures forall i :: |TrimRight(s)| <= i < |s| ==> IsSpace(s[i])
    decreases |s|
  {
    if s != "" && IsSpace(s[|s| - 1]) {
      TrimRightDropsSpace(s[..|s| - 1]);
      assert forall i :: 0 <= i < |s| - 1 ==> s[i] == s[..|s| - 1][i];
    }
  }

  lemma CutTwice(s: string, u: string, t: string, n: nat)
    requires n <= |s| && u == s[n..] && |t| <= |u| && t == u[..|t|]
    requires forall i :: 0 <= i < n ==> IsSpace(s[i])
    requires forall i :: |t| <= i < |u| ==> IsSpace(u[i])
    ensures n + |t| <= |s| && s[n..n + |t|] == t
    ensures forall i :: 0 <= i < n || n + |t| <= i < |s| ==> IsSpace(s[i])
  {
    forall i | n + |t| <= i < |s| ensures IsSpace(s[i]) {
      assert s[i] == u[i - n];
    }
  }

  /** Trimming takes away space at both ends and nothing else ... */
  lemma TrimSpaceExact(s: string) returns (n: nat)
    ensures n + |TrimSpace(s)| <= |s| && s[n..n + |TrimSpace(s)|] == TrimSpace(s)
    ensures forall i :: 0 <= i < n || n + |TrimSpace(s)| <= i < |s| ==> IsSpace(s[i])
  {
    var u := TrimLeft(s);
    TrimLeftFacts(s);
    TrimRightFacts(u);
    TrimLeftDropsSpace(s);
    TrimRightDropsSpace(u);
    n := |s| - |u|;
    CutTwice(s, u, TrimSpace(s), n);
  }

  /** ... and leaves none there. */
  lemma TrimSpaceEnds(s: string)
    ensures var t := TrimSpace(s); t != "" ==> !IsSpace(t[0]) && !IsSpace(t[|t| - 1])
  {
    TrimLeftFacts(s);
    TrimRightFacts(TrimLeft(s));
  }

  lemma AsciiSpace(c: char)
    requires c as int < 128
    ensures IsSpace(c) <==> c as int in {9, 10, 11, 12, 13, 32}
  {
  }

  // ----- strings.ToLower -----

  /** Only ASCII letters are folded. The results are compared with "tcp", "udp", "https" and
      "h2c" alone, and no other character has a lower-case form that occurs in those words. */
  function ToLower(s: string): string {
    seq(|s|, i requires 0 <= i < |s| => if 'A' <= s[i] <= 'Z' then (s[i] as int + 32) as char else s[i])
  }

  const UPPER := "ABCDEFGHIJKLMNOPQRSTUVWXYZ"
  const LOWER := "abcdefghijklmnopqrstuvwxyz"

  lemma ToLowerLetter(s: string, i: nat, j: nat)
    requires i < |s| && j < 26 && s[i] == UPPER[j]
    ensures |ToLower(s)| == |s| && ToLower(s)[i] == LOWER[j]
  {
  }

  lemma UpperLetters(c: char)
    ensures c in UPPER <==> 'A' <= c <= 'Z'
  {
    if 'A' <= c <= 'Z' {
      assert UPPER[c as int - 'A' as int] == c;
    }
  }

  lemma ToLowerOther(s: string, i: nat)
    requires i < |s| && s[i] !in UPPER
    ensures |ToLower(s)| == |s| && ToLower(s)[i] == s[i]
  {
    UpperLetters(s[i]);
  }

  // ----- strings.Split and strings.Join on ',' -----

  function Split(s: string): (parts: seq<string>)
    ensures |parts| >= 1
    ensures forall i :: 0 <= i < |parts| ==> ',' !in parts[i]
  {
    if s == "" then [""]
    else
      var rest := Split(s[1..]);
      if s[0] == ',' then [""] + rest else [[s[0]] + rest[0]] + rest[1..]
  }

  function Join(parts: seq<string>): string {
    if |parts| == 0 then ""
    else if |parts| == 1 then parts[0]
    else parts[0] + "," + Join(parts[1..])
  }

  /** Cutting at a comma cuts the list of fields there. */
  lemma {:induction false} SplitAtComma(a: string, b: string)
    ensures Split(a + "," + b) == Split(a) + Split(b)
  {
    if a == "" {
      assert a + "," + b == "," + b;
      assert ("," + b)[1..] == b;
      assert Split("," + b) == [""] + Split(b);
    } else {
      var whole := a + "," + b;
      assert whole[1..] == a[1..] + "," + b;
      SplitAtComma(a[1..], b);
    }
  }

  lemma {:induction false} SplitWithoutComma(a: string)
    requires ',' !in a
    ensures Split(a) == [a]
  {
    if a != "" {
      SplitWithoutComma(a[1..]);
      assert [a[0]] + a[1..] == a;
    }
  }

  lemma {:induction false} SplitUndoesJoin(parts: seq<string>)
    requires |parts| >= 1
    requires forall i :: 0 <= i < |parts| ==> ',' !in parts[i]
    ensures Split(Join(parts)) == parts
  {
    SplitWithoutComma(parts[0]);
    if |parts| > 1 {
      SplitAtComma(parts[0], Join(parts[1..]));
      SplitUndoesJoin(parts[1..]);
    }
  }

  // ----- strings.ReplaceAll(s, ".", "-") -----

  function DotsToDashes(s: string): (r: string)
    ensures |r| == |s|
    ensures forall i :: 0 <= i < |s| ==> r[i] == if s[i] == '.' then '-' else s[i]
  {
    if s == "" then "" else DotsToDashes(s[..|s| - 1]) + [if s[|s| - 1] == '.' then '-' else s[|s| - 1]]
  }

  // ----- strconv.Itoa and strconv.Atoi -----

  predicate IsDigit(c: char) {
    '0' <= c <= '9'
  }

  function Digit(n: nat): (c: char)
    requires n < 10
    ensures IsDigit(c)
  {
    (n + '0' as int) as char
  }

  function Digits(n: nat): (s: string)
    ensures |s| >= 1
    ensures forall i :: 0 <= i < |s| ==> IsDigit(s[i])
  {
    if n < 10 then [Digit(n)] else Digits(n / 10) + [Digit(n % 10)]
  }

  function Itoa(n: int): string {
    if n < 0 then "-" + Digits(-n) else Digits(n)
  }

  function DigitValue(c: char): nat
    requires IsDigit(c)
  {
    c as int - '0' as int
  }

  predicate AllDigits(s: string) {
    forall i :: 0 <= i < |s| ==> IsDigit(s[i])
  }

  function DigitsValue(s: string): nat
    requires AllDigits(s)
  {
    if s == "" then 0
    else 10 * DigitsValue(s[..|s| - 1]) + DigitValue(s[|s| - 1])
  }

  const MAX_INT: int := 0x7FFF_FFFF_FFFF_FFFF
  const MIN_INT: int := -0x8000_0000_0000_0000

  /** Base ten, optional sign, at least one digit, nothing else, and within 64 bits. */
  function Atoi(s: string): (r: Option<int>) {
    var body := if s != "" && (s[0] == '-' || s[0] == '+') then s[1..] else s;
    if body == "" || !AllDigits(body) then None
    else
      var v: int := DigitsValue(body);
      var n := if s[0] == '-' then -v else v;
      if MIN_INT <= n <= MAX_INT then Some(n) else None
  }

  lemma {:induction false} DigitsRoundTrip(n: nat)
    ensures DigitsValue(Digits(n)) == n
  {
    if n >= 10 {
      DigitsRoundTrip(n / 10);
      var s := Digits(n);
      assert s[..|s| - 1] == Digits(n / 10);
    } else {
      assert Digits(n)[..0] == "";
    }
  }

  lemma AtoiOfSigned(sign: string, n: int)
    requires sign == "" || sign == "-"
    requires 0 <= n <= if sign == "-" then -MIN_INT else MAX_INT
    ensures Atoi(sign + Digits(n)) == Some(if sign == "-" then -n else n)
  {
    var s := sign + Digits(n);
    DigitsRoundTrip(n);
    if sign == "" {
      assert s == Digits(n);
      assert IsDigit(s[0]);
    } else {
      assert s[0] == '-';
      assert s[1..] == Digits(n);
    }
  }

  /** Parsing a rendered number gives the number back. */
  lemma AtoiUndoesItoa(n: int)
    requires MIN_INT <= n <= MAX_INT
    ensures Atoi(Itoa(n)) == Some(n)
  {
    if n < 0 {
      AtoiOfSigned("-", -n);
    } else {
      AtoiOfSigned("", n);
      assert "" + Digits(n) == Digits(n);
    }
  }

  /** A number is rendered in decimal: digit by digit, most significant first, no leading zero. */
  lemma ItoaDecimal(n: nat, d: nat)
    requires d < 10
    ensures Itoa(d) == ["0123456789"[d]]
    ensures n > 0 ==> Itoa(10 * n + d) == Itoa(n) + Itoa(d) && Itoa(0 - n) == "-" + Itoa(n)
  {
    assert (10 * n + d) / 10 == n && (10 * n + d) % 10 == d;
  }

  /** Only an optional sign and digits are parsed. */
  lemma AtoiAccepts(s: string)
    requires Atoi(s).Some?
    ensures MIN_INT <= Atoi(s).value <= MAX_INT
    ensures s != "" && forall i :: 1 <= i < |s| ==> IsDigit(s[i])
    ensures IsDigit(s[0]) || (|s| > 1 && (s[0] == '-' || s[0] == '+'))
  {
    if s != "" && (s[0] == '-' || s[0] == '+') {
      assert AllDigits(s[1..]);
      assert forall i :: 1 <= i < |s| ==> s[i] == s[1..][i - 1];
    }
  }

  lemma ItoaIsTrimmed(n: int)
    ensures TrimSpace(Itoa(n)) == Itoa(n) && Itoa(n) != ""
  {
    var s := Itoa(n);
    assert forall c :: IsDigit(c) ==> !IsSpace(c);
    assert !IsSpace(s[0]) && !IsSpace(s[|s| - 1]);
  }

  lemma ItoaInjective(a: nat, b: nat)
    requires Itoa(a) == Itoa(b)
    ensures a == b
  {
    DigitsRoundTrip(a);
    DigitsRoundTrip(b);
  }

  // ----- splitting a key at its last dash -----

  /** A string is determined by what stands before and after its last dash. */
  lemma LastDashSplits(a: string, p: string, b: string, q: string)
    requires '-' !in p && '-' !in q
    requires a + "-" + p == b + "-" + q
    ensures a == b && p == q
  {
    var s, t := a + "-" + p, b + "-" + q;
    assert s[|a|] == '-' && t[|b|] == '-';
    assert forall i :: |a| < i < |s| ==> s[i] == p[i - |a| - 1];
    assert forall i :: |b| < i < |t| ==> t[i] == q[i - |b| - 1];
    assert |a| == |b|;
    assert a == s[..|a|] && b == t[..|b|];
    assert p == s[|a| + 1..] && q == t[|b| + 1..];
  }
}
