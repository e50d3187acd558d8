/**
 * Text handling used when reading an `-axis index spec` argument:
 * the search for ':', strip(), lowercase(), std::stoi and the
 * comma-separated integer list read by parse_ints, plus the decimal
 * rendering of an integer used to state round trips.
 */
module SpecText {
  import opened Wrappers

  /** Range of a 32-bit `int`, the result type of std::stoi and parse_ints. */
  const IntMin: int := -0x8000_0000
  const IntMax: int := 0x7fff_ffff

  predicate InIntRange(n: int) {
    IntMin <= n <= IntMax
  }

  /** White space as std::isspace sees it in the C locale. */
  predicate IsSpace(c: char) {
    c == ' ' || c == '\t' || c == '\n' || c == '\r' || c == '\U{B}' || c == '\U{C}'
  }

  /** Characters removed by strip() at both ends of a token. */
  predicate IsStripChar(c: char) {
    c == ' ' || c == '\t' || c == '\r' || c == '\n' || c == '\0'
  }

  predicate IsDigit(c: char) {
    '0' <= c <= '9'
  }

  predicate AllDigits(s: string) {
    forall i :: 0 <= i < |s| ==> IsDigit(s[i])
  }

  function DigitValue(c: char): nat
    requires IsDigit(c)
  {
    (c as int) - ('0' as int)
  }

  function DigitChar(d: nat): (c: char)
    requires d < 10
    ensures IsDigit(c) && DigitValue(c) == d
  {
    (('0' as int) + d) as char
  }

  /** Index of the first occurrence of `c` in `s` (std::string::find_first_of with one character). */
  function FindFirst(s: string, c: char): (r: Option<nat>)
    ensures r.Some? ==> r.value < |s| && s[r.value] == c
    ensures r.Some? ==> forall i :: 0 <= i < r.value ==> s[i] != c
    ensures r.None? <==> forall i :: 0 <= i < |s| ==> s[i] != c
  {
    if |s| == 0 then None
    else if s[0] == c then Some(0)
    else match FindFirst(s[1..], c)
      case None => None
      case Some(i) => Some(i + 1)
  }

  function StripLeft(s: string): string {
    if |s| > 0 && IsStripChar(s[0]) then StripLeft(s[1..]) else s
  }

  function StripRight(s: string): string {
    if |s| > 0 && IsStripChar(s[|s| - 1]) then StripRight(s[..|s| - 1]) else s
  }

  /** strip(): drop white space at both ends. */
  function Strip(s: string): string {
    StripRight(StripLeft(s))
  }

  function LowerChar(c: char): char {
    if 'A' <= c <= 'Z' then ((c as int) + 32) as char else c
  }

  /** lowercase(): ASCII upper-case letters to lower case. */
  function Lowercase(s: string): (r: string)
    ensures |r| == |s|
  {
    seq(|s|, i requires 0 <= i < |s| => LowerChar(s[i]))
  }

  /** The keyword `end` of the absolute form, in any letter case. */
  predicate IsEnd(token: string) {
    Lowercase(token) == "end"
  }

  function SkipSpaces(s: string): string {
    if |s| > 0 && IsSpace(s[0]) then SkipSpaces(s[1..]) else s
  }

  /** Length of the longest prefix of decimal digits. */
  function DigitRun(s: string): (n: nat)
    ensures n <= |s| && AllDigits(s[..n])
    ensures n < |s| ==> !IsDigit(s[n])
  {
    if |s| > 0 && IsDigit(s[0]) then 1 + DigitRun(s[1..]) else 0
  }

  /** Value of a string of decimal digits, most significant first. */
  function DigitsValue(ds: string): nat
    requires AllDigits(ds)
  {
    if |ds| == 0 then 0 else 10 * DigitsValue(ds[..|ds| - 1]) + DigitValue(ds[|ds| - 1])
  }

  predicate IsNegative(t: string) {
    |t| > 0 && t[0] == '-'
  }

  /** `t` without its leading sign, if it has one. */
  function Unsigned(t: string): string {
    if |t| > 0 && (t[0] == '-' || t[0] == '+') then t[1..] else t
  }

  function Signed(neg: bool, v: nat): int {
    var x: int := v;
    if neg then -x else x
  }

  /**
   * std::stoi: leading white space, an optional sign, then the longest
   * run of decimal digits, which must not be empty; anything after it is
   * ignored. A value outside the `int` range is an error (out_of_range).
   */
  function StoI(s: string): Option<int> {
    var t := SkipSpaces(s);
    var u := Unsigned(t);
    var n := DigitRun(u);
    if n == 0 then None
    else
      var x := Signed(IsNegative(t), DigitsValue(u[..n]));
      if InIntRange(x) then Some(x) else None
  }

  /** One token of an integer list: after strip(), an optional sign and at least one digit, nothing else. */
  function ParseToken(token: string): Option<int> {
    var t := Strip(token);
    var u := Unsigned(t);
    if |u| == 0 || !AllDigits(u) then None
    else
      var x := Signed(IsNegative(t), DigitsValue(u));
      if InIntRange(x) then Some(x) else None
  }

  /** The pieces of `s` between commas. */
  function SplitCommas(s: string): (parts: seq<string>)
    ensures |parts| >= 1
    decreases |s|
  {
    match FindFirst(s, ',')
    case None => [s]
    case Some(i) => [s[..i]] + SplitCommas(s[i + 1..])
  }

  function ParseTokens(tokens: seq<string>): Option<seq<int>> {
    if |tokens| == 0 then Some([])
    else
      var head, tail := ParseToken(tokens[0]), ParseTokens(tokens[1..]);
      if head.Some? && tail.Some? then Some([head.value] + tail.value) else None
  }

  /** parse_ints for a specifier without ':': a non-empty comma-separated list of integers. */
  function ParseInts(s: string): Option<seq<int>> {
    if |s| == 0 then None else ParseTokens(SplitCommas(s))
  }

  /** Decimal rendering of a natural number, without leading zeros. */
  function NatToString(n: nat): (s: string)
    ensures |s| >= 1 && AllDigits(s)
  {
    if n < 10 then [DigitChar(n)] else NatToString(n / 10) + [DigitChar(n % 10)]
  }

  /** Decimal rendering of an integer, with '-' for a negative one. */
  function IntToString(n: int): string {
    if n < 0 then "-" + NatToString(-n) else NatToString(n)
  }

  // ---------------------------------------------------------------- lemmas

  lemma {:induction false} DigitsValueOfNatToString(n: nat)
    ensures DigitsValue(NatToString(n)) == n
  {
    if n >= 10 {
      var s := NatToString(n);
      assert s[..|s| - 1] == NatToString(n / 10);
      DigitsValueOfNatToString(n / 10);
    }
  }

  lemma {:induction false} DigitRunOfDigits(s: string)
    requires AllDigits(s)
    ensures DigitRun(s) == |s|
  {
    if |s| > 0 {
      DigitRunOfDigits(s[1..]);
    }
  }

  /** No rendering of an integer contains a character other than '-' and digits. */
  lemma IntToStringChars(n: int)
    ensures |IntToString(n)| >= 1
    ensures forall i :: 0 <= i < |IntToString(n)| ==> IntToString(n)[i] == '-' || IsDigit(IntToString(n)[i])
    ensures !IsStripChar(IntToString(n)[0]) && !IsSpace(IntToString(n)[0])
    ensures !IsStripChar(IntToString(n)[|IntToString(n)| - 1])
  {
  }

  lemma StripOfIntToString(n: int)
    ensures Strip(IntToString(n)) == IntToString(n)
  {
    IntToStringChars(n);
  }

  lemma UnsignedOfIntToString(n: int)
    ensures Unsigned(IntToString(n)) == NatToString(if n < 0 then -n else n)
    ensures IsNegative(IntToString(n)) <==> n < 0
  {
    var s := NatToString(if n < 0 then -n else n);
    assert IsDigit(s[0]);
  }

  /** std::stoi reads back every `int` it is given in decimal. */
  lemma StoIOfIntToString(n: int)
    requires InIntRange(n)
    ensures StoI(IntToString(n)) == Some(n)
  {
    IntToStringChars(n);
    var m: nat := if n < 0 then -n else n;
    UnsignedOfIntToString(n);
    DigitRunOfDigits(NatToString(m));
    DigitsValueOfNatToString(m);
    assert NatToString(m)[..|NatToString(m)|] == NatToString(m);
  }

  /** An integer-list token reads back every `int` rendered in decimal. */
  lemma ParseTokenOfIntToString(n: int)
    requires InIntRange(n)
    ensures ParseToken(IntToString(n)) == Some(n)
  {
    StripOfIntToString(n);
    UnsignedOfIntToString(n);
    DigitsValueOfNatToString(if n < 0 then -n else n);
  }

  lemma NoCharInIntToString(n: int, c: char)
    requires c != '-' && !IsDigit(c)
    ensures forall i :: 0 <= i < |IntToString(n)| ==> IntToString(n)[i] != c
  {
    IntToStringChars(n);
  }

  /** The first `c` in `p + [c] + q` is just after `p` when `p` holds none. */
  lemma FindFirstAfter(p: string, c: char, q: string)
    requires forall i :: 0 <= i < |p| ==> p[i] != c
    ensures FindFirst(p + [c] + q, c) == Some(|p|)
  {
    var s := p + [c] + q;
    assert s[|p|] == c;
    assert forall i :: 0 <= i < |p| ==> s[i] == p[i];
  }

  /** Splitting "a,b" at its comma gives back a and b. */
  lemma SplitCommasOfPair(sa: string, sb: string)
    requires forall i :: 0 <= i < |sa| ==> sa[i] != ','
    requires forall i :: 0 <= i < |sb| ==> sb[i] != ','
    ensures SplitCommas(sa + [','] + sb) == [sa, sb]
  {
    var s := sa + [','] + sb;
    FindFirstAfter(sa, ',', sb);
    assert s[..|sa|] == sa;
    assert s[|sa| + 1..] == sb;
    assert SplitCommas(sb) == [sb];
  }

  lemma ParseIntsOfTokens(sa: string, sb: string, a: int, b: int)
    requires forall i :: 0 <= i < |sa| ==> sa[i] != ','
    requires forall i :: 0 <= i < |sb| ==> sb[i] != ','
    requires ParseToken(sa) == Some(a) && ParseToken(sb) == Some(b)
    ensures ParseInts(sa + [','] + sb) == Some([a, b])
  {
    SplitCommasOfPair(sa, sb);
    assert |sa + [','] + sb| > 0;
    assert [sa, sb][1..] == [sb];
    assert [sb][1..] == [];
    assert ParseTokens([]) == Some([]);
    assert [b] + [] == [b];
    assert [a] + [b] == [a, b];
    assert ParseTokens([sb]) == Some([b]);
    assert ParseTokens([sa, sb]) == Some([a, b]);
  }

  /** parse_ints reads "a,b" back as the two integers a and b. */
  lemma ParseIntsOfPair(a: int, b: int)
    requires InIntRange(a) && InIntRange(b)
    ensures ParseInts(IntToString(a) + "," + IntToString(b)) == Some([a, b])
  {
    NoCharInIntToString(a, ',');
    NoCharInIntToString(b, ',');
    ParseTokenOfIntToString(a);
    ParseTokenOfIntToString(b);
    ParseIntsOfTokens(IntToString(a), IntToString(b), a, b);
    assert IntToString(a) + "," + IntToString(b) == IntToString(a) + [','] + IntToString(b);
  }
}
