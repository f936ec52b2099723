/**
  The string operations the operator takes from Go's `strings` and `strconv` packages,
  on sequences of characters.
 */
module Text {
  import opened Wrappers

  // ----- searching -----

  /** Position of the first `c` in `s`, or |s| when there is none. */
  function IndexOf(s: string, c: char): (i: nat)
    ensures i <= |s|
    ensures forall j :: 0 <= j < i ==> s[j] != c
    ensures i < |s| ==> s[i] == c
  {
    if s == "" || s[0] == c then 0 else 1 + IndexOf(s[1..], c)
  }

  /** Position of the last `c` in `s`, or |s| when there is none. */
  function LastIndexOf(s: string, c: char): (i: nat)
    ensures i <= |s|
    ensures i < |s| ==> s[i] == c && forall j :: i < j < |s| ==> s[j] != c
    ensures i == |s| ==> c !in s
  {
    if s == "" then 0
    else if s[|s| - 1] == c then |s| - 1
    else
      var i := LastIndexOf(s[..|s| - 1], c);
      if i == |s| - 1 then |s| else i
  }

  predicate OccursAt(s: string, p: string, i: nat) {
    i + |p| <= |s| && s[i..i + |p|] == p
  }

  /** Go's strings.Contains. */
  predicate Contains(s: string, p: string) {
    exists i | 0 <= i <= |s| :: OccursAt(s, p, i)
  }

  /** Position of the first occurrence of `p` at or after `from`, or |s| when there is none. */
  function FindFrom(s: string, p: string, from: nat): (i: nat)
    requires p != "" && from <= |s|
    ensures from <= i <= |s|
    ensures forall j :: from <= j < i ==> !OccursAt(s, p, j)
    ensures i < |s| ==> OccursAt(s, p, i)
    decreases |s| - from
  {
    if from == |s| || OccursAt(s, p, from) then from else FindFrom(s, p, from + 1)
  }

  function Find(s: string, p: string): (i: nat)
    requires p != ""
    ensures i <= |s|
    ensures forall j :: 0 <= j < i ==> !OccursAt(s, p, j)
    ensures i < |s| ==> OccursAt(s, p, i)
  {
    FindFrom(s, p, 0)
  }

  /** The first separator is found right after a prefix that does not contain it. */
  lemma IndexAfterPrefix(a: string, c: char, b: string)
    requires c !in a
    ensures IndexOf(a + [c] + b, c) == |a|
  {
    var s := a + [c] + b;
    assert s[|a|] == c;
    assert forall j :: 0 <= j < |a| ==> s[j] == a[j] && a[j] in a;
  }

  /** Splitting a text at its first separator. */
  lemma SplitFirst(s: string, a: string, c: char, b: string)
    requires s == a + [c] + b && c !in a
    ensures IndexOf(s, c) == |a| < |s| && s[..|a|] == a && s[|a| + 1..] == b
  {
    IndexAfterPrefix(a, c, b);
  }

  lemma DropPrefix(s: string, a: string, b: string)
    requires s == a + b
    ensures a <= s && s[..|a|] == a && s[|a|..] == b
  {
  }

  /** A separator inside a prefix is found there. */
  lemma IndexInsidePrefix(s: string, a: string, c: char)
    requires a <= s && c in a
    ensures IndexOf(s, c) < |a|
  {
    var i :| 0 <= i < |a| && a[i] == c;
    assert s[i] == c;
  }

  /** The last separator is the one that no later character repeats. */
  lemma LastIndexIsUnique(s: string, c: char, k: nat)
    requires k < |s| && s[k] == c && c !in s[k + 1..]
    ensures LastIndexOf(s, c) == k
  {
    assert c in s;
    forall j | k < j < |s| ensures s[j] != c {
      assert s[j] == s[k + 1..][j - k - 1];
    }
  }

  // ----- trimming and case -----

  /** Go's unicode.IsSpace. */
  predicate IsSpace(c: char) {
    || '\t' <= c <= '\r' || c == ' ' || c == '\U{85}' || c == '\U{A0}' || c == '\U{1680}'
    || '\U{2000}' <= c <= '\U{200A}' || c == '\U{2028}' || c == '\U{2029}'
    || c == '\U{202F}' || c == '\U{205F}' || c == '\U{3000}'
  }

  predicate AllSpaces(s: string) {
    forall i :: 0 <= i < |s| ==> IsSpace(s[i])
  }

  function TrimLeft(s: string): (r: string)
    ensures r == "" || !IsSpace(r[0])
    ensures |r| <= |s| && r == s[|s| - |r|..]
    ensures forall i :: 0 <= i < |s| - |r| ==> IsSpace(s[i])
  {
    if s == "" || !IsSpace(s[0]) then s else TrimLeft(s[1..])
  }

  function TrimRight(s: string): (r: string)
    ensures r == "" || !IsSpace(r[|r| - 1])
    ensures |r| <= |s| && r == s[..|r|]
    ensures forall i :: |r| <= i < |s| ==> IsSpace(s[i])
  {
    if s == "" || !IsSpace(s[|s| - 1]) then s else TrimRight(s[..|s| - 1])
  }

  /** Go's strings.TrimSpace. */
  function TrimSpace(s: string): string {
    TrimRight(TrimLeft(s))
  }

  /** Spaces before a suffix, and after a prefix. */
  lemma SpacesBefore(s: string, r: string, before: string)
    requires |r| <= |s| && r == s[|s| - |r|..] && before == s[..|s| - |r|]
    requires forall i :: 0 <= i < |s| - |r| ==> IsSpace(s[i])
    ensures s == before + r && AllSpaces(before)
  {
  }

  lemma SpacesAfter(s: string, r: string, after: string)
    requires |r| <= |s| && r == s[..|r|] && after == s[|r|..]
    requires forall i :: |r| <= i < |s| ==> IsSpace(s[i])
    ensures s == r + after && AllSpaces(after)
  {
  }

  lemma Join3(a: string, b: string, c: string)
    ensures a + (b + c) == a + b + c
  {
  }

  /** Trimming yields a contiguous part of the text, with nothing but spaces around it. */
  lemma TrimSpaceIsPart(s: string) returns (before: string, after: string)
    ensures s == before + TrimSpace(s) + after && AllSpaces(before) && AllSpaces(after)
  {
    var left := TrimLeft(s);
    var middle := TrimRight(left);
    before, after := s[..|s| - |left|], left[|middle|..];
    SpacesBefore(s, left, before);
    SpacesAfter(left, middle, after);
    Join3(before, middle, after);
  }

  /** Trimming loses nothing but spaces. */
  lemma TrimSpaceKeeps(s: string, c: char)
    requires c in s && !IsSpace(c)
    ensures c in TrimSpace(s)
  {
    var i :| 0 <= i < |s| && s[i] == c;
    var l := TrimLeft(s);
    var k := |s| - |l|;
    assert l[i - k] == c;
    assert TrimRight(l)[i - k] == c;
  }

  /**
    Go's unicode.ToLower as far as it yields an ASCII letter: besides the capitals, the dotted capital
    I and the Kelvin sign do. Any other character stays outside ASCII, and is kept as it is here.
   */
  function LowerChar(c: char): char {
    if 'A' <= c <= 'Z' then (c as int + 32) as char
    else if c == '\U{130}' then 'i'
    else if c == '\U{212A}' then 'k'
    else c
  }

  /** Go's strings.ToLower, up to characters outside ASCII. */
  function ToLower(s: string): (r: string)
    ensures |r| == |s|
    ensures forall i :: 0 <= i < |s| ==> r[i] == LowerChar(s[i])
  {
    seq(|s|, i requires 0 <= i < |s| => LowerChar(s[i]))
  }

  // ----- decimal integers -----

  predicate IsDigit(c: char) {
    '0' <= c <= '9'
  }

  predicate AllDigits(s: string) {
    forall c | c in s :: IsDigit(c)
  }

  function DigitChar(d: nat): char
    requires d < 10
  {
    ('0' as int + d) as char
  }

  function Digits(n: nat): (r: string)
    ensures r != "" && AllDigits(r)
  {
    if n < 10 then [DigitChar(n)] else Digits(n / 10) + [DigitChar(n % 10)]
  }

  function DigitsValue(s: string): nat
    requires AllDigits(s)
  {
    if s == "" then 0
    else
      assert s[|s| - 1] in s;
      10 * DigitsValue(s[..|s| - 1]) + (s[|s| - 1] as int - '0' as int)
  }

  /** Go's strconv.Itoa and strconv.FormatInt(_, 10). */
  function Itoa(n: int): string {
    if n < 0 then "-" + Digits(-n) else Digits(n)
  }

  /** A signed decimal of any size. */
  function ParseInt(s: string): Option<int> {
    if s != "" && AllDigits(s) then Some(DigitsValue(s))
    else if |s| > 1 && s[0] == '-' && AllDigits(s[1..]) then var v: int := DigitsValue(s[1..]); Some(-v)
    else if |s| > 1 && s[0] == '+' && AllDigits(s[1..]) then Some(DigitsValue(s[1..]))
    else None
  }

  /** Go's strconv.Atoi on a 64-bit platform: a signed decimal that fits an int64. */
  function Atoi(s: string): (r: Option<int>)
    ensures r.Some? ==> -0x8000_0000_0000_0000 <= r.value < 0x8000_0000_0000_0000
  {
    var n := ParseInt(s);
    if n.Some? && -0x8000_0000_0000_0000 <= n.value < 0x8000_0000_0000_0000 then n else None
  }

  lemma {:induction false} DigitsValueOfDigits(n: nat)
    ensures DigitsValue(Digits(n)) == n
  {
    if n >= 10 {
      DigitsValueOfDigits(n / 10);
      var d := Digits(n);
      assert d[..|d| - 1] == Digits(n / 10);
    } else {
      var d := Digits(n);
      assert d[..|d| - 1] == "";
    }
  }

  /** Reading back a formatted integer yields that integer, for either sign. */
  lemma ParseIntOfItoa(n: int)
    ensures ParseInt(Itoa(n)) == Some(n)
  {
    if n < 0 {
      DigitsValueOfDigits(-n);
      var s := Itoa(n);
      assert s[1..] == Digits(-n);
      assert s[0] == '-' && !IsDigit(s[0]);
      assert s[0] in s;
    } else {
      DigitsValueOfDigits(n);
    }
  }

  /** So does Atoi, for every integer of 64 bits. */
  lemma AtoiOfItoa(n: int)
    requires -0x8000_0000_0000_0000 <= n < 0x8000_0000_0000_0000
    ensures Itoa(n) != "" && Atoi(Itoa(n)) == Some(n)
  {
    ParseIntOfItoa(n);
  }

  /** A formatted integer contains no separator used by the fingerprint text. */
  lemma ItoaCharacters(n: int)
    ensures forall c | c in Itoa(n) :: IsDigit(c) || c == '-'
    ensures '|' !in Itoa(n) && ':' !in Itoa(n)
  {
  }
}
