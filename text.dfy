/** The few pieces of Rust's `str` and integer-parsing API that the parsers
    rely on, written over `seq<char>`.  Indices are character indices, not
    Rust's byte indices: the two differ once non-ASCII text precedes a match.
    Every pattern the program searches for is ASCII, so the slices taken at
    those indices cut out the same characters, and every extracted substring
    and result agrees with the program's. */
module Text {
  import opened Wrappers

  type U8 = n: nat | n < 256

  const U8_MAX: nat := 255
  const U64_MAX: nat := 0xFFFF_FFFF_FFFF_FFFF
  /** `usize` on the 64-bit targets the programs run on. */
  const USIZE_MAX: nat := 0xFFFF_FFFF_FFFF_FFFF

  /** Rust's `char::is_whitespace`: the Unicode `White_Space` property. */
  predicate IsWhitespace(c: char)
  {
    || ('\t' <= c <= '\r') || c == ' ' || c == '\U{0085}' || c == '\U{00A0}'
    || c == '\U{1680}' || ('\U{2000}' <= c <= '\U{200A}') || c == '\U{2028}'
    || c == '\U{2029}' || c == '\U{202F}' || c == '\U{205F}' || c == '\U{3000}'
  }

  predicate IsDigit(c: char)
  {
    '0' <= c <= '9'
  }

  predicate AllWhitespace(s: string)
  {
    forall i :: 0 <= i < |s| ==> IsWhitespace(s[i])
  }

  predicate NoWhitespace(s: string)
  {
    forall i :: 0 <= i < |s| ==> !IsWhitespace(s[i])
  }

  predicate AllDigits(s: string)
  {
    forall i :: 0 <= i < |s| ==> IsDigit(s[i])
  }

  predicate StartsWith(s: string, p: string)
  {
    |p| <= |s| && s[..|p|] == p
  }

  predicate EndsWith(s: string, p: string)
  {
    |p| <= |s| && s[|s| - |p|..] == p
  }

  /** `p` occurs in `s` starting at position `i`. */
  predicate OccursAt(s: string, p: string, i: nat)
  {
    i + |p| <= |s| && s[i..i + |p|] == p
  }

  // ---------------------------------------------------------------------
  // find / rfind

  function FindFrom(s: string, p: string, i: nat): (r: Option<nat>)
    requires i <= |s|
    ensures r.Some? ==> i <= r.value && OccursAt(s, p, r.value)
    ensures r.Some? ==> forall j :: i <= j < r.value ==> !OccursAt(s, p, j)
    ensures r.None? ==> forall j :: i <= j <= |s| ==> !OccursAt(s, p, j)
    decreases |s| - i
  {
    if i + |p| > |s| then None
    else if s[i..i + |p|] == p then Some(i)
    else if i == |s| then None
    else FindFrom(s, p, i + 1)
  }

  /** `str::find`: the first position at which `p` occurs. */
  function Find(s: string, p: string): (r: Option<nat>)
    ensures r.Some? ==> OccursAt(s, p, r.value)
    ensures r.Some? ==> forall j :: 0 <= j < r.value ==> !OccursAt(s, p, j)
    ensures r.None? ==> forall j :: 0 <= j <= |s| ==> !OccursAt(s, p, j)
  {
    FindFrom(s, p, 0)
  }

  function RFindBelow(s: string, p: string, i: nat): (r: Option<nat>)
    requires i <= |s|
    ensures r.Some? ==> r.value <= i && OccursAt(s, p, r.value)
    ensures r.Some? ==> forall j :: r.value < j <= i ==> !OccursAt(s, p, j)
    ensures r.None? ==> forall j :: 0 <= j <= i ==> !OccursAt(s, p, j)
  {
    if i + |p| <= |s| && s[i..i + |p|] == p then Some(i)
    else if i == 0 then None
    else RFindBelow(s, p, i - 1)
  }

  /** `str::rfind`: the last position at which `p` occurs. */
  function RFind(s: string, p: string): (r: Option<nat>)
    ensures r.Some? ==> OccursAt(s, p, r.value)
    ensures r.Some? ==> forall j :: r.value < j <= |s| ==> !OccursAt(s, p, j)
    ensures r.None? ==> forall j :: 0 <= j <= |s| ==> !OccursAt(s, p, j)
  {
    RFindBelow(s, p, |s|)
  }

  lemma FindIsFirst(s: string, p: string, k: nat)
    requires OccursAt(s, p, k)
    requires forall j :: 0 <= j < k ==> !OccursAt(s, p, j)
    ensures Find(s, p) == Some(k)
  {
  }

  lemma RFindIsLast(s: string, p: string, k: nat)
    requires OccursAt(s, p, k)
    requires forall j :: k < j <= |s| ==> !OccursAt(s, p, j)
    ensures RFind(s, p) == Some(k)
  {
  }

  /** Appending text never moves the first occurrence found in a prefix. */
  lemma FindExtend(a: string, b: string, p: string)
    requires Find(a, p).Some?
    ensures Find(a + b, p) == Find(a, p)
  {
    var k := Find(a, p).value;
    assert (a + b)[k..k + |p|] == a[k..k + |p|];
    forall j | 0 <= j < k
      ensures !OccursAt(a + b, p, j)
    {
      if OccursAt(a + b, p, j) {
        assert (a + b)[j..j + |p|] == a[j..j + |p|];
        assert OccursAt(a, p, j);
      }
    }
    FindIsFirst(a + b, p, k);
  }

  /** A one-character pattern that does not occur in `a` is found right after `a`. */
  lemma FindCharAfter(a: string, c: char, b: string)
    requires c !in a
    ensures Find(a + [c] + b, [c]) == Some(|a|)
  {
    var s := a + [c] + b;
    assert s[|a|..|a| + 1] == [c];
    forall j | 0 <= j < |a|
      ensures !OccursAt(s, [c], j)
    {
      assert s[j] == a[j];
      assert s[j..j + 1][0] == s[j];
    }
    FindIsFirst(s, [c], |a|);
  }

  /** A one-character pattern that does not occur in `b` is found (last) right before `b`. */
  lemma RFindCharBefore(a: string, c: char, b: string)
    requires c !in b
    ensures RFind(a + [c] + b, [c]) == Some(|a|)
  {
    var s := a + [c] + b;
    assert s[|a|..|a| + 1] == [c];
    forall j | |a| < j <= |s|
      ensures !OccursAt(s, [c], j)
    {
      if j < |s| {
        assert s[j] == b[j - |a| - 1];
        assert s[j..j + 1][0] == s[j];
      }
    }
    RFindIsLast(s, [c], |a|);
  }

  /** A pattern written at the very end of a string is the last occurrence. */
  lemma RFindAtEnd(a: string, p: string)
    requires |p| > 0
    ensures RFind(a + p, p) == Some(|a|)
  {
    assert (a + p)[|a|..|a| + |p|] == p;
    RFindIsLast(a + p, p, |a|);
  }

  // ---------------------------------------------------------------------
  // trim and split_whitespace

  function TrimStart(s: string): (r: string)
    ensures |r| <= |s| && r == s[|s| - |r|..]
    ensures r == [] || !IsWhitespace(r[0])
    ensures AllWhitespace(s[..|s| - |r|])
  {
    if s != [] && IsWhitespace(s[0]) then
      var r := TrimStart(s[1..]);
      assert s[..|s| - |r|] == [s[0]] + s[1..][..|s| - 1 - |r|];
      WhitespaceCons(s[0], s[1..][..|s| - 1 - |r|]);
      r
    else s
  }

  function TrimEnd(s: string): (r: string)
    ensures |r| <= |s| && r == s[..|r|]
    ensures r == [] || !IsWhitespace(r[|r| - 1])
    ensures AllWhitespace(s[|r|..])
  {
    if s != [] && IsWhitespace(s[|s| - 1]) then
      var r := TrimEnd(s[..|s| - 1]);
      assert s[|r|..] == s[..|s| - 1][|r|..] + [s[|s| - 1]];
      WhitespaceSnoc(s[..|s| - 1][|r|..], s[|s| - 1]);
      r
    else s
  }

  lemma WhitespaceCons(c: char, s: string)
    requires IsWhitespace(c) && AllWhitespace(s)
    ensures AllWhitespace([c] + s)
  {
  }

  lemma WhitespaceSnoc(s: string, c: char)
    requires AllWhitespace(s) && IsWhitespace(c)
    ensures AllWhitespace(s + [c])
  {
  }

  /** `str::trim`: drops leading and trailing whitespace. */
  function Trim(s: string): (r: string)
    ensures r == [] || (!IsWhitespace(r[0]) && !IsWhitespace(r[|r| - 1]))
  {
    TrimEnd(TrimStart(s))
  }

  lemma {:induction false} TrimStartPadded(pad: string, x: string)
    requires AllWhitespace(pad)
    requires x == [] || !IsWhitespace(x[0])
    ensures TrimStart(pad + x) == x
    decreases |pad|
  {
    if pad != [] {
      assert (pad + x)[1..] == pad[1..] + x;
      TrimStartPadded(pad[1..], x);
    } else {
      assert pad + x == x;
    }
  }

  lemma {:induction false} TrimEndPadded(x: string, pad: string)
    requires AllWhitespace(pad)
    requires x == [] || !IsWhitespace(x[|x| - 1])
    ensures TrimEnd(x + pad) == x
    decreases |pad|
  {
    if pad != [] {
      assert (x + pad)[..|x + pad| - 1] == x + pad[..|pad| - 1];
      TrimEndPadded(x, pad[..|pad| - 1]);
    } else {
      assert x + pad == x;
    }
  }

  /** Trimming recovers a word surrounded by whitespace padding. */
  lemma TrimPadded(left: string, x: string, right: string)
    requires AllWhitespace(left) && AllWhitespace(right)
    requires x != [] && !IsWhitespace(x[0]) && !IsWhitespace(x[|x| - 1])
    ensures Trim(left + x + right) == x
  {
    assert left + x + right == left + (x + right);
    TrimStartPadded(left, x + right);
    TrimEndPadded(x, right);
  }

  /** Length of the leading run of non-whitespace characters. */
  function TokenLength(s: string): (n: nat)
    ensures n <= |s|
    ensures NoWhitespace(s[..n])
    ensures n == |s| || IsWhitespace(s[n])
  {
    if s == [] || IsWhitespace(s[0]) then 0
    else
      var n := 1 + TokenLength(s[1..]);
      assert s[..n] == [s[0]] + s[1..][..n - 1];
      n
  }

  /** `str::split_whitespace`: the maximal non-empty runs of non-whitespace. */
  function SplitWhitespace(s: string): (r: seq<string>)
    ensures forall k :: 0 <= k < |r| ==> r[k] != [] && NoWhitespace(r[k])
    decreases |s|
  {
    if s == [] then []
    else if IsWhitespace(s[0]) then SplitWhitespace(s[1..])
    else
      var n := TokenLength(s);
      [s[..n]] + SplitWhitespace(s[n..])
  }

  /** Tokens joined by single spaces. */
  function JoinSpaces(ts: seq<string>): string
  {
    if ts == [] then []
    else if |ts| == 1 then ts[0]
    else ts[0] + " " + JoinSpaces(ts[1..])
  }

  lemma {:induction false} TokenLengthOfWord(t: string, rest: string)
    requires NoWhitespace(t)
    requires rest == [] || IsWhitespace(rest[0])
    ensures TokenLength(t + rest) == |t|
    decreases |t|
  {
    if t == [] {
      assert t + rest == rest;
    } else {
      assert (t + rest)[1..] == t[1..] + rest;
      assert NoWhitespace(t[1..]) by {
        forall i | 0 <= i < |t[1..]| ensures !IsWhitespace(t[1..][i]) {
          assert t[1..][i] == t[i + 1];
        }
      }
      TokenLengthOfWord(t[1..], rest);
    }
  }

  lemma SplitLeadingWord(t: string, rest: string)
    requires t != [] && NoWhitespace(t)
    requires rest == [] || IsWhitespace(rest[0])
    ensures SplitWhitespace(t + rest) == [t] + SplitWhitespace(rest)
  {
    TokenLengthOfWord(t, rest);
    assert (t + rest)[..|t|] == t;
    assert (t + rest)[|t|..] == rest;
  }

  /** Splitting space-joined words gives the words back. */
  lemma {:induction false} SplitJoin(ts: seq<string>)
    requires forall k :: 0 <= k < |ts| ==> ts[k] != [] && NoWhitespace(ts[k])
    ensures SplitWhitespace(JoinSpaces(ts)) == ts
  {
    if ts == [] {
    } else if |ts| == 1 {
      SplitLeadingWord(ts[0], []);
      assert ts[0] + [] == ts[0];
    } else {
      var rest := JoinSpaces(ts[1..]);
      SplitJoin(ts[1..]);
      assert ts[0] + " " + rest == ts[0] + (" " + rest);
      SplitLeadingWord(ts[0], " " + rest);
      assert (" " + rest)[1..] == rest;
      assert ts == [ts[0]] + ts[1..];
    }
  }

  // ---------------------------------------------------------------------
  // Unsigned decimal numbers

  function DigitValue(c: char): nat
    requires IsDigit(c)
  {
    (c as int - '0' as int) as nat
  }

  function DigitChar(d: nat): (c: char)
    requires d < 10
    ensures IsDigit(c) && DigitValue(c) == d
  {
    ('0' as int + d) as char
  }

  /** The value of a string of decimal digits, most significant first. */
  function DigitsValue(s: string): nat
    requires AllDigits(s)
  {
    if s == [] then 0
    else DigitsValue(s[..|s| - 1]) * 10 + DigitValue(s[|s| - 1])
  }

  /** `str::parse` for an unsigned integer type whose largest value is `max`:
      an optional `+`, then one or more ASCII digits, denoting at most `max`.
      Leading zeros are allowed; `-`, blanks and an empty string are not. */
  function ParseUnsigned(s: string, max: nat): (r: Option<nat>)
    ensures r.Some? ==> r.value <= max
  {
    if s == [] then None
    else
      var digits := if s[0] == '+' then s[1..] else s;
      if digits == [] || !AllDigits(digits) then None
      else if DigitsValue(digits) > max then None
      else Some(DigitsValue(digits))
  }

  function ParseU8(s: string): (r: Option<U8>)
  {
    match ParseUnsigned(s, U8_MAX)
    case None => None
    case Some(n) => Some(n)
  }

  /** Decimal rendering of a natural number, as `format!("{}", n)` writes it. */
  function NatToDecimal(n: nat): (s: string)
    ensures s != [] && AllDigits(s)
    ensures s[0] != '+' && NoWhitespace(s)
  {
    if n < 10 then [DigitChar(n)]
    else NatToDecimal(n / 10) + [DigitChar(n % 10)]
  }

  lemma {:induction false} DecimalValue(n: nat)
    ensures DigitsValue(NatToDecimal(n)) == n
  {
    if n >= 10 {
      var s := NatToDecimal(n);
      assert s[..|s| - 1] == NatToDecimal(n / 10);
      DecimalValue(n / 10);
    }
  }

  /** Parsing the decimal form of a number that fits gives the number back. */
  lemma ParseDecimal(n: nat, max: nat)
    requires n <= max
    ensures ParseUnsigned(NatToDecimal(n), max) == Some(n)
  {
    DecimalValue(n);
  }

  lemma ParseDecimalU8(n: U8)
    ensures ParseU8(NatToDecimal(n)) == Some(n)
  {
    ParseDecimal(n, U8_MAX);
  }

  /** A number above `max` never parses, whatever its spelling. */
  lemma ParseDecimalTooLarge(n: nat, max: nat)
    requires n > max
    ensures ParseUnsigned(NatToDecimal(n), max) == None
  {
    DecimalValue(n);
  }
}
