/** The string operations the three components lean on, with the meaning their
    host languages give them: TypeScript's `String.prototype.includes` and
    Python's `in` on strings (substring search), TypeScript's `a || b || c`
    over possibly-undefined strings, Python's `str.lower()`, `str.strip()` and
    the decimal formatting of an `int` inside an f-string. */
module Text {
  import opened Outcomes

  // ---------------------------------------------------------------------------
  // Substring search: `hay.includes(needle)` and `needle in hay`
  // ---------------------------------------------------------------------------

  /** `needle` occurs in `hay` starting at index `i`. */
  ghost predicate OccursAt(needle: string, hay: string, i: int)
  {
    0 <= i && i + |needle| <= |hay| && hay[i..i + |needle|] == needle
  }

  /** An occurrence in `hay[1..]` is an occurrence in `hay` one position later. */
  lemma OccursShift(needle: string, hay: string)
    requires hay != []
    ensures forall j :: 0 <= j ==> (OccursAt(needle, hay[1..], j) <==> OccursAt(needle, hay, j + 1))
  {
    forall j | 0 <= j
      ensures OccursAt(needle, hay[1..], j) <==> OccursAt(needle, hay, j + 1)
    {
      if 0 <= j && j + 1 + |needle| <= |hay| {
        assert hay[1..][j..j + |needle|] == hay[j + 1..j + 1 + |needle|];
      }
    }
  }

  /** The occurrences of `needle` in `hay` are the one at the front, if any,
      and those in `hay[1..]` moved one place. */
  lemma OccursSplit(needle: string, hay: string)
    requires hay != [] && |needle| <= |hay|
    ensures (exists i :: OccursAt(needle, hay, i))
        <==> hay[..|needle|] == needle || exists j :: OccursAt(needle, hay[1..], j)
  {
    OccursShift(needle, hay);
    if exists i :: OccursAt(needle, hay, i) {
      var i :| OccursAt(needle, hay, i);
      if i == 0 {
        assert hay[..|needle|] == hay[0..|needle|];
      } else {
        assert OccursAt(needle, hay[1..], i - 1);
      }
    }
    if hay[..|needle|] == needle {
      assert hay[0..0 + |needle|] == hay[..|needle|];
      assert OccursAt(needle, hay, 0);
    }
    if exists j :: OccursAt(needle, hay[1..], j) {
      var j :| OccursAt(needle, hay[1..], j);
      assert OccursAt(needle, hay, j + 1);
    }
  }

  /** Substring search, case-sensitive and position-independent. */
  function Contains(hay: string, needle: string): (r: bool)
    ensures r <==> exists i :: OccursAt(needle, hay, i)
    decreases |hay|
  {
    if |needle| > |hay| then false
    else if hay[..|needle|] == needle then
      assert OccursAt(needle, hay, 0) by {
        assert hay[0..0 + |needle|] == hay[..|needle|];
      }
      true
    else
      OccursSplit(needle, hay);
      Contains(hay[1..], needle)
  }

  // ---------------------------------------------------------------------------
  // TypeScript `a || b || fallback` over environment variables
  // ---------------------------------------------------------------------------

  /** A string that TypeScript's `||` keeps: defined and not empty. */
  predicate Truthy(v: Option<string>)
  {
    v.Some? && v.value != ""
  }

  /** No candidate before position `n` is kept by `||`. */
  predicate NoneTruthyBefore(candidates: seq<Option<string>>, n: nat)
    requires n <= |candidates|
  {
    forall j :: 0 <= j < n ==> !Truthy(candidates[j])
  }

  /** `candidates[0] || candidates[1] || ... || fallback`: the first defined,
      non-empty candidate wins, and the fallback only when there is none. */
  function FirstNonEmpty(candidates: seq<Option<string>>, fallback: string): (r: string)
    ensures forall i :: 0 <= i < |candidates| && Truthy(candidates[i]) && NoneTruthyBefore(candidates, i)
                        ==> r == candidates[i].value
    ensures NoneTruthyBefore(candidates, |candidates|) ==> r == fallback
    ensures r == fallback || exists i :: 0 <= i < |candidates| && Truthy(candidates[i]) && r == candidates[i].value
    decreases |candidates|
  {
    if candidates == [] then fallback
    else if Truthy(candidates[0]) then candidates[0].value
    else
      var rest := candidates[1..];
      assert forall i :: 0 < i < |candidates| ==> candidates[i] == rest[i - 1];
      assert forall i :: 0 < i <= |candidates| && NoneTruthyBefore(candidates, i) ==> NoneTruthyBefore(rest, i - 1);
      FirstNonEmpty(rest, fallback)
  }

  // ---------------------------------------------------------------------------
  // Python `str.lower()`
  // ---------------------------------------------------------------------------

  predicate IsUpper(c: char)
  {
    'A' <= c <= 'Z'
  }

  /** Lower-cases one character: 'A'..'Z' map to 'a'..'z', all else is kept. */
  function LowerChar(c: char): (r: char)
    ensures !IsUpper(r)
    ensures IsUpper(c) || r == c
  {
    if IsUpper(c) then (c as int + 32) as char else c
  }

  /** `s.lower()` on the ASCII range, character by character. */
  function Lower(s: string): (r: string)
    ensures |r| == |s|
    ensures forall i :: 0 <= i < |r| ==> !IsUpper(r[i])
    ensures forall i :: 0 <= i < |s| && !IsUpper(s[i]) ==> r[i] == s[i]
    ensures forall i :: 0 <= i < |s| && IsUpper(s[i]) ==> r[i] as int - 'a' as int == s[i] as int - 'A' as int
  {
    seq(|s|, i requires 0 <= i < |s| => LowerChar(s[i]))
  }

  /** Lower-casing twice is lower-casing once. */
  lemma LowerIdempotent(s: string)
    ensures Lower(Lower(s)) == Lower(s)
  {
  }

  // ---------------------------------------------------------------------------
  // Python `str.strip()`
  // ---------------------------------------------------------------------------

  /** The characters for which Python's `str.isspace()` holds, which are the
      ones `str.strip()` with no argument removes. */
  predicate IsSpace(c: char)
  {
    var n := c as int;
    (0x09 <= n <= 0x0D) || (0x1C <= n <= 0x20) || n == 0x85 || n == 0xA0 || n == 0x1680
    || (0x2000 <= n <= 0x200A) || n == 0x2028 || n == 0x2029 || n == 0x202F || n == 0x205F
    || n == 0x3000
  }

  /** `s.lstrip()`: the suffix of `s` left after its leading white space. */
  function TrimStart(s: string): (r: string)
    ensures |r| <= |s| && r == s[|s| - |r|..]
    ensures forall i :: 0 <= i < |s| - |r| ==> IsSpace(s[i])
    ensures r != [] ==> !IsSpace(r[0])
    decreases |s|
  {
    if s != [] && IsSpace(s[0]) then TrimStart(s[1..]) else s
  }

  /** `s.rstrip()`: the prefix of `s` left before its trailing white space. */
  function TrimEnd(s: string): (r: string)
    ensures |r| <= |s| && r == s[..|r|]
    ensures forall i :: |r| <= i < |s| ==> IsSpace(s[i])
    ensures r != [] ==> !IsSpace(r[|r| - 1])
    decreases |s|
  {
    if s != [] && IsSpace(s[|s| - 1]) then TrimEnd(s[..|s| - 1]) else s
  }

  /** `s.strip()`: never longer than `s`, and neither starting nor ending
      with white space. */
  function Strip(s: string): (r: string)
    ensures |r| <= |s|
    ensures r != [] ==> !IsSpace(r[0]) && !IsSpace(r[|r| - 1])
  {
    var t := TrimStart(s);
    var r := TrimEnd(t);
    assert r != [] ==> r[0] == t[0];
    r
  }

  /** The number of leading white-space characters `s.strip()` removes. */
  function StripOffset(s: string): (lo: nat)
    ensures lo + |Strip(s)| <= |s|
  {
    |s| - |TrimStart(s)|
  }

  /** `s.strip()` is a contiguous piece of `s`, and everything cut away on
      either side of it is white space. */
  lemma StripIsInfix(s: string)
    ensures Strip(s) == s[StripOffset(s)..StripOffset(s) + |Strip(s)|]
    ensures forall i :: 0 <= i < StripOffset(s) ==> IsSpace(s[i])
    ensures forall i :: StripOffset(s) + |Strip(s)| <= i < |s| ==> IsSpace(s[i])
  {
    var t := TrimStart(s);
    var r := TrimEnd(t);
    var lo := |s| - |t|;
    assert Strip(s) == r && StripOffset(s) == lo;
    assert r == s[lo..lo + |r|] by {
      assert t == s[lo..] && r == t[..|r|];
    }
    forall i | lo + |r| <= i < |s| ensures IsSpace(s[i]) {
      assert s[i] == t[i - lo];
    }
  }

  /** `s.strip()` is empty exactly when every character of `s` is white space. */
  lemma StripEmptyIffAllSpace(s: string)
    ensures Strip(s) == [] <==> forall i :: 0 <= i < |s| ==> IsSpace(s[i])
  {
    var t := TrimStart(s);
    if Strip(s) == [] {
      assert t == [];
    }
  }

  // ---------------------------------------------------------------------------
  // Decimal formatting of a non-negative integer (`f"{n}"`, `str(n)`)
  // ---------------------------------------------------------------------------

  predicate IsDigit(c: char)
  {
    '0' <= c <= '9'
  }

  predicate AllDigits(s: string)
  {
    forall i :: 0 <= i < |s| ==> IsDigit(s[i])
  }

  function DigitChar(d: nat): (c: char)
    requires d < 10
    ensures IsDigit(c)
  {
    ('0' as int + d) as char
  }

  function DigitValue(c: char): (d: nat)
    requires IsDigit(c)
    ensures d < 10 && DigitChar(d) == c
  {
    c as int - '0' as int
  }

  /** Python's decimal rendering of `n`: digits only, no leading zero. */
  function DecimalString(n: nat): (r: string)
    ensures r != [] && AllDigits(r)
    ensures |r| > 1 ==> r[0] != '0'
    decreases n
  {
    if n < 10 then [DigitChar(n)] else DecimalString(n / 10) + [DigitChar(n % 10)]
  }

  /** Reads a run of decimal digits back as a number (`int(s)`). */
  function ParseDecimal(s: string): nat
    requires AllDigits(s)
    decreases |s|
  {
    if s == [] then 0 else ParseDecimal(s[..|s| - 1]) * 10 + DigitValue(s[|s| - 1])
  }

  /** Formatting a count and reading it back gives the count. */
  lemma {:induction false} DecimalRoundTrip(n: nat)
    ensures ParseDecimal(DecimalString(n)) == n
    decreases n
  {
    var s := DecimalString(n);
    if n >= 10 {
      DecimalRoundTrip(n / 10);
      assert s[..|s| - 1] == DecimalString(n / 10);
    }
  }

  /** The length of the longest run of digits at the front of `s`. */
  function LeadingDigits(s: string): (k: nat)
    ensures k <= |s| && AllDigits(s[..k])
    ensures k < |s| ==> !IsDigit(s[k])
    decreases |s|
  {
    if s != [] && IsDigit(s[0]) then
      var k := 1 + LeadingDigits(s[1..]);
      assert s[..k] == [s[0]] + s[1..][..k - 1];
      k
    else 0
  }

  /** A digit string followed by a non-digit is read in full by `LeadingDigits`. */
  lemma {:induction false} LeadingDigitsOfRun(d: string, rest: string)
    requires AllDigits(d)
    requires rest != [] && !IsDigit(rest[0])
    ensures LeadingDigits(d + rest) == |d|
    decreases |d|
  {
    if d != [] {
      assert (d + rest)[1..] == d[1..] + rest;
      LeadingDigitsOfRun(d[1..], rest);
    } else {
      assert d + rest == rest;
    }
  }
}
