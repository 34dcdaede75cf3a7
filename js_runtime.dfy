/**
 * The pieces of the JavaScript runtime that the site's scripts depend on,
 * each stated once: the `\s` character class (which `String.prototype.trim`
 * strips as well), `trim`, `split(/\s+/)`, an ASCII `toLowerCase`, the
 * truncating `%` operator and the decimal rendering of a whole number.
 */
module JsRuntime {

  datatype Option<T> = None | Some(value: T)

  // ---------------------------------------------------------------------
  // Whitespace, trim and split

  /** The regular-expression class `\s`: the WhiteSpace and LineTerminator code points. */
  predicate IsSpace(c: char) {
    c == ' ' || c == '\t' || c == '\n' || c == '\r' || c == '\U{000B}' || c == '\U{000C}'
    || c == '\U{00A0}' || c == '\U{1680}' || ('\U{2000}' <= c <= '\U{200A}')
    || c == '\U{2028}' || c == '\U{2029}' || c == '\U{202F}' || c == '\U{205F}'
    || c == '\U{3000}' || c == '\U{FEFF}'
  }

  predicate NoSpace(s: string) {
    forall i :: 0 <= i < |s| ==> !IsSpace(s[i])
  }

  /** How many whitespace characters `s` starts with. */
  function LeadingSpaces(s: string): (a: nat)
    ensures a <= |s| && (forall i :: 0 <= i < a ==> IsSpace(s[i])) && (a < |s| ==> !IsSpace(s[a]))
  {
    if s != [] && IsSpace(s[0]) then 1 + LeadingSpaces(s[1..]) else 0
  }

  /** `s` with its leading whitespace removed. */
  function TrimStart(s: string): (r: string)
    ensures |r| <= |s| && r == s[|s| - |r|..]
    ensures forall i :: 0 <= i < |s| - |r| ==> IsSpace(s[i])
    ensures r == [] || !IsSpace(r[0])
  {
    s[LeadingSpaces(s)..]
  }

  /** `s` with its trailing whitespace removed. */
  function TrimEnd(s: string): (r: string)
    ensures |r| <= |s| && r == s[..|r|]
    ensures forall i :: |r| <= i < |s| ==> IsSpace(s[i])
    ensures r == [] || !IsSpace(r[|r| - 1])
  {
    if s != [] && IsSpace(s[|s| - 1]) then TrimEnd(s[..|s| - 1]) else s
  }

  /** `s.trim()`: `s` without its leading and trailing whitespace. */
  function Trim(s: string): (r: string)
    ensures r == [] || (!IsSpace(r[0]) && !IsSpace(r[|r| - 1]))
    ensures r == [] <==> forall i :: 0 <= i < |s| ==> IsSpace(s[i])
    ensures var a := LeadingSpaces(s);
      a + |r| <= |s| && r == s[a..a + |r|]
      && (forall i :: 0 <= i < a ==> IsSpace(s[i])) && (forall i :: a + |r| <= i < |s| ==> IsSpace(s[i]))
  {
    TrimIsSlice(s);
    TrimEmpty(s);
    TrimEnd(TrimStart(s))
  }

  /** Both trims together cut a slice out of `s` with only whitespace around it. */
  lemma TrimIsSlice(s: string)
    ensures var r, a := TrimEnd(TrimStart(s)), LeadingSpaces(s);
      a + |r| <= |s| && r == s[a..a + |r|] && forall i :: a + |r| <= i < |s| ==> IsSpace(s[i])
  {
    var a := LeadingSpaces(s);
    var t := s[a..];
    assert t == TrimStart(s);
    var r := TrimEnd(t);
    assert r == s[a..a + |r|] by {
      assert r == t[..|r|];
    }
    forall i | a + |r| <= i < |s|
      ensures IsSpace(s[i])
    {
      assert s[i] == t[i - a];
    }
  }

  lemma TrimEmpty(s: string)
    ensures TrimEnd(TrimStart(s)) == [] <==> forall i :: 0 <= i < |s| ==> IsSpace(s[i])
  {
    var t := TrimStart(s);
    if TrimEnd(t) != [] {
      assert t[0] == TrimEnd(t)[0];
      assert !IsSpace(s[LeadingSpaces(s)]);
    }
  }

  /** Index of the first whitespace character of `s`, or `|s|` when there is none. */
  function FirstSpace(s: string): (k: nat)
    ensures k <= |s|
    ensures forall i :: 0 <= i < k ==> !IsSpace(s[i])
    ensures k < |s| ==> IsSpace(s[k])
  {
    if s == [] || IsSpace(s[0]) then 0 else 1 + FirstSpace(s[1..])
  }

  /**
   * `s.split(/\s+/)`: the pieces of `s` between maximal runs of whitespace.
   * A run at either end yields an empty piece there, and `"".split(/\s+/)` is `[""]`.
   */
  function SplitOnSpaces(s: string): (pieces: seq<string>)
    ensures |pieces| >= 1
    ensures forall k :: 0 <= k < |pieces| ==> NoSpace(pieces[k])
    decreases |s|
  {
    var k := FirstSpace(s);
    if k == |s| then [s]
    else
      var rest := TrimStart(s[k..]);
      assert |rest| < |s| - k by { assert IsSpace(s[k..][0]); }
      [s[..k]] + SplitOnSpaces(rest)
  }

  /**
   * Number of maximal whitespace runs in `s`, counted position by position:
   * a run starts at a whitespace character whose predecessor is not one.
   * `prevSpace` says whether the character before `s` was whitespace.
   */
  function SpaceRuns(s: string, prevSpace: bool): nat {
    if s == [] then 0
    else (if IsSpace(s[0]) && !prevSpace then 1 else 0) + SpaceRuns(s[1..], IsSpace(s[0]))
  }

  lemma {:induction false} SpaceRunsSkipWord(s: string, k: nat)
    requires k <= |s| && forall i :: 0 <= i < k ==> !IsSpace(s[i])
    ensures SpaceRuns(s, false) == SpaceRuns(s[k..], false)
  {
    if k > 0 {
      assert s[1..][k - 1..] == s[k..];
      SpaceRunsSkipWord(s[1..], k - 1);
    }
  }

  lemma {:induction false} SpaceRunsSkipSpaces(u: string)
    ensures SpaceRuns(u, true) == SpaceRuns(TrimStart(u), false)
  {
    if u != [] && IsSpace(u[0]) {
      SpaceRunsSkipSpaces(u[1..]);
    }
  }

  /** `split(/\s+/)` yields one piece more than there are whitespace runs. */
  lemma {:induction false} SplitCountsRuns(s: string)
    ensures |SplitOnSpaces(s)| == 1 + SpaceRuns(s, false)
    decreases |s|
  {
    var k := FirstSpace(s);
    SpaceRunsSkipWord(s, k);
    if k < |s| {
      var rest := TrimStart(s[k..]);
      assert |rest| < |s| - k by { assert IsSpace(s[k..][0]); }
      assert s[k..][1..] == s[k + 1..];
      SpaceRunsSkipSpaces(s[k + 1..]);
      assert TrimStart(s[k..]) == TrimStart(s[k + 1..]);
      SplitCountsRuns(rest);
    }
  }

  /** Splitting text without leading or trailing whitespace yields only non-empty words. */
  lemma {:induction false} SplitTrimmedIntoWords(s: string)
    requires s != [] && !IsSpace(s[0]) && !IsSpace(s[|s| - 1])
    ensures forall k :: 0 <= k < |SplitOnSpaces(s)| ==> SplitOnSpaces(s)[k] != []
    decreases |s|
  {
    var k := FirstSpace(s);
    if k < |s| {
      var rest := TrimStart(s[k..]);
      assert |rest| < |s| - k by { assert IsSpace(s[k..][0]); }
      assert rest != [] && rest[|rest| - 1] == s[|s| - 1];
      SplitTrimmedIntoWords(rest);
      assert SplitOnSpaces(s) == [s[..k]] + SplitOnSpaces(rest);
    }
  }

  // ---------------------------------------------------------------------
  // Lower case

  /** `toLowerCase` on one character, for the ASCII letters. */
  function LowerChar(c: char): (l: char)
    ensures 'A' <= c <= 'Z' ==> l as int == c as int + 32
    ensures !('A' <= c <= 'Z') ==> l == c
  {
    if 'A' <= c <= 'Z' then (c as int + 32) as char else c
  }

  function Lower(s: string): (r: string)
    ensures |r| == |s| && forall i :: 0 <= i < |s| ==> r[i] == LowerChar(s[i])
  {
    seq(|s|, i requires 0 <= i < |s| => LowerChar(s[i]))
  }

  lemma LowerIdempotent(s: string)
    ensures Lower(Lower(s)) == Lower(s)
  {
    forall i | 0 <= i < |s| ensures Lower(Lower(s))[i] == Lower(s)[i] {
      assert !('A' <= Lower(s)[i] <= 'Z');
    }
  }

  // ---------------------------------------------------------------------
  // Numbers

  /**
   * The `%` operator for a positive divisor: the quotient is truncated toward zero,
   * so the remainder takes the sign of `a` (unlike Dafny's Euclidean `%`).
   */
  function Rem(a: int, b: int): (r: int)
    requires b > 0
    ensures -b < r < b
    ensures (a - r) % b == 0
    ensures a >= 0 ==> r >= 0
    ensures a < 0 ==> r <= 0
  {
    RemDividesDifference(a, b);
    if a >= 0 then a % b else -((-a) % b)
  }

  /** What the truncating remainder takes away from `a` is a multiple of `b`. */
  lemma RemDividesDifference(a: int, b: int)
    requires b > 0
    ensures a >= 0 ==> (a - a % b) % b == 0
    ensures a < 0 ==> (a + (-a) % b) % b == 0
  {
    if a >= 0 {
      assert a - a % b == (a / b) * b;
      MultipleHasNoRemainder(a / b, b);
    } else {
      assert a + (-a) % b == (-((-a) / b)) * b;
      MultipleHasNoRemainder(-((-a) / b), b);
    }
  }

  /** A multiple of `b` leaves no remainder. */
  lemma MultipleHasNoRemainder(k: int, b: int)
    requires b > 0
    ensures (k * b) % b == 0
  {
    var q, m := (k * b) / b, (k * b) % b;
    assert k * b == q * b + m;
    assert m == (k - q) * b;
    MulBounds(k - q, b);
  }

  lemma MulBounds(d: int, b: int)
    requires b > 0
    ensures d >= 1 ==> d * b >= b
    ensures d <= -1 ==> d * b <= -b
  {
    assert d * b - b == (d - 1) * b;
    assert d * b + b == (d + 1) * b;
  }

  /** The decimal digits of `n`, as a template literal writes it. */
  function Decimal(n: nat): (s: string)
    ensures s != [] && forall i :: 0 <= i < |s| ==> '0' <= s[i] <= '9'
    ensures |s| == 1 || s[0] != '0'
    ensures n > 0 ==> s[0] != '0'
  {
    if n < 10 then [Digit(n)] else Decimal(n / 10) + [Digit(n % 10)]
  }

  function Digit(d: nat): (c: char)
    requires d < 10
    ensures '0' <= c <= '9' && c as int - '0' as int == d
  {
    ('0' as int + d) as char
  }

  /** Reads a string of decimal digits back as a number. */
  function ParseDecimal(s: string): nat
    requires forall i :: 0 <= i < |s| ==> '0' <= s[i] <= '9'
  {
    if s == [] then 0 else 10 * ParseDecimal(s[..|s| - 1]) + (s[|s| - 1] as int - '0' as int)
  }

  lemma {:induction false} DecimalRoundTrip(n: nat)
    ensures ParseDecimal(Decimal(n)) == n
  {
    if n >= 10 {
      var s := Decimal(n);
      assert s[..|s| - 1] == Decimal(n / 10);
      DecimalRoundTrip(n / 10);
    }
  }
}
