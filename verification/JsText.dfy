/**
 JavaScript string values and the handful of `String.prototype` operations the
 agent uses. A JavaScript string is a sequence of UTF-16 code units: `length`,
 `substring`, `slice` and `includes` all count and compare code units, so an
 emoji outside the Basic Multilingual Plane occupies two positions.
 */
module JsText {

  /** One UTF-16 code unit. */
  newtype CodeUnit = x: int | 0 <= x < 0x1_0000

  /** A JavaScript string value. */
  type Str = seq<CodeUnit>

  // ---------------------------------------------------------------------------
  // Literals. Dafny strings are sequences of Unicode scalar values; a literal
  // of the source is written here as `Lit("...")` for its Basic Multilingual
  // Plane characters, and the emoji beyond that plane as the named surrogate
  // pairs below. `Utf16` is the general encoder both agree with.
  // ---------------------------------------------------------------------------

  const SurrogateBase: int := 0x1_0000

  /** The UTF-16 encoding of one Unicode scalar value. */
  function EncodeChar(c: char): (r: Str)
    ensures |r| == (if c as int < SurrogateBase then 1 else 2)
    ensures c as int < SurrogateBase ==> r[0] as int == c as int
    ensures c as int >= SurrogateBase ==> 0xD800 <= r[0] < 0xDC00 <= r[1] < 0xE000
  {
    var v := c as int;
    if v < SurrogateBase then [v as CodeUnit]
    else
      var w := v - SurrogateBase;
      [(0xD800 + w / 0x400) as CodeUnit, (0xDC00 + w % 0x400) as CodeUnit]
  }

  /** The UTF-16 encoding of a string of Unicode scalar values. */
  function Utf16(s: string): (r: Str)
  {
    if s == [] then [] else EncodeChar(s[0]) + Utf16(s[1..])
  }

  /** Every character takes one or two code units. */
  lemma {:induction false} Utf16Length(s: string)
    ensures |s| <= |Utf16(s)| <= 2 * |s|
  {
    if s != [] {
      Utf16Length(s[1..]);
    }
  }

  /** All characters of `s` lie in the Basic Multilingual Plane. */
  ghost predicate InBmp(s: string)
  {
    forall i :: 0 <= i < |s| ==> s[i] as int < SurrogateBase
  }

  /** A character of the Basic Multilingual Plane as its single code unit. */
  function BmpUnit(c: char): CodeUnit
  {
    if c as int < SurrogateBase then c as int as CodeUnit else 0xFFFD
  }

  /** A literal made of Basic Multilingual Plane characters, one code unit each. */
  function Lit(s: string): (r: Str)
    ensures |r| == |s|
  {
    seq(|s|, i requires 0 <= i < |s| => BmpUnit(s[i]))
  }

  /** On the Basic Multilingual Plane `Lit` is exactly UTF-16 encoding. */
  lemma {:induction false} LitIsUtf16(s: string)
    requires InBmp(s)
    ensures Lit(s) == Utf16(s)
  {
    if s != [] {
      LitIsUtf16(s[1..]);
      assert Lit(s) == [BmpUnit(s[0])] + Lit(s[1..]);
    }
  }

  /** Literals may be assembled piecewise. */
  lemma LitConcat(s: string, t: string)
    ensures Lit(s + t) == Lit(s) + Lit(t)
  {
  }

  // Emoji outside the Basic Multilingual Plane that occur in the agent's texts.
  const FramedPicture: Str := [0xD83D, 0xDDBC]
  const ArtistPalette: Str := [0xD83C, 0xDFA8]
  const CrystalBall: Str := [0xD83D, 0xDD2E]
  const Robot: Str := [0xD83E, 0xDD16]
  const GlowingStar: Str := [0xD83C, 0xDF1F]
  const Dizzy: Str := [0xD83D, 0xDCAB]
  const CrescentMoon: Str := [0xD83C, 0xDF19]
  const WavingHand: Str := [0xD83D, 0xDC4B]
  const FoldedHands: Str := [0xD83D, 0xDE4F]
  const GemStone: Str := [0xD83D, 0xDC8E]

  /** The named surrogate pairs are the UTF-16 encodings of their emoji. */
  lemma EmojiEncodings()
    ensures FramedPicture == Utf16("🖼") && ArtistPalette == Utf16("🎨")
    ensures CrystalBall == Utf16("🔮") && Robot == Utf16("🤖")
    ensures GlowingStar == Utf16("🌟") && Dizzy == Utf16("💫")
    ensures CrescentMoon == Utf16("🌙") && WavingHand == Utf16("👋")
    ensures FoldedHands == Utf16("🙏") && GemStone == Utf16("💎")
  {
  }

  // ---------------------------------------------------------------------------
  // Searching
  // ---------------------------------------------------------------------------

  /** `p` occurs in `s` starting at code unit `i`. */
  ghost predicate OccursAt(s: Str, p: Str, i: int)
  {
    0 <= i && i + |p| <= |s| && s[i..i + |p|] == p
  }

  /** `p` is a substring of `s`. */
  ghost predicate Contains(s: Str, p: Str)
  {
    exists i :: OccursAt(s, p, i)
  }

  /** The first occurrence of `p` in `s` at or after `from`, or -1. */
  function IndexFrom(s: Str, p: Str, from: nat): (r: int)
    requires from <= |s|
    ensures r == -1 || (from <= r && OccursAt(s, p, r))
    ensures r == -1 ==> forall j :: from <= j ==> !OccursAt(s, p, j)
    ensures r != -1 ==> forall j :: from <= j < r ==> !OccursAt(s, p, j)
    decreases |s| - from
  {
    if from + |p| > |s| then -1
    else if s[from..from + |p|] == p then from
    else if from == |s| then -1
    else IndexFrom(s, p, from + 1)
  }

  /** `s.indexOf(p)`: the least position where `p` occurs, or -1 when it does not occur. */
  function IndexOf(s: Str, p: Str): (r: int)
    ensures r == -1 <==> !Contains(s, p)
    ensures r != -1 ==> OccursAt(s, p, r) && forall j :: 0 <= j < r ==> !OccursAt(s, p, j)
  {
    IndexFrom(s, p, 0)
  }

  /** `s.includes(p)`. */
  predicate Includes(s: Str, p: Str)
    ensures Includes(s, p) <==> Contains(s, p)
  {
    IndexOf(s, p) != -1
  }

  /** A substring survives being embedded in a longer string. */
  lemma ContainsInfix(a: Str, p: Str, b: Str)
    ensures Contains(a + p + b, p)
  {
    assert OccursAt(a + p + b, p, |a|) by {
      assert (a + p + b)[|a|..|a| + |p|] == p;
    }
  }

  /** `s.startsWith(p)`. */
  predicate StartsWith(s: Str, p: Str)
  {
    |p| <= |s| && s[..|p|] == p
  }

  /** `s.endsWith(p)`. */
  predicate EndsWith(s: Str, p: Str)
  {
    |p| <= |s| && s[|s| - |p|..] == p
  }

  /** `s.replace(p, rep)` with a string pattern: only the FIRST occurrence is replaced. */
  function ReplaceFirst(s: Str, p: Str, rep: Str): (r: Str)
    ensures !Contains(s, p) ==> r == s
    ensures Contains(s, p) ==>
              exists i :: OccursAt(s, p, i) && (forall j :: 0 <= j < i ==> !OccursAt(s, p, j))
                          && r == s[..i] + rep + s[i + |p|..]
  {
    var i := IndexOf(s, p);
    if i == -1 then s else s[..i] + rep + s[i + |p|..]
  }

  /** Replacing a pattern that is a prefix of `s` rewrites that prefix. */
  lemma ReplacePrefix(s: Str, p: Str, rep: Str)
    requires StartsWith(s, p)
    ensures ReplaceFirst(s, p, rep) == rep + s[|p|..]
  {
    assert OccursAt(s, p, 0);
    assert IndexOf(s, p) == 0;
    assert s[..0] + rep + s[|p|..] == rep + s[|p|..];
  }

  // ---------------------------------------------------------------------------
  // Cutting
  // ---------------------------------------------------------------------------

  /** How `substring` reads an index argument: clamped into [0, len]. */
  function ClampIndex(n: int, len: nat): (r: nat)
    ensures r <= len
    ensures 0 <= n <= len ==> r == n
  {
    if n < 0 then 0 else if n > len then len else n
  }

  /** `s.substring(a, b)`: both indices clamped, swapped when a > b. */
  function Substring(s: Str, a: int, b: int): (r: Str)
    ensures |r| <= |s|
    ensures 0 <= a <= b <= |s| ==> r == s[a..b]
  {
    var x := ClampIndex(a, |s|);
    var y := ClampIndex(b, |s|);
    if x <= y then s[x..y] else s[y..x]
  }

  /** The leading `n` code units, or all of `s` when it is shorter: `s.substring(0, n)`. */
  lemma SubstringPrefix(s: Str, n: int)
    ensures Substring(s, 0, n) == s[..ClampIndex(n, |s|)]
    ensures n <= 0 ==> Substring(s, 0, n) == []
    ensures 0 <= n <= |s| ==> |Substring(s, 0, n)| == n
  {
  }

  /** How `slice` reads an index argument: negative counts from the end. */
  function SliceIndex(n: int, len: nat): (r: nat)
    ensures r <= len
    ensures n < 0 && -n <= len ==> r == len + n
    ensures 0 <= n <= len ==> r == n
  {
    if n < 0 then (if len + n < 0 then 0 else len + n)
    else if n > len then len else n
  }

  /** `s.slice(a, b)`; empty when the start is not before the end. */
  function Slice(s: Str, a: int, b: int): (r: Str)
    ensures |r| <= |s|
  {
    var x := SliceIndex(a, |s|);
    var y := SliceIndex(b, |s|);
    if x < y then s[x..y] else []
  }

  /** `s.slice(a)`. */
  function SliceFrom(s: Str, a: int): (r: Str)
    ensures |r| <= |s|
  {
    s[SliceIndex(a, |s|)..]
  }

  // ---------------------------------------------------------------------------
  // Case folding
  // ---------------------------------------------------------------------------

  const UpperA: CodeUnit := 0x41
  const UpperZ: CodeUnit := 0x5A

  /** `toLowerCase` on one code unit, for the Latin capital letters A-Z. */
  function LowerUnit(u: CodeUnit): CodeUnit
  {
    if UpperA <= u <= UpperZ then u + 0x20 else u
  }

  /** `s.toLowerCase()`, folding A-Z. */
  function ToLower(s: Str): (r: Str)
    ensures |r| == |s|
    ensures forall i :: 0 <= i < |s| ==> r[i] == LowerUnit(s[i])
  {
    seq(|s|, i requires 0 <= i < |s| => LowerUnit(s[i]))
  }

  /** Lower-casing twice is lower-casing once. */
  lemma ToLowerIdempotent(s: Str)
    ensures ToLower(ToLower(s)) == ToLower(s)
  {
  }

  // ---------------------------------------------------------------------------
  // Splitting and joining
  // ---------------------------------------------------------------------------

  /** `s.split(sep)` for a one-code-unit separator. */
  function Split(s: Str, sep: CodeUnit): (r: seq<Str>)
    ensures |r| >= 1
    ensures forall i :: 0 <= i < |r| ==> sep !in r[i]
    ensures Join(r, sep) == s
  {
    if s == [] then [[]]
    else
      var rest := Split(s[1..], sep);
      if s[0] == sep then [[]] + rest
      else [[s[0]] + rest[0]] + rest[1..]
  }

  /** `parts.join(sep)`. */
  function Join(parts: seq<Str>, sep: CodeUnit): Str
    requires |parts| >= 1
  {
    if |parts| == 1 then parts[0] else parts[0] + [sep] + Join(parts[1..], sep)
  }

  /** Splitting a join of separator-free parts gives the parts back. */
  lemma {:induction false} SplitJoin(parts: seq<Str>, sep: CodeUnit)
    requires |parts| >= 1
    requires forall i :: 0 <= i < |parts| ==> sep !in parts[i]
    ensures Split(Join(parts, sep), sep) == parts
  {
    if |parts| == 1 {
      SplitPlain(parts[0], sep);
    } else {
      var tail := Join(parts[1..], sep);
      SplitJoin(parts[1..], sep);
      SplitAfterPlain(parts[0], sep, tail);
    }
  }

  /** A separator-free string splits into itself. */
  lemma {:induction false} SplitPlain(s: Str, sep: CodeUnit)
    requires sep !in s
    ensures Split(s, sep) == [s]
  {
    if s != [] {
      SplitPlain(s[1..], sep);
    }
  }

  /** A separator-free head joins the first piece of what follows the separator. */
  lemma {:induction false} SplitAfterPlain(a: Str, sep: CodeUnit, t: Str)
    requires sep !in a
    ensures Split(a + [sep] + t, sep) == [a] + Split(t, sep)
  {
    if a == [] {
      assert [sep] + t == a + [sep] + t;
      assert ([sep] + t)[1..] == t;
    } else {
      assert (a + [sep] + t)[1..] == a[1..] + [sep] + t;
      SplitAfterPlain(a[1..], sep, t);
      assert [a[0]] + a[1..] == a;
    }
  }

  // ---------------------------------------------------------------------------
  // Decimal rendering of numbers (template literals, `String(n)`)
  // ---------------------------------------------------------------------------

  const Zero: CodeUnit := 0x30

  predicate IsDigit(u: CodeUnit)
  {
    Zero <= u < Zero + 10
  }

  /** The decimal digits of `n`, most significant first, without leading zeros. */
  function NatToDecimal(n: nat): (r: Str)
    ensures |r| >= 1
    ensures forall i :: 0 <= i < |r| ==> IsDigit(r[i])
    ensures n > 0 ==> r[0] != Zero
  {
    if n < 10 then [Zero + n as CodeUnit]
    else NatToDecimal(n / 10) + [Zero + (n % 10) as CodeUnit]
  }

  /** A decimal numeral read back as a number: the partner of NatToDecimal. */
  function DecimalValue(s: Str): nat
    requires forall i :: 0 <= i < |s| ==> IsDigit(s[i])
  {
    if s == [] then 0
    else
      assert IsDigit(s[|s| - 1]);
      DecimalValue(s[..|s| - 1]) * 10 + (s[|s| - 1] as int - Zero as int)
  }

  /** Rendering a number in decimal loses nothing. */
  lemma {:induction false} DecimalRoundTrip(n: nat)
    ensures DecimalValue(NatToDecimal(n)) == n
  {
    if n >= 10 {
      var r := NatToDecimal(n);
      assert r[..|r| - 1] == NatToDecimal(n / 10);
      DecimalRoundTrip(n / 10);
    }
  }

  /** Distinct numbers render to distinct numerals. */
  lemma DecimalInjective(m: nat, n: nat)
    requires NatToDecimal(m) == NatToDecimal(n)
    ensures m == n
  {
    DecimalRoundTrip(m);
    DecimalRoundTrip(n);
  }

  const Minus: CodeUnit := 0x2D

  /** A JavaScript number with an integral value in a template literal. */
  function IntToDecimal(n: int): (r: Str)
    ensures n >= 0 ==> r == NatToDecimal(n)
    ensures n < 0 ==> r == [Minus] + NatToDecimal(-n)
  {
    if n >= 0 then NatToDecimal(n) else [Minus] + NatToDecimal(-n)
  }
}
