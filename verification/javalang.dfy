/**
 * The pieces of Java's own semantics the engine relies on: 32-bit int
 * wrap-around in hash codes, `String.format("%d")` for a long, the
 * `String.split("\\s*,\\s*")` used on comma-separated property values, and
 * the exceptions the modelled code throws.
 */
module JavaLang {

  const TWO_32: int := 0x1_0000_0000
  const INT_MIN: int := -0x8000_0000
  const INT_MAX: int := 0x7fff_ffff
  const LONG_MIN: int := -0x8000_0000_0000_0000
  const LONG_MAX: int := 0x7fff_ffff_ffff_ffff

  predicate IsInt(x: int) { INT_MIN <= x <= INT_MAX }
  predicate IsLong(x: int) { LONG_MIN <= x <= LONG_MAX }

  /** The exception classes the modelled code throws or lets escape. */
  datatype ExceptionClass =
    | NullPointer       // Objects.requireNonNull
    | IllegalArgument
    | IllegalState
    | NoSuchElement     // Optional.get on an empty optional
    | ClassCast
    | Ksql              // io.confluent.ksql.util.KsqlException

  datatype Exn = Exn(cls: ExceptionClass, message: string)

  // ---------------------------------------------------------------------------
  // 32-bit arithmetic and hash codes
  // ---------------------------------------------------------------------------

  /** Two's-complement narrowing of an unbounded integer to a Java `int`. */
  function WrapInt(x: int): (r: int)
    ensures IsInt(r)
    ensures (x - r) % TWO_32 == 0
  {
    (x - INT_MIN) % TWO_32 + INT_MIN
  }

  lemma WrapIntOfInt(x: int)
    requires IsInt(x)
    ensures WrapInt(x) == x
  {
  }

  /** Narrowing only sees the residue modulo 2^32. */
  lemma WrapIntShift(x: int, k: int)
    ensures WrapInt(x + k * TWO_32) == WrapInt(x)
  {
    var a := x - INT_MIN;
    assert (a + k * TWO_32) % TWO_32 == a % TWO_32 by {
      var q := a / TWO_32;
      var r := a % TWO_32;
      assert a == q * TWO_32 + r;
      assert a + k * TWO_32 == (q + k) * TWO_32 + r;
    }
  }

  /** One Horner step commutes with the narrowing of the accumulator. */
  lemma WrapIntHornerStep(a: int, b: int)
    ensures WrapInt(31 * WrapInt(a) + b) == WrapInt(31 * a + b)
  {
    var k := (a - WrapInt(a)) / TWO_32;
    assert a - WrapInt(a) == k * TWO_32;
    assert 31 * WrapInt(a) + b == (31 * a + b) + (-31 * k) * TWO_32;
    WrapIntShift(31 * a + b, -31 * k);
  }

  /**
   * The fold behind `Arrays.hashCode` / `Objects.hash` (seed 1) and
   * `String.hashCode` (seed 0): `h = 31 * h + e` in 32-bit arithmetic.
   */
  function HashFold(seed: int, hs: seq<int>): (r: int)
    requires IsInt(seed)
    ensures IsInt(r)
  {
    if |hs| == 0 then seed else WrapInt(31 * HashFold(seed, hs[..|hs| - 1]) + hs[|hs| - 1])
  }

  /** The same polynomial in unbounded integers: seed * 31^n + sum of hs[i] * 31^(n-1-i). */
  function Polynomial(seed: int, hs: seq<int>): int
  {
    if |hs| == 0 then seed else 31 * Polynomial(seed, hs[..|hs| - 1]) + hs[|hs| - 1]
  }

  /** Wrapping at every step gives the same int as wrapping the exact polynomial once. */
  lemma {:induction false} HashFoldIsWrappedPolynomial(seed: int, hs: seq<int>)
    requires IsInt(seed)
    ensures HashFold(seed, hs) == WrapInt(Polynomial(seed, hs))
  {
    if |hs| == 0 {
      WrapIntOfInt(seed);
    } else {
      var p := hs[..|hs| - 1];
      HashFoldIsWrappedPolynomial(seed, p);
      WrapIntHornerStep(Polynomial(seed, p), hs[|hs| - 1]);
    }
  }

  /** `java.util.Objects.hash(values...)`, given the hash codes of the values. */
  function ObjectsHash(hs: seq<int>): (r: int)
    ensures IsInt(r)
    ensures r == WrapInt(Polynomial(1, hs))
  {
    HashFoldIsWrappedPolynomial(1, hs);
    HashFold(1, hs)
  }

  /** `String.hashCode`: the base-31 fold of the string's UTF-16 code units. */
  function StringHashCode(s: string): (r: int)
    ensures IsInt(r)
    ensures r == WrapInt(Polynomial(0, CodeUnits(s)))
  {
    HashFoldIsWrappedPolynomial(0, CodeUnits(s));
    HashFold(0, CodeUnits(s))
  }

  /**
   * The UTF-16 encoding of one character: itself when it is in the Basic
   * Multilingual Plane, otherwise a high surrogate followed by a low one.
   */
  function Utf16(c: char): (r: seq<int>)
    ensures |r| == 1 <==> (c as int) < 0x1_0000
    ensures |r| == 1 ==> r[0] == c as int
    ensures |r| == 2 ==>
              && 0xD800 <= r[0] < 0xDC00 && 0xDC00 <= r[1] < 0xE000
              && 0x1_0000 + (r[0] - 0xD800) * 0x400 + (r[1] - 0xDC00) == c as int
    ensures |r| == 1 || |r| == 2
  {
    var v := c as int;
    if v < 0x1_0000 then [v]
    else [0xD800 + (v - 0x1_0000) / 0x400, 0xDC00 + (v - 0x1_0000) % 0x400]
  }

  /** The UTF-16 code units of a string, in order (`String.charAt` over the whole string). */
  function CodeUnits(s: string): (r: seq<int>)
    ensures |r| >= |s|
    decreases |s|
  {
    if |s| == 0 then [] else Utf16(s[0]) + CodeUnits(s[1..])
  }

  /** In the Basic Multilingual Plane each character is one code unit, its own value. */
  lemma {:induction false} CodeUnitsOfBmp(s: string)
    requires forall i :: 0 <= i < |s| ==> (s[i] as int) < 0x1_0000
    ensures CodeUnits(s) == seq(|s|, i requires 0 <= i < |s| => s[i] as int)
    decreases |s|
  {
    if |s| > 0 {
      CodeUnitsOfBmp(s[1..]);
      var units := seq(|s|, i requires 0 <= i < |s| => s[i] as int);
      assert units == [s[0] as int] + seq(|s| - 1, i requires 0 <= i < |s| - 1 => s[1..][i] as int);
    }
  }

  /** A character outside the Basic Multilingual Plane hashes as its surrogate pair: U+1F600 gives 31 * 0xD83D + 0xDE00. */
  lemma SupplementaryCharacterHash()
    ensures CodeUnits("\U{1F600}") == [0xD83D, 0xDE00]
    ensures StringHashCode("\U{1F600}") == 1772899
  {
    var s := "\U{1F600}";
    assert s[0] as int == 0x1F600;
    assert s[1..] == [];
    assert CodeUnits(s) == Utf16(s[0]) + CodeUnits(s[1..]);
    assert Utf16(s[0]) == [0xD83D, 0xDE00];
    assert HashFold(0, [0xD83D, 0xDE00]) == 1772899;
  }

  // ---------------------------------------------------------------------------
  // String.format("%d", long) and its inverse
  // ---------------------------------------------------------------------------

  predicate IsDigit(c: char) { '0' <= c <= '9' }

  predicate AllDigits(s: string) { forall i :: 0 <= i < |s| ==> IsDigit(s[i]) }

  function DigitChar(d: nat): (c: char)
    requires d < 10
    ensures IsDigit(c)
  {
    (48 + d) as char
  }

  function DigitValue(c: char): (d: nat)
    requires IsDigit(c)
    ensures d < 10
  {
    c as int - 48
  }

  /** The decimal digits of n, most significant first, without leading zeros. */
  function NatToDecimal(n: nat): (s: string)
    ensures |s| >= 1
    ensures AllDigits(s)
    decreases n
  {
    if n < 10 then [DigitChar(n)] else NatToDecimal(n / 10) + [DigitChar(n % 10)]
  }

  function DecimalValue(s: string): nat
    requires AllDigits(s)
  {
    if |s| == 0 then 0 else DecimalValue(s[..|s| - 1]) * 10 + DigitValue(s[|s| - 1])
  }

  lemma {:induction false} DecimalRoundTrip(n: nat)
    ensures DecimalValue(NatToDecimal(n)) == n
    decreases n
  {
    if n >= 10 {
      var s := NatToDecimal(n);
      assert s[..|s| - 1] == NatToDecimal(n / 10);
      DecimalRoundTrip(n / 10);
    }
  }

  /** `String.format("%d", n)` (ASCII digits, no grouping). */
  function FormatLong(n: int): (s: string)
    ensures |s| >= 1
  {
    if n < 0 then "-" + NatToDecimal(-n) else NatToDecimal(n)
  }

  /** The shape of `FormatLong` output: an optional minus sign, then digits. */
  predicate IsLongText(s: string)
  {
    |s| >= 1 && (AllDigits(s) || (s[0] == '-' && AllDigits(s[1..])))
  }

  /** `Long.parseLong` on the strings `FormatLong` produces. */
  function ParseLong(s: string): int
    requires IsLongText(s)
  {
    if s[0] == '-' then -(DecimalValue(s[1..]) as int) else DecimalValue(s)
  }

  lemma {:induction false} FormatLongRoundTrip(n: int)
    ensures IsLongText(FormatLong(n))
    ensures ParseLong(FormatLong(n)) == n
  {
    var s := FormatLong(n);
    if n < 0 {
      assert s[0] == '-';
      assert s[1..] == NatToDecimal(-n);
      DecimalRoundTrip(-n);
    } else {
      assert s == NatToDecimal(n);
      assert IsDigit(s[0]);
      DecimalRoundTrip(n);
    }
  }

  /** Distinct longs never print the same. */
  lemma FormatLongInjective(a: int, b: int)
    requires FormatLong(a) == FormatLong(b)
    ensures a == b
  {
    FormatLongRoundTrip(a);
    FormatLongRoundTrip(b);
  }

  // ---------------------------------------------------------------------------
  // String.split("\\s*,\\s*")
  // ---------------------------------------------------------------------------

  /** The characters the regex class `\s` matches: [ \t\n\x0B\f\r]. */
  predicate IsRegexSpace(c: char)
  {
    c == ' ' || c == '\t' || c == '\n' || c as int == 0x0B || c as int == 0x0C || c == '\r'
  }

  function TrimLeading(s: string): (r: string)
    ensures |r| <= |s|
    ensures |r| == 0 || !IsRegexSpace(r[0])
  {
    if |s| > 0 && IsRegexSpace(s[0]) then TrimLeading(s[1..]) else s
  }

  function TrimTrailing(s: string): (r: string)
    ensures |r| <= |s|
    ensures |r| == 0 || !IsRegexSpace(r[|r| - 1])
  {
    if |s| > 0 && IsRegexSpace(s[|s| - 1]) then TrimTrailing(s[..|s| - 1]) else s
  }

  /** Trimming leading blanks keeps a suffix of the string. */
  lemma {:induction false} TrimLeadingSuffix(s: string)
    ensures TrimLeading(s) == s[|s| - |TrimLeading(s)|..]
    decreases |s|
  {
    if |s| > 0 && IsRegexSpace(s[0]) {
      TrimLeadingSuffix(s[1..]);
    }
  }

  /** Trimming trailing blanks keeps a prefix of the string. */
  lemma {:induction false} TrimTrailingPrefix(s: string)
    ensures TrimTrailing(s) == s[..|TrimTrailing(s)|]
    decreases |s|
  {
    if |s| > 0 && IsRegexSpace(s[|s| - 1]) {
      TrimTrailingPrefix(s[..|s| - 1]);
    }
  }

  function FirstComma(s: string): (i: nat)
    requires ',' in s
    ensures i < |s| && s[i] == ','
    ensures forall k :: 0 <= k < i ==> s[k] != ','
  {
    if s[0] == ',' then 0 else
      assert ',' in s[1..] by { var k :| 0 <= k < |s| && s[k] == ','; assert s[1..][k - 1] == ','; }
      FirstComma(s[1..]) + 1
  }

  /** The text between consecutive commas (no trimming yet). */
  function CommaPieces(s: string): (pieces: seq<string>)
    ensures |pieces| >= 1
    ensures forall k :: 0 <= k < |pieces| ==> ',' !in pieces[k]
    decreases |s|
  {
    if ',' !in s then [s] else
      var i := FirstComma(s);
      assert ',' !in s[..i] by {
        forall k | 0 <= k < i ensures s[..i][k] != ',' { }
      }
      [s[..i]] + CommaPieces(s[i + 1..])
  }

  /** Concatenation of pieces with a single comma between neighbours. */
  function JoinCommas(xs: seq<string>): string
    requires |xs| >= 1
  {
    if |xs| == 1 then xs[0] else xs[0] + "," + JoinCommas(xs[1..])
  }

  /**
   * The regex eats the whitespace on both sides of every comma, so every
   * piece but the first loses its leading blanks and every piece but the
   * last loses its trailing blanks.
   */
  function TrimAroundCommas(pieces: seq<string>): (r: seq<string>)
    ensures |r| == |pieces|
  {
    seq(|pieces|, k requires 0 <= k < |pieces| => TrimPiece(pieces, k))
  }

  function TrimPiece(pieces: seq<string>, k: nat): string
    requires k < |pieces|
  {
    var lead := if k > 0 then TrimLeading(pieces[k]) else pieces[k];
    if k < |pieces| - 1 then TrimTrailing(lead) else lead
  }

  function DropTrailingEmpty(xs: seq<string>): (r: seq<string>)
    ensures |r| <= |xs| && r == xs[..|r|]
    ensures |r| == 0 || r[|r| - 1] != ""
    ensures forall k :: |r| <= k < |xs| ==> xs[k] == ""
  {
    if |xs| > 0 && xs[|xs| - 1] == "" then DropTrailingEmpty(xs[..|xs| - 1]) else xs
  }

  /**
   * `s.split("\\s*,\\s*")`: with no comma there is no match and the whole
   * string (even the empty one) is the single element; otherwise the trimmed
   * pieces, minus trailing empty strings (leading empty strings stay, since
   * every match of this pattern has positive width).
   */
  function SplitCommaList(s: string): (r: seq<string>)
    ensures forall k :: 0 <= k < |r| ==> ',' !in r[k]
    ensures ',' !in s ==> r == [s]
    ensures ',' in s ==> |r| == 0 || r[|r| - 1] != ""
  {
    if ',' !in s then [s] else
      var pieces := CommaPieces(s);
      var trimmed := TrimAroundCommas(pieces);
      TrimAroundCommasNoComma(pieces);
      DropTrailingEmpty(trimmed)
  }

  /** A slice of a comma-free string is comma-free. */
  lemma NoCommaInSlice(s: string, i: int, j: int)
    requires 0 <= i <= j <= |s| && ',' !in s
    ensures ',' !in s[i..j]
  {
    forall k | 0 <= k < j - i ensures s[i..j][k] != ',' {
      assert s[i..j][k] == s[i + k] && s[i + k] in s;
    }
  }

  /** Trimming comma-free pieces leaves them comma-free. */
  lemma TrimAroundCommasNoComma(pieces: seq<string>)
    requires forall k :: 0 <= k < |pieces| ==> ',' !in pieces[k]
    ensures forall k :: 0 <= k < |pieces| ==> ',' !in TrimAroundCommas(pieces)[k]
  {
    forall k | 0 <= k < |pieces| ensures ',' !in TrimAroundCommas(pieces)[k] {
      var t := pieces[k];
      var lead := if k > 0 then TrimLeading(t) else t;
      TrimLeadingSuffix(t);
      NoCommaInSlice(t, |t| - |lead|, |t|);
      var trail := TrimTrailing(lead);
      TrimTrailingPrefix(lead);
      NoCommaInSlice(lead, 0, |trail|);
      assert TrimAroundCommas(pieces)[k] == TrimPiece(pieces, k);
    }
  }

  /** Splitting at commas and joining again gives back the string. */
  lemma {:induction false} CommaPiecesJoin(s: string)
    ensures JoinCommas(CommaPieces(s)) == s
    decreases |s|
  {
    if ',' in s {
      var i := FirstComma(s);
      var rest := CommaPieces(s[i + 1..]);
      assert CommaPieces(s) == [s[..i]] + rest;
      CommaPiecesJoin(s[i + 1..]);
      JoinCommasCons(s[..i], rest);
      SplitAtComma(s, i);
    } else {
      assert CommaPieces(s) == [s];
    }
  }

  /** Joining a first piece onto at least one more puts a comma between them. */
  lemma JoinCommasCons(a: string, rest: seq<string>)
    requires |rest| >= 1
    ensures JoinCommas([a] + rest) == a + "," + JoinCommas(rest)
  {
    var p := [a] + rest;
    assert p[0] == a && p[1..] == rest;
  }

  /** A string is the text before a comma, the comma, and the text after it. */
  lemma SplitAtComma(s: string, i: nat)
    requires i < |s| && s[i] == ','
    ensures s == s[..i] + "," + s[i + 1..]
  {
    assert s == s[..i] + [s[i]] + s[i + 1..];
  }

  /** In `a + "," + rest` with a comma-free `a`, the first comma is the one after `a`. */
  lemma FirstCommaAfterPrefix(a: string, rest: string)
    requires ',' !in a
    ensures ',' in a + "," + rest
    ensures FirstComma(a + "," + rest) == |a|
    ensures (a + "," + rest)[..|a|] == a && (a + "," + rest)[|a| + 1..] == rest
  {
    var s := a + "," + rest;
    assert s[|a|] == ',';
    forall k | 0 <= k < |a| ensures s[k] != ',' {
      assert s[k] == a[k];
    }
  }

  /** Joining comma-free pieces and splitting at commas gives back the pieces. */
  lemma {:induction false} JoinCommaPieces(xs: seq<string>)
    requires |xs| >= 1
    requires forall k :: 0 <= k < |xs| ==> ',' !in xs[k]
    ensures CommaPieces(JoinCommas(xs)) == xs
    ensures ',' in JoinCommas(xs) <==> |xs| > 1
    decreases |xs|
  {
    if |xs| == 1 {
      assert JoinCommas(xs) == xs[0];
    } else {
      var tail := xs[1..];
      assert forall k :: 0 <= k < |tail| ==> ',' !in tail[k] by {
        forall k | 0 <= k < |tail| ensures ',' !in tail[k] { assert tail[k] == xs[k + 1]; }
      }
      var rest := JoinCommas(tail);
      JoinCommaPieces(tail);
      var s := xs[0] + "," + rest;
      assert JoinCommas(xs) == s;
      FirstCommaAfterPrefix(xs[0], rest);
      assert CommaPieces(s) == [s[..|xs[0]|]] + CommaPieces(s[|xs[0]| + 1..]);
      assert CommaPieces(s) == [xs[0]] + tail;
      assert xs == [xs[0]] + tail;
    }
  }

  /** A token that the split hands back unchanged. */
  predicate IsCleanToken(t: string)
  {
    ',' !in t && (|t| == 0 || (!IsRegexSpace(t[0]) && !IsRegexSpace(t[|t| - 1])))
  }

  lemma TrimCleanToken(t: string)
    requires IsCleanToken(t)
    ensures TrimLeading(t) == t && TrimTrailing(t) == t
  {
    if |t| > 0 {
      assert !IsRegexSpace(t[0]) && !IsRegexSpace(t[|t| - 1]);
    }
  }

  lemma TrimPieceClean(xs: seq<string>, k: nat)
    requires k < |xs| && IsCleanToken(xs[k])
    ensures TrimPiece(xs, k) == xs[k]
  {
    TrimCleanToken(xs[k]);
  }

  lemma TrimAroundCleanTokens(xs: seq<string>)
    requires forall k :: 0 <= k < |xs| ==> IsCleanToken(xs[k])
    ensures TrimAroundCommas(xs) == xs
  {
    var trimmed := TrimAroundCommas(xs);
    forall k | 0 <= k < |xs| ensures trimmed[k] == xs[k] {
      TrimPieceClean(xs, k);
    }
  }

  /**
   * Round trip: a comma-joined list of clean tokens whose last token is not
   * empty splits back into exactly those tokens.
   */
  lemma SplitJoinRoundTrip(xs: seq<string>)
    requires |xs| >= 1
    requires forall k :: 0 <= k < |xs| ==> IsCleanToken(xs[k])
    requires |xs| == 1 || xs[|xs| - 1] != ""
    ensures SplitCommaList(JoinCommas(xs)) == xs
  {
    var s := JoinCommas(xs);
    assert forall k :: 0 <= k < |xs| ==> ',' !in xs[k];
    JoinCommaPieces(xs);
    if |xs| > 1 {
      TrimAroundCleanTokens(xs);
      assert DropTrailingEmpty(xs) == xs;
    }
  }
}
