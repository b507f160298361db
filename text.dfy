/**
 * Text helpers the model needs: Rust's `format!("{}", n)` for unsigned
 * integers, `str::parse::<u32>()`, and `str::split(c)` with its inverse.
 */
module Text {
  import opened Wrappers

  predicate IsDigit(c: char) {
    '0' <= c <= '9'
  }

  predicate AllDigits(s: string) {
    forall i :: 0 <= i < |s| ==> IsDigit(s[i])
  }

  function DigitChar(d: nat): (c: char)
    requires d < 10
    ensures IsDigit(c)
  {
    (('0' as int) + d) as char
  }

  function DigitValue(c: char): (d: nat)
    requires IsDigit(c)
    ensures d < 10
  {
    (c as int) - ('0' as int)
  }

  /** Decimal rendering of `n` without leading zeros, as `format!("{}", n)` does. */
  function Dec(n: nat): (s: string)
    ensures |s| >= 1 && AllDigits(s)
    ensures |s| > 1 ==> s[0] != '0'
    decreases n
  {
    if n < 10 then [DigitChar(n)] else Dec(n / 10) + [DigitChar(n % 10)]
  }

  /** The value of a string of decimal digits (the empty string is worth 0). */
  function DigitsValue(s: string): nat
    requires AllDigits(s)
  {
    if s == [] then 0 else DigitsValue(s[..|s| - 1]) * 10 + DigitValue(s[|s| - 1])
  }

  /** A non-empty run of decimal digits and its value; anything else is rejected. */
  function ParseDigits(s: string): Option<nat> {
    if s != [] && AllDigits(s) then Some(DigitsValue(s)) else None
  }

  const U32_LIMIT: nat := 0x1_0000_0000

  /** Rust's `u32` and `i32`. */
  type u32 = x: nat | x < U32_LIMIT
  type i32 = x: int | -0x8000_0000 <= x < 0x8000_0000

  /**
   * Rust's `str::parse::<u32>()`: an optional leading `+`, then at least one
   * decimal digit, and a value that fits in 32 bits.
   */
  function ParseU32(s: string): (r: Option<nat>)
    ensures r.Some? ==> r.value < U32_LIMIT
  {
    var digits := if |s| > 0 && s[0] == '+' then s[1..] else s;
    match ParseDigits(digits)
    case Some(v) => if v < U32_LIMIT then Some(v) else None
    case None => None
  }

  lemma {:induction false} DecRoundTrip(n: nat)
    ensures ParseDigits(Dec(n)) == Some(n)
    decreases n
  {
    var s := Dec(n);
    if n < 10 {
      assert s[..|s| - 1] == [];
      assert DigitsValue(s) == DigitValue(DigitChar(n)) == n;
    } else {
      DecRoundTrip(n / 10);
      assert s[..|s| - 1] == Dec(n / 10);
      assert DigitsValue(s) == DigitsValue(Dec(n / 10)) * 10 + n % 10;
    }
  }

  /** A decimal rendering of a 32-bit value parses back under `parse::<u32>()`. */
  lemma ParseU32OfDec(n: nat)
    requires n < U32_LIMIT
    ensures ParseU32(Dec(n)) == Some(n)
  {
    DecRoundTrip(n);
  }

  /** `s.split(sep)`: the pieces between separators, empty pieces included. */
  function Split(s: string, sep: char): (parts: seq<string>)
    ensures |parts| >= 1
    ensures forall i :: 0 <= i < |parts| ==> sep !in parts[i]
  {
    if s == [] then [[]]
    else if s[0] == sep then [[]] + Split(s[1..], sep)
    else
      var rest := Split(s[1..], sep);
      [[s[0]] + rest[0]] + rest[1..]
  }

  /** The pieces glued back with `sep` between consecutive pieces. */
  function Join(parts: seq<string>, sep: char): string
    requires |parts| >= 1
  {
    if |parts| == 1 then parts[0] else parts[0] + [sep] + Join(parts[1..], sep)
  }

  lemma {:induction false} JoinSplit(s: string, sep: char)
    ensures Join(Split(s, sep), sep) == s
  {
    if s != [] {
      JoinSplit(s[1..], sep);
      if s[0] != sep {
        var rest := Split(s[1..], sep);
        if |rest| == 1 {
          assert Join(Split(s, sep), sep) == [s[0]] + rest[0];
        } else {
          assert Join(Split(s, sep), sep) == [s[0]] + rest[0] + [sep] + Join(rest[1..], sep);
        }
      }
    }
  }

  /** Splitting a piece that holds no separator, followed by more text. */
  lemma {:induction false} SplitPrefix(p: string, t: string, sep: char)
    requires sep !in p
    ensures Split(p + t, sep) == [p + Split(t, sep)[0]] + Split(t, sep)[1..]
  {
    var ts := Split(t, sep);
    if p == [] {
      assert p + t == t;
      assert p + ts[0] == ts[0];
      assert ts == [ts[0]] + ts[1..];
    } else {
      SplitPrefix(p[1..], t, sep);
      assert p[0] != sep;
      assert (p + t)[1..] == p[1..] + t;
      var rest := Split(p[1..] + t, sep);
      assert rest[0] == p[1..] + ts[0];
      assert [p[0]] + rest[0] == p + ts[0];
    }
  }

  lemma {:induction false} SplitJoin(parts: seq<string>, sep: char)
    requires |parts| >= 1
    requires forall i :: 0 <= i < |parts| ==> sep !in parts[i]
    ensures Split(Join(parts, sep), sep) == parts
  {
    if |parts| == 1 {
      SplitPrefix(parts[0], [], sep);
      assert parts[0] + [] == parts[0];
    } else {
      var tail := Join(parts[1..], sep);
      SplitJoin(parts[1..], sep);
      assert parts[0] + [sep] + tail == parts[0] + ([sep] + tail);
      SplitPrefix(parts[0], [sep] + tail, sep);
      assert ([sep] + tail)[1..] == tail;
      assert Split([sep] + tail, sep) == [[]] + parts[1..];
      assert parts[0] + [] == parts[0];
    }
  }
}
