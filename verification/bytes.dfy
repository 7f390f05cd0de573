/** Go strings as byte sequences, with the few string operations the adapter uses:
    literal text, concatenation, strings.Join, and decimal formatting (`%d`, strconv.Itoa)
    together with a decimal reader that undoes it. */
module Bytes {
  import opened Wrappers

  /** One octet of a Go string. */
  newtype byte = b: int | 0 <= b < 256

  /** A Go string: `len` counts bytes and slicing cuts bytes. */
  type Bytes = seq<byte>

  const SPACE: byte := 32
  const HASH: byte := 35
  const PERCENT: byte := 37
  const AMP: byte := 38
  const PLUS: byte := 43
  const MINUS: byte := 45
  const SLASH: byte := 47
  const SEMICOLON: byte := 59
  const EQUALS: byte := 61
  const QUESTION: byte := 63
  const NEWLINE: byte := 10

  predicate IsAscii(s: string) {
    forall i | 0 <= i < |s| :: s[i] as int < 128
  }

  /** The bytes Go stores for an ASCII literal (UTF-8 is the identity on ASCII). */
  function Text(s: string): (r: Bytes)
    requires IsAscii(s)
    ensures |r| == |s|
    ensures forall i | 0 <= i < |s| :: r[i] as int == s[i] as int
  {
    seq(|s|, i requires 0 <= i < |s| => s[i] as int as byte)
  }

  predicate StartsWith(s: Bytes, prefix: Bytes) {
    |prefix| <= |s| && s[..|prefix|] == prefix
  }

  /** The three parts of `a + b + c` can each be read back from the whole. */
  lemma ThreeParts(a: Bytes, b: Bytes, c: Bytes)
    ensures (a + b + c)[..|a|] == a
    ensures StartsWith((a + b + c)[|a|..], b)
    ensures (a + b + c)[|a + b + c| - |c|..] == c
  {
    assert (a + b + c)[|a|..] == b + c;
  }

  /** The byte `c` does not occur in `s`. */
  predicate Free(s: Bytes, c: byte) {
    forall i | 0 <= i < |s| :: s[i] != c
  }

  lemma FreeAppend(a: Bytes, b: Bytes, c: byte)
    requires Free(a, c) && Free(b, c)
    ensures Free(a + b, c)
  {
    forall i | 0 <= i < |a + b| ensures (a + b)[i] != c {
      if i < |a| { assert (a + b)[i] == a[i]; } else { assert (a + b)[i] == b[i - |a|]; }
    }
  }

  /** What a strings.Builder holds after writing `parts` in order. */
  function Concat(parts: seq<Bytes>): Bytes {
    if |parts| == 0 then [] else Concat(parts[..|parts| - 1]) + parts[|parts| - 1]
  }

  lemma ConcatSnoc(parts: seq<Bytes>, x: Bytes)
    ensures Concat(parts + [x]) == Concat(parts) + x
  {
    assert (parts + [x])[..|parts|] == parts;
  }

  /** Writing two lists one after the other writes their concatenations one after the other. */
  lemma {:induction false} ConcatAppend(a: seq<Bytes>, b: seq<Bytes>)
    ensures Concat(a + b) == Concat(a) + Concat(b)
    decreases |b|
  {
    if |b| == 0 {
      assert a + b == a;
    } else {
      var b' := b[..|b| - 1];
      var x := b[|b| - 1];
      assert b == b' + [x];
      assert a + b == (a + b') + [x];
      ConcatSnoc(a + b', x);
      ConcatAppend(a, b');
      ConcatSnoc(b', x);
    }
  }

  /** Go's strings.Join. */
  function Join(parts: seq<Bytes>, sep: Bytes): Bytes {
    if |parts| == 0 then []
    else if |parts| == 1 then parts[0]
    else parts[0] + sep + Join(parts[1..], sep)
  }

  // ---------------------------------------------------------------------------
  // Decimal numbers

  predicate IsDigit(b: byte) {
    48 <= b <= 57
  }

  predicate AllDigits(s: Bytes) {
    forall i | 0 <= i < |s| :: IsDigit(s[i])
  }

  function DigitByte(d: int): (b: byte)
    requires 0 <= d < 10
  {
    (48 + d) as byte
  }

  /** Decimal digits of a natural number, most significant first, without leading zeros. */
  function NatDigits(n: nat): (r: Bytes)
    ensures |r| > 0 && AllDigits(r)
    decreases n
  {
    if n < 10 then [DigitByte(n)] else NatDigits(n / 10) + [DigitByte(n % 10)]
  }

  /** Go's `%d` / strconv.Itoa rendering of an integer. */
  function Dec(n: int): (r: Bytes)
    ensures |r| > 0
    ensures forall i | 0 <= i < |r| :: IsDigit(r[i]) || r[i] == MINUS
  {
    if n < 0 then [MINUS] + NatDigits(-n) else NatDigits(n)
  }

  /** The value of a run of decimal digits. */
  function DigitsValue(s: Bytes): nat
    requires AllDigits(s)
  {
    if |s| == 0 then 0 else DigitsValue(s[..|s| - 1]) * 10 + (s[|s| - 1] as int - 48)
  }

  /** Reads a whole byte string as an optionally signed decimal integer. */
  function ParseInt(s: Bytes): Option<int> {
    if |s| == 0 then None
    else if s[0] == MINUS || s[0] == PLUS then
      if |s| > 1 && AllDigits(s[1..]) then
        var v: int := DigitsValue(s[1..]);
        Some(if s[0] == MINUS then -v else v)
      else None
    else if AllDigits(s) then Some(DigitsValue(s))
    else None
  }

  lemma {:induction false} NatDigitsValue(n: nat)
    ensures DigitsValue(NatDigits(n)) == n
    decreases n
  {
    if n >= 10 {
      var hi := NatDigits(n / 10);
      assert (hi + [DigitByte(n % 10)])[..|hi|] == hi;
      NatDigitsValue(n / 10);
    }
  }

  /** Reading back what `%d` printed gives the number printed. */
  lemma DecRoundTrip(n: int)
    ensures ParseInt(Dec(n)) == Some(n)
  {
    if n < 0 {
      assert Dec(n)[1..] == NatDigits(-n);
      NatDigitsValue(-n);
    } else {
      NatDigitsValue(n);
    }
  }

  lemma DecFree(n: int, c: byte)
    requires !IsDigit(c) && c != MINUS
    ensures Free(Dec(n), c)
  {
  }
}
