/** Text the listener produces with `std::ostringstream`: unsigned integers
    written without padding (`os << std::hex << n` for the UUID groups,
    `os << getpid()` for the thread label), and the inverse operations used
    to state what such text means. */
module TextFormat {

  /** The digit `std::hex` and `std::dec` print for d: '0'..'9', then lower-case 'a'..'f'. */
  function DigitChar(d: nat): (c: char)
    requires d < 16
  {
    if d < 10 then ('0' as int + d) as char else ('a' as int + d - 10) as char
  }

  /** The value of a digit character (0 for any other character). */
  function DigitValue(c: char): (d: nat)
  {
    if '0' <= c <= '9' then c as int - '0' as int
    else if 'a' <= c <= 'f' then c as int - 'a' as int + 10
    else 0
  }

  predicate IsDigit(c: char, base: nat)
  {
    ('0' <= c <= '9' || 'a' <= c <= 'f') && DigitValue(c) < base
  }

  /** A numeral as the stream writes one: digits of `base` only, and no
      leading zero unless the whole numeral is "0". */
  predicate IsNumeral(s: string, base: nat)
  {
    && |s| >= 1
    && (forall i :: 0 <= i < |s| ==> IsDigit(s[i], base))
    && (s[0] == '0' ==> s == "0")
  }

  lemma DigitCharIsDigit(d: nat, base: nat)
    requires d < base <= 16
    ensures IsDigit(DigitChar(d), base) && DigitValue(DigitChar(d)) == d
  {
  }

  lemma DivStep(n: nat, base: nat)
    requires 2 <= base <= n
    ensures 1 <= n / base < n && n % base < base
    ensures n == (n / base) * base + n % base
  {
  }

  /** n written in `base` with no zero padding, most significant digit first. */
  function ToBase(n: nat, base: nat): (r: string)
    requires 2 <= base <= 16
    ensures IsNumeral(r, base)
    ensures r == "0" <==> n == 0
    decreases n
  {
    if n < base then
      DigitCharIsDigit(n, base);
      [DigitChar(n)]
    else
      DivStep(n, base);
      DigitCharIsDigit(n % base, base);
      ToBase(n / base, base) + [DigitChar(n % base)]
  }

  /** Reads a numeral back (the partner of ToBase). */
  function FromBase(s: string, base: nat): (n: nat)
  {
    if s == [] then 0 else FromBase(s[..|s| - 1], base) * base + DigitValue(s[|s| - 1])
  }

  lemma {:induction false} ToBaseRoundTrip(n: nat, base: nat)
    requires 2 <= base <= 16
    ensures FromBase(ToBase(n, base), base) == n
    decreases n
  {
    var r := ToBase(n, base);
    if n < base {
      DigitCharIsDigit(n, base);
      assert r[..|r| - 1] == [];
    } else {
      DivStep(n, base);
      DigitCharIsDigit(n % base, base);
      ToBaseRoundTrip(n / base, base);
      assert r[..|r| - 1] == ToBase(n / base, base);
    }
  }

  /** Splits s at every occurrence of sep (the fields between separators, in order). */
  function Split(s: string, sep: char): (r: seq<string>)
    ensures |r| >= 1
  {
    if s == [] then [[]]
    else if s[0] == sep then [[]] + Split(s[1..], sep)
    else var rest := Split(s[1..], sep); [[s[0]] + rest[0]] + rest[1..]
  }

  lemma {:induction false} SplitField(x: string, sep: char)
    requires sep !in x
    ensures Split(x, sep) == [x]
  {
    if x != [] {
      SplitField(x[1..], sep);
      assert [x[0]] + x[1..] == x;
    }
  }

  lemma {:induction false} SplitJoin(x: string, sep: char, y: string)
    requires sep !in x
    ensures Split(x + [sep] + y, sep) == [x] + Split(y, sep)
  {
    if x == [] {
      assert x + [sep] + y == [sep] + y;
      assert ([sep] + y)[1..] == y;
    } else {
      SplitJoin(x[1..], sep, y);
      assert (x + [sep] + y)[1..] == x[1..] + [sep] + y;
      assert [x[0]] + x[1..] == x;
    }
  }

  lemma NumeralHasNo(s: string, base: nat, c: char)
    requires IsNumeral(s, base)
    requires !('0' <= c <= '9' || 'a' <= c <= 'f')
    ensures c !in s
  {
    forall i | 0 <= i < |s| ensures s[i] != c {
      assert IsDigit(s[i], base);
    }
  }
}
