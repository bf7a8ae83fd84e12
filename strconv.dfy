/**
  What the reader uses of Go's `strconv` package: `strconv.ParseUint(s, 10, 64)`.
  `FormatUint` is its inverse, used to state the round trip.
 */
module Strconv {
  import opened Wrappers

  const MaxUint64: int := 0xFFFF_FFFF_FFFF_FFFF

  /** Go's `uint64`. */
  type uint64 = x: int | 0 <= x <= MaxUint64

  /** The two errors `strconv.ParseUint` reports. */
  datatype NumErrKind = ErrSyntax | ErrRange

  /** `*strconv.NumError`: the offending text and what was wrong with it. */
  datatype NumError = NumError(num: string, err: NumErrKind)

  predicate IsDigit(c: char) {
    '0' <= c <= '9'
  }

  predicate AllDigits(s: string) {
    forall k :: 0 <= k < |s| ==> IsDigit(s[k])
  }

  function DigitValue(c: char): (d: nat)
    requires IsDigit(c)
    ensures d < 10
  {
    c as int - '0' as int
  }

  function DigitChar(d: nat): (c: char)
    requires d < 10
    ensures IsDigit(c) && DigitValue(c) == d
  {
    ('0' as int + d) as char
  }

  /** The number a string of decimal digits denotes, most significant digit first. */
  function DigitsValue(s: string): nat
    requires AllDigits(s)
  {
    if s == [] then 0 else DigitsValue(s[..|s| - 1]) * 10 + DigitValue(s[|s| - 1])
  }

  /**
    `strconv.ParseUint(s, 10, 64)`: the empty string is a syntax error; the
    digits are scanned left to right, the first non-digit is a syntax error
    (value 0) and the first prefix whose value passes the 64-bit maximum is a
    range error (value MaxUint64).
   */
  function ParseUint(s: string): (uint64, Option<NumError>) {
    if s == [] then (0, Some(NumError(s, ErrSyntax))) else Scan(s, 0, 0)
  }

  function Scan(s: string, i: nat, acc: uint64): (uint64, Option<NumError>)
    requires i <= |s|
    decreases |s| - i
  {
    if i == |s| then (acc, None)
    else if !IsDigit(s[i]) then (0, Some(NumError(s, ErrSyntax)))
    else
      var n := acc * 10 + DigitValue(s[i]);
      if n > MaxUint64 then (MaxUint64, Some(NumError(s, ErrRange)))
      else Scan(s, i + 1, n)
  }

  /** Whether `s` is text that `ParseUint` accepts. */
  predicate IsUint64Text(s: string) {
    s != [] && AllDigits(s) && DigitsValue(s) <= MaxUint64
  }

  /** `strconv.FormatUint(v, 10)`: the shortest decimal rendering of `v`. */
  function FormatUint(v: nat): (s: string)
    ensures s != [] && AllDigits(s)
  {
    if v < 10 then [DigitChar(v)] else FormatUint(v / 10) + [DigitChar(v % 10)]
  }

  lemma {:induction false} DigitsValuePrefixMonotone(s: string, i: nat, j: nat)
    requires AllDigits(s) && i <= j <= |s|
    ensures DigitsValue(s[..i]) <= DigitsValue(s[..j])
    decreases j - i
  {
    if i < j {
      assert s[..j][..j - 1] == s[..j - 1];
      DigitsValuePrefixMonotone(s, i, j - 1);
    }
  }

  /** Scanning digits from position `i` with the value of `s[..i]` accumulated. */
  lemma {:induction false} ScanDigits(s: string, i: nat, acc: uint64)
    requires AllDigits(s) && i <= |s| && acc == DigitsValue(s[..i])
    ensures DigitsValue(s) <= MaxUint64 ==> Scan(s, i, acc) == (DigitsValue(s), None)
    ensures DigitsValue(s) > MaxUint64 ==> Scan(s, i, acc) == (MaxUint64, Some(NumError(s, ErrRange)))
    decreases |s| - i
  {
    if i == |s| {
      assert s[..i] == s;
    } else {
      assert s[..i + 1][..i] == s[..i];
      var n := acc * 10 + DigitValue(s[i]);
      assert n == DigitsValue(s[..i + 1]);
      DigitsValuePrefixMonotone(s, i + 1, |s|);
      assert s[..|s|] == s;
      if n <= MaxUint64 {
        ScanDigits(s, i + 1, n);
      }
    }
  }

  /**
    ParseUint succeeds exactly on non-empty, all-digit text whose value fits in
    64 bits, and then returns that value.
   */
  lemma ParseUintOk(s: string)
    ensures ParseUint(s).1 == None <==> IsUint64Text(s)
    ensures IsUint64Text(s) ==> ParseUint(s).0 == DigitsValue(s)
  {
    if s != [] {
      if AllDigits(s) {
        ScanDigits(s, 0, 0);
      } else {
        var k :| 0 <= k < |s| && !IsDigit(s[k]);
        ScanFails(s, 0, 0, k);
      }
    }
  }

  /** A non-digit in the unscanned part makes the scan fail. */
  lemma {:induction false} ScanFails(s: string, i: nat, acc: uint64, k: nat)
    requires i <= k < |s| && !IsDigit(s[k])
    ensures Scan(s, i, acc).1 != None
    decreases |s| - i
  {
    if i < k && IsDigit(s[i]) {
      var n := acc * 10 + DigitValue(s[i]);
      if n <= MaxUint64 {
        ScanFails(s, i + 1, n, k);
      }
    }
  }

  /** What ParseUint returns along with each error (Go's documented values). */
  lemma {:induction false} ParseUintErrorValue(s: string)
    ensures ParseUint(s).1 == Some(NumError(s, ErrSyntax)) ==> ParseUint(s).0 == 0
    ensures ParseUint(s).1 == Some(NumError(s, ErrRange)) ==> ParseUint(s).0 == MaxUint64
    ensures ParseUint(s).1 == None || ParseUint(s).1 == Some(NumError(s, ErrSyntax))
                                   || ParseUint(s).1 == Some(NumError(s, ErrRange))
  {
    if s != [] {
      ScanErrorValue(s, 0, 0);
    }
  }

  lemma {:induction false} ScanErrorValue(s: string, i: nat, acc: uint64)
    requires i <= |s|
    ensures Scan(s, i, acc).1 == Some(NumError(s, ErrSyntax)) ==> Scan(s, i, acc).0 == 0
    ensures Scan(s, i, acc).1 == Some(NumError(s, ErrRange)) ==> Scan(s, i, acc).0 == MaxUint64
    ensures Scan(s, i, acc).1 == None || Scan(s, i, acc).1 == Some(NumError(s, ErrSyntax))
                                      || Scan(s, i, acc).1 == Some(NumError(s, ErrRange))
    decreases |s| - i
  {
    if i < |s| && IsDigit(s[i]) {
      var n := acc * 10 + DigitValue(s[i]);
      if n <= MaxUint64 {
        ScanErrorValue(s, i + 1, n);
      }
    }
  }

  /** Every too-large digit string is a range error, never silently truncated. */
  lemma ParseUintRange(s: string)
    requires s != [] && AllDigits(s) && DigitsValue(s) > MaxUint64
    ensures ParseUint(s) == (MaxUint64, Some(NumError(s, ErrRange)))
  {
    ScanDigits(s, 0, 0);
  }

  lemma {:induction false} FormatUintValue(v: nat)
    ensures DigitsValue(FormatUint(v)) == v
  {
    var s := FormatUint(v);
    if v >= 10 {
      FormatUintValue(v / 10);
      assert s[..|s| - 1] == FormatUint(v / 10);
    }
  }

  /** Parsing the decimal rendering of any 64-bit value gives that value back. */
  lemma ParseFormatRoundTrip(v: uint64)
    ensures ParseUint(FormatUint(v)) == (v, None)
  {
    FormatUintValue(v);
    ParseUintOk(FormatUint(v));
  }
}
