/**
 * The telemetry Message record shared by the decoder and the mapping runtime
 * (Message.h, Source/Message.h), its byte alphabet, and the part of std::stoi
 * the decoder relies on.
 */
module Messages {
  import opened Wrappers

  /** A value of an 8-bit `uint8_t` / `char` read from the serial link. */
  type byte = b: int | 0 <= b < 256

  const PlusSign: byte := 43    // '+'
  const MinusSign: byte := 45   // '-'
  const XAxis: byte := 71       // 'G'
  const YAxis: byte := 66       // 'B'
  const CarriageReturn: byte := 13
  const Digit0: byte := 48      // '0'
  const Digit9: byte := 57      // '9'

  /** Largest value of a 32-bit `int`: std::stoi reports anything above it as out of range. */
  const IntMax: int := 0x7fff_ffff

  /** direction is 'G' (X axis) or 'B' (Y axis), verse is '+' or '-', value is the intensity. */
  datatype Message = Message(direction: byte, verse: byte, value: int)

  predicate IsDigit(c: byte) {
    Digit0 <= c <= Digit9
  }

  predicate IsAxis(c: byte) {
    c == XAxis || c == YAxis
  }

  ghost predicate AllDigits(s: seq<byte>) {
    forall i :: 0 <= i < |s| ==> IsDigit(s[i])
  }

  /** The number written by a string of decimal digits, most significant first. */
  function DecimalValue(s: seq<byte>): (v: nat)
    requires AllDigits(s)
  {
    if s == [] then 0 else 10 * DecimalValue(s[..|s| - 1]) + (s[|s| - 1] - Digit0)
  }

  /** DecimalValue grows by one decimal place for each appended digit. */
  lemma {:induction false} DecimalValueBound(s: seq<byte>)
    requires AllDigits(s)
    ensures DecimalValue(s) < Pow10(|s|)
  {
    if s != [] {
      DecimalValueBound(s[..|s| - 1]);
    }
  }

  function Pow10(n: nat): (p: nat)
    ensures p >= 1
  {
    if n == 0 then 1 else 10 * Pow10(n - 1)
  }

  lemma {:induction false} Pow10Monotone(m: nat, n: nat)
    requires m <= n
    ensures Pow10(m) <= Pow10(n)
  {
    if m < n {
      Pow10Monotone(m, n - 1);
    }
  }

  datatype StoiError = InvalidArgument | OutOfRange

  /**
   * std::stoi on a string of decimal digits: an empty string throws
   * std::invalid_argument, a value above INT_MAX throws std::out_of_range.
   */
  function Stoi(s: seq<byte>): (r: Result<int, StoiError>)
    requires AllDigits(s)
    ensures r.Ok? ==> 0 <= r.value <= IntMax && r.value == DecimalValue(s)
    ensures r == Err(InvalidArgument) <==> s == []
    ensures s != [] && DecimalValue(s) <= IntMax ==> r.Ok?
    ensures s != [] && |s| <= 9 ==> r.Ok?
  {
    DecimalValueBound(s);
    assert |s| <= 9 ==> DecimalValue(s) <= IntMax by {
      if |s| <= 9 {
        Pow10Monotone(|s|, 9);
        assert Pow10(9) == 1000000000;
      }
    }
    if s == [] then Err(InvalidArgument)
    else if DecimalValue(s) > IntMax then Err(OutOfRange)
    else
      Ok(DecimalValue(s))
  }
}
