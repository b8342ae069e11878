/** The on-screen debug line of ClothRenderer::makeDebugInfoString
    (clcloth/main.cpp:648-665) and a reader that recovers its fields. */
module DebugText {

  datatype Option<T> = None | Some(value: T) {
    predicate IsFailure() { None? }
    function PropagateFailure<U>(): Option<U> requires None? { None }
    function Extract(): T requires Some? { value }
  }

  predicate IsDigit(c: char) { '0' <= c <= '9' }

  /** A character that can occur in a printed int. */
  predicate IsNumeral(c: char) { c == '-' || IsDigit(c) }

  predicate AllDigits(s: string) { forall i :: 0 <= i < |s| ==> IsDigit(s[i]) }

  function DigitChar(d: nat): (c: char)
    requires d < 10
    ensures IsDigit(c)
  {
    (('0' as int) + d) as char
  }

  function DigitValue(c: char): (d: nat)
    requires IsDigit(c)
    ensures d < 10 && DigitChar(d) == c
  {
    (c as int) - ('0' as int)
  }

  /** Decimal digits of n, most significant first, without leading zeros. */
  function Digits(n: nat): (s: string)
    ensures |s| > 0 && AllDigits(s)
    ensures |s| > 1 ==> s[0] != '0'
  {
    if n < 10 then [DigitChar(n)] else Digits(n / 10) + [DigitChar(n % 10)]
  }

  /** What `std::ostream << int` writes: a minus sign for negative values, then the digits. */
  function IntToString(n: int): (s: string)
    ensures |s| > 0 && (s[0] == '-' <==> n < 0)
    ensures forall i :: 0 <= i < |s| ==> IsNumeral(s[i])
    ensures AllDigits(if n < 0 then s[1..] else s)
  {
    if n < 0 then "-" + Digits(-n) else Digits(n)
  }

  /** Value of a digit string read left to right. */
  function DigitsValue(s: string): nat
    requires AllDigits(s)
  {
    if s == [] then 0 else DigitsValue(s[..|s| - 1]) * 10 + DigitValue(s[|s| - 1])
  }

  /** Read an optionally signed decimal integer that fills s entirely. */
  function ParseInt(s: string): Option<int>
  {
    if |s| > 1 && s[0] == '-' && AllDigits(s[1..]) then Some(0 - DigitsValue(s[1..]))
    else if |s| > 0 && AllDigits(s) then Some(DigitsValue(s))
    else None
  }

  lemma {:induction false} DigitsRoundTrip(n: nat)
    ensures DigitsValue(Digits(n)) == n
  {
    if n >= 10 {
      var s := Digits(n);
      assert s[..|s| - 1] == Digits(n / 10);
      DigitsRoundTrip(n / 10);
    }
  }

  /** Reading back a printed int gives the int. */
  lemma IntRoundTrip(n: int)
    ensures ParseInt(IntToString(n)) == Some(n)
  {
    if n < 0 {
      assert IntToString(n)[1..] == Digits(-n);
      DigitsRoundTrip(-n);
    } else {
      DigitsRoundTrip(n);
    }
  }

  /** Length of the longest prefix of s made of numeral characters. */
  function NumeralSpan(s: string): (n: nat)
    ensures n <= |s|
  {
    if s == [] || !IsNumeral(s[0]) then 0 else 1 + NumeralSpan(s[1..])
  }

  lemma {:induction false} NumeralSpanOfPrefix(a: string, rest: string)
    requires forall i :: 0 <= i < |a| ==> IsNumeral(a[i])
    ensures NumeralSpan(a + rest) == |a| + NumeralSpan(rest)
  {
    if a == [] {
      assert a + rest == rest;
    } else {
      assert (a + rest)[0] == a[0];
      assert (a + rest)[1..] == a[1..] + rest;
      NumeralSpanOfPrefix(a[1..], rest);
    }
  }

  /** Read an int from the front of s; return it with the remaining text. */
  function ReadInt(s: string): Option<(int, string)>
  {
    var n := NumeralSpan(s);
    var v :- ParseInt(s[..n]);
    Some((v, s[n..]))
  }

  /** Consume the literal text lit from the front of s. */
  function Expect(lit: string, s: string): Option<string>
  {
    if |lit| <= |s| && s[..|lit|] == lit then Some(s[|lit|..]) else None
  }

  lemma ExpectPrefix(lit: string, rest: string)
    ensures Expect(lit, lit + rest) == Some(rest)
  {
    assert (lit + rest)[..|lit|] == lit;
    assert (lit + rest)[|lit|..] == rest;
  }

  /** A printed int followed by text that does not start with a numeral reads back exactly. */
  lemma ReadIntOfPrinted(n: int, rest: string)
    requires rest == [] || !IsNumeral(rest[0])
    ensures ReadInt(IntToString(n) + rest) == Some((n, rest))
  {
    var a := IntToString(n);
    NumeralSpanOfPrefix(a, rest);
    assert (a + rest)[..|a|] == a;
    assert (a + rest)[|a|..] == rest;
    IntRoundTrip(n);
  }

  /** The frame-rate field: 1000 ms divided by the summed durations, or N/A. For a positive
      int t, truncating the single-precision quotient 1000 / float(t) gives the integer
      quotient 1000 / t. */
  function FpsText(totalDuration: int): string
  {
    if totalDuration > 0 then IntToString(1000 / totalDuration) else "N/A"
  }

  /** The debug line; the concatenation is grouped from the right. */
  function DebugInfoString(physics: int, transfer: int, render: int): string
  {
    "FPS: " + (FpsText(physics + transfer + render) + DurationsText(physics, transfer, render))
  }

  /** The part of the debug line after the frame rate. */
  function DurationsText(physics: int, transfer: int, render: int): string
  {
    ", simulation: " + (IntToString(physics) +
    (" ms, transfer: " + (IntToString(transfer) +
    (" ms, rendering: " + (IntToString(render) + " ms")))))
  }

  /** The fields of a debug line: frames per second (None for N/A) and the three durations in ms. */
  datatype DebugInfo = DebugInfo(fps: Option<int>, simulation: int, transfer: int, rendering: int)

  function ReadFps(s: string): Option<(Option<int>, string)>
  {
    if Expect("N/A", s).Some? then Some((None, Expect("N/A", s).value))
    else
      var r :- ReadInt(s);
      Some((Some(r.0), r.1))
  }

  /** Read the three durations that follow the frame rate. */
  function ReadDurations(s: string): Option<(int, int, int)>
  {
    var s1 :- Expect(", simulation: ", s);
    var simulation :- ReadInt(s1);
    var s2 :- Expect(" ms, transfer: ", simulation.1);
    var transfer :- ReadInt(s2);
    var s3 :- Expect(" ms, rendering: ", transfer.1);
    var rendering :- ReadInt(s3);
    var s4 :- Expect(" ms", rendering.1);
    if s4 == [] then Some((simulation.0, transfer.0, rendering.0)) else None
  }

  /** Read a debug line back into its fields. */
  function ParseDebugInfo(s: string): Option<DebugInfo>
  {
    var s1 :- Expect("FPS: ", s);
    var fps :- ReadFps(s1);
    var durations :- ReadDurations(fps.1);
    Some(DebugInfo(fps.0, durations.0, durations.1, durations.2))
  }

  lemma ReadDurationsRoundTrip(physics: int, transfer: int, render: int)
    ensures ReadDurations(DurationsText(physics, transfer, render)) == Some((physics, transfer, render))
  {
    var tail3 := " ms";
    var tail2 := " ms, rendering: " + (IntToString(render) + tail3);
    var tail1 := " ms, transfer: " + (IntToString(transfer) + tail2);
    ExpectPrefix(", simulation: ", IntToString(physics) + tail1);
    ReadIntOfPrinted(physics, tail1);
    ExpectPrefix(" ms, transfer: ", IntToString(transfer) + tail2);
    ReadIntOfPrinted(transfer, tail2);
    ExpectPrefix(" ms, rendering: ", IntToString(render) + tail3);
    ReadIntOfPrinted(render, tail3);
    ExpectPrefix(" ms", []);
    assert tail3 == " ms" + [];
  }

  lemma ReadFpsRoundTrip(total: int, rest: string)
    requires rest == [] || !IsNumeral(rest[0])
    ensures ReadFps(FpsText(total) + rest) == Some((if total > 0 then Some(1000 / total) else None, rest))
  {
    if total > 0 {
      var a := IntToString(1000 / total);
      assert (a + rest)[0] == a[0];
      ReadIntOfPrinted(1000 / total, rest);
    } else {
      ExpectPrefix("N/A", rest);
    }
  }

  /** What the debug line for these durations says: the frame rate 1000 / total, or N/A when
      the summed duration is not positive, and the three durations. */
  function Summary(physics: int, transfer: int, render: int): DebugInfo
  {
    var total := physics + transfer + render;
    DebugInfo(if total > 0 then Some(1000 / total) else None, physics, transfer, render)
  }

  /** The debug line can be read back into the fields it was made from. */
  lemma DebugInfoRoundTrip(physics: int, transfer: int, render: int)
    ensures ParseDebugInfo(DebugInfoString(physics, transfer, render)) == Some(Summary(physics, transfer, render))
  {
    var total := physics + transfer + render;
    var rest := DurationsText(physics, transfer, render);
    ExpectPrefix("FPS: ", FpsText(total) + rest);
    ReadFpsRoundTrip(total, rest);
    ReadDurationsRoundTrip(physics, transfer, render);
  }
}
