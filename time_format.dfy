/** Decimal rendering of integers: `String(n)` and `padStart(2, '0')`. */
module Decimal {

  predicate IsDigit(c: char)
  {
    '0' <= c <= '9'
  }

  predicate AllDigits(s: string)
  {
    forall i :: 0 <= i < |s| ==> IsDigit(s[i])
  }

  function DigitChar(d: nat): (c: char)
    requires d < 10
    ensures IsDigit(c)
  {
    (48 + d) as char
  }

  function DigitValue(c: char): (d: nat)
    requires IsDigit(c)
    ensures d < 10
  {
    c as int - 48
  }

  /** `String(n)` for a non-negative integer: decimal digits without leading zeros. */
  function NatToString(n: nat): (r: string)
    ensures |r| >= 1 && AllDigits(r)
    ensures |r| > 1 ==> r[0] != '0'
    decreases n
  {
    if n < 10 then [DigitChar(n)]
    else NatToString(n / 10) + [DigitChar(n % 10)]
  }

  /** The number a string of decimal digits denotes (leading zeros allowed; the empty string is 0). */
  function Value(s: string): nat
    requires AllDigits(s)
  {
    if s == [] then 0 else Value(s[..|s| - 1]) * 10 + DigitValue(s[|s| - 1])
  }

  /** Reading back the digits of `String(n)` gives `n`. */
  lemma {:induction false} ValueOfNatToString(n: nat)
    ensures Value(NatToString(n)) == n
    decreases n
  {
    if n >= 10 {
      ValueOfNatToString(n / 10);
      var r := NatToString(n);
      assert r[..|r| - 1] == NatToString(n / 10);
    }
  }

  /** `String(n)` has one digit below 10 and at most two below 100. */
  lemma {:induction false} NatToStringLength(n: nat)
    ensures |NatToString(n)| == 1 <==> n < 10
    ensures |NatToString(n)| <= 2 <==> n < 100
    decreases n
  {
    if n >= 10 {
      NatToStringLength(n / 10);
    }
  }

  /** `s.padStart(2, '0')`. */
  function PadStart2(s: string): (r: string)
    ensures |r| == if |s| >= 2 then |s| else 2
    ensures r[|r| - |s|..] == s
    ensures forall i :: 0 <= i < |r| - |s| ==> r[i] == '0'
  {
    if |s| >= 2 then s
    else if |s| == 1 then "0" + s
    else "00"
  }

  /** Zero padding does not change the value. */
  lemma {:induction false} ValueOfPadded(s: string)
    requires AllDigits(s)
    ensures AllDigits(PadStart2(s)) && Value(PadStart2(s)) == Value(s)
  {
    var r := PadStart2(s);
    if |s| == 1 {
      assert r[..1] == "0";
    } else if |s| == 0 {
      assert r[..1] == "0";
      assert r[..1][..0] == [];
    }
  }

  /** `String(n).padStart(2, '0')` is all digits and reads back as `n`; below 100 it is exactly two characters. */
  lemma PaddedValue(n: nat)
    ensures AllDigits(PadStart2(NatToString(n))) && Value(PadStart2(NatToString(n))) == n
    ensures n < 100 ==> |PadStart2(NatToString(n))| == 2
  {
    ValueOfPadded(NatToString(n));
    ValueOfNatToString(n);
    NatToStringLength(n);
  }

  /** `String(i)` for any integer: a minus sign before the digits of a negative one. */
  function IntToString(i: int): (r: string)
    ensures i >= 0 ==> r == NatToString(i)
    ensures i < 0 ==> r == "-" + NatToString(-i)
  {
    if i < 0 then "-" + NatToString(-i) else NatToString(i)
  }
}

/** The minutes, seconds and centiseconds both time formatters extract. */
module Clock {
  import opened JsMath

  /** `Math.floor(t / 60)`. */
  function Minutes(t: real): int
  {
    Floor(t / 60.0)
  }

  /** `Math.floor(t % 60)`. */
  function Seconds(t: real): int
  {
    Floor(JsRem(t, 60.0))
  }

  /** `Math.floor((t * 100) % 100)`. */
  function Centiseconds(t: real): int
  {
    Floor(JsRem(t * 100.0, 100.0))
  }

  /**
   * For a non-negative time the fields are a non-negative minute count, a
   * second within the minute and a hundredth within the second: together
   * they are whole seconds `60 * m + s` and hundredths `floor(100 t) mod 100`.
   */
  lemma TimeFields(t: real)
    requires t >= 0.0
    ensures Minutes(t) >= 0
    ensures 0 <= Seconds(t) < 60 && 0 <= Centiseconds(t) < 100
    ensures 60 * Minutes(t) + Seconds(t) == Floor(t)
    ensures Centiseconds(t) == Floor(t * 100.0) - 100 * Floor(t)
  {
    JsRemRange(t, 60.0);
    JsRemRange(t * 100.0, 100.0);
    JsRemFloor(t, 60.0);
    JsRemFloor(t * 100.0, 100.0);
    FloorShift(t, 60 * Minutes(t));
    assert t * 100.0 / 100.0 == t;
    FloorShift(t * 100.0, 100 * Floor(t));
  }
}

/** `formatTime` of the transport's time readout: `MM:SS:CC`. */
module TimeDisplay {
  import opened Common
  import opened Decimal
  import opened Clock

  /** Three fields joined by colons. */
  function Join(m: string, s: string, c: string): string
  {
    m + ":" + s + ":" + c
  }

  /** With two-character seconds and centiseconds the fields sit at fixed offsets from the end. */
  lemma JoinSplit(m: string, s: string, c: string)
    requires |s| == 2 && |c| == 2
    ensures var r := Join(m, s, c);
      && |r| == |m| + 6 && r[|r| - 6] == ':' && r[|r| - 3] == ':'
      && r[..|r| - 6] == m && r[|r| - 5..|r| - 3] == s && r[|r| - 2..] == c
  {
  }

  /** `formatTime`; a negative time reads `00:00:00` (NaN is not modelled). */
  function FormatTimer(t: real): (r: string)
    ensures t < 0.0 ==> r == "00:00:00"
    ensures |r| >= 8 && r[|r| - 6] == ':' && r[|r| - 3] == ':'
  {
    if t < 0.0 then "00:00:00"
    else
      TimeFields(t);
      var m := PadStart2(NatToString(Minutes(t)));
      var s := PadStart2(NatToString(Seconds(t)));
      var c := PadStart2(NatToString(Centiseconds(t)));
      PaddedValue(Seconds(t));
      PaddedValue(Centiseconds(t));
      JoinSplit(m, s, c);
      Join(m, s, c)
  }

  /** Reads `M..M:SS:CC` back into its three fields. */
  function ReadTimer(r: string): Option<(nat, nat, nat)>
  {
    if |r| < 8 || r[|r| - 6] != ':' || r[|r| - 3] != ':' then None
    else
      var m, s, c := r[..|r| - 6], r[|r| - 5..|r| - 3], r[|r| - 2..];
      if AllDigits(m) && AllDigits(s) && AllDigits(c) then Some((Value(m), Value(s), Value(c))) else None
  }

  /**
   * The readout is faithful: reading it back gives the minutes, the seconds
   * and the centiseconds of the time (all zero for a negative time).
   */
  lemma ReadFormatTimer(t: real)
    ensures t < 0.0 ==> ReadTimer(FormatTimer(t)) == Some((0, 0, 0))
    ensures t >= 0.0 ==> (
      && Minutes(t) >= 0 && Seconds(t) >= 0 && Centiseconds(t) >= 0
      && ReadTimer(FormatTimer(t)) == Some((Minutes(t) as nat, Seconds(t) as nat, Centiseconds(t) as nat)))
  {
    if t < 0.0 {
      PaddedValue(0);
      assert PadStart2(NatToString(0)) == "00";
      JoinSplit("00", "00", "00");
      assert FormatTimer(t) == Join("00", "00", "00");
    } else {
      TimeFields(t);
      var m := PadStart2(NatToString(Minutes(t)));
      var s := PadStart2(NatToString(Seconds(t)));
      var c := PadStart2(NatToString(Centiseconds(t)));
      PaddedValue(Minutes(t));
      PaddedValue(Seconds(t));
      PaddedValue(Centiseconds(t));
      JoinSplit(m, s, c);
      assert FormatTimer(t) == Join(m, s, c);
    }
  }
}

/** The progress bar beside the transport: `M:SS` labels and a percentage. */
module PlaybackTracker {
  import opened Common
  import opened Decimal
  import opened Clock

  /** `formatTime`: unpadded minutes, seconds padded to two characters. */
  function FormatClock(t: real): (r: string)
    ensures t >= 0.0 ==> |r| >= 4 && r[|r| - 3] == ':'
  {
    SecondsFitTwoDigits(t);
    IntToString(Minutes(t)) + ":" + PadStart2(IntToString(Seconds(t)))
  }

  lemma SecondsFitTwoDigits(t: real)
    ensures t >= 0.0 ==> 0 <= Seconds(t) < 60 && |NatToString(Seconds(t))| <= 2
  {
    if t >= 0.0 {
      TimeFields(t);
      NatToStringLength(Seconds(t));
    }
  }

  /** Reads `M..M:SS` back into minutes and seconds. */
  function ReadClock(r: string): Option<(nat, nat)>
  {
    if |r| < 4 || r[|r| - 3] != ':' then None
    else
      var m, s := r[..|r| - 3], r[|r| - 2..];
      if AllDigits(m) && AllDigits(s) then Some((Value(m), Value(s))) else None
  }

  /** For a non-negative time the label reads back as its minutes and seconds. */
  lemma ReadFormatClock(t: real)
    requires t >= 0.0
    ensures Minutes(t) >= 0 && Seconds(t) >= 0
    ensures ReadClock(FormatClock(t)) == Some((Minutes(t) as nat, Seconds(t) as nat))
  {
    TimeFields(t);
    var m := NatToString(Minutes(t));
    var s := PadStart2(NatToString(Seconds(t)));
    ValueOfNatToString(Minutes(t));
    PaddedValue(Seconds(t));
    assert FormatClock(t) == m + ":" + s;
    ClockSplit(m, s);
  }

  /** A label made of digits, a colon and two digits reads back as the two numbers. */
  lemma ClockSplit(m: string, s: string)
    requires |m| >= 1 && AllDigits(m) && |s| == 2 && AllDigits(s)
    ensures ReadClock(m + ":" + s) == Some((Value(m), Value(s)))
  {
    var r := m + ":" + s;
    assert r[..|r| - 3] == m;
    assert r[|r| - 2..] == s;
  }

  /** `totalDuration > 0 ? (currentTime / totalDuration) * 100 : 0`. */
  function Progress(currentTime: real, totalDuration: real): (p: real)
    ensures totalDuration <= 0.0 ==> p == 0.0
    ensures totalDuration > 0.0 ==> p * totalDuration == currentTime * 100.0
  {
    if totalDuration > 0.0 then (currentTime / totalDuration) * 100.0 else 0.0
  }

  /** A playhead inside the loop fills the bar to a percentage in [0, 100). */
  lemma ProgressRange(currentTime: real, totalDuration: real)
    requires 0.0 <= currentTime < totalDuration
    ensures 0.0 <= Progress(currentTime, totalDuration) < 100.0
  {
    var p := Progress(currentTime, totalDuration);
    if p >= 100.0 {
      JsMath.MulLeftMono(totalDuration, 100.0, p);
    }
    if p < 0.0 {
      JsMath.MulLeftStrict(totalDuration, p, 0.0);
    }
  }

  /** A later playhead never shows less progress. */
  lemma ProgressMonotone(a: real, b: real, totalDuration: real)
    requires a <= b
    ensures Progress(a, totalDuration) <= Progress(b, totalDuration)
  {
    if totalDuration > 0.0 {
      var pa, pb := Progress(a, totalDuration), Progress(b, totalDuration);
      if pa > pb {
        JsMath.MulLeftStrict(totalDuration, pb, pa);
      }
    }
  }
}
