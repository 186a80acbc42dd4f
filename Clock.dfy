/** The wall-clock text both loggers work from: SimpleDateFormat's "HH:mm:ss" at start-up
    and "HH:mm:ss:SSS" on every tick. The clock itself is not modelled: readings come in
    as their hour, minute, second and millisecond. */
module Clock {
  import opened JavaLang

  predicate ValidReading(h: int, m: int, s: int, ms: int)
  {
    0 <= h < 24 && 0 <= m < 60 && 0 <= s < 60 && 0 <= ms < 1000
  }

  /** "HH:mm:ss:SSS" for a reading. */
  function TickText(h: nat, m: nat, s: nat, ms: nat): string
    requires ValidReading(h, m, s, ms)
  {
    Join([PadDigits(h, 2), PadDigits(m, 2), PadDigits(s, 2), PadDigits(ms, 3)], ':')
  }

  /** "HH:mm:ss" for a reading. */
  function StartText(h: nat, m: nat, s: nat): string
    requires ValidReading(h, m, s, 0)
  {
    Join([PadDigits(h, 2), PadDigits(m, 2), PadDigits(s, 2)], ':')
  }

  /** Text whose first three ':'-separated fields `Long.parseLong` accepts. */
  predicate HasClockFields(text: string)
  {
    var f := Split(text, ':');
    |f| >= 3 && IsIntLiteral(f[0]) && IsIntLiteral(f[1]) && IsIntLiteral(f[2])
  }

  /** hours * 3600 + minutes * 60 + seconds, read from the first three fields. */
  function SecondsOfDay(text: string): int
    requires HasClockFields(text)
  {
    var f := Split(text, ':');
    IntValue(f[0]) * 3600 + IntValue(f[1]) * 60 + IntValue(f[2])
  }

  lemma PaddedField(n: nat, width: nat)
    requires 1 <= width <= 3 && n < Pow10(width)
    ensures IsIntLiteral(PadDigits(n, width)) && IntValue(PadDigits(n, width)) == n
    ensures ':' !in PadDigits(n, width) && ',' !in PadDigits(n, width)
  {
    PadDigitsValue(n, width);
    var p := PadDigits(n, width);
    assert IsDigit(p[0]);
    assert forall k :: 0 <= k < |p| ==> p[k] != ':' && p[k] != ',';
  }

  /** Reading back the fields of a tick's text gives the reading; the milliseconds field
      is the fourth one. */
  lemma {:induction false} TickTextFields(h: nat, m: nat, s: nat, ms: nat)
    requires ValidReading(h, m, s, ms)
    ensures Split(TickText(h, m, s, ms), ':') == [PadDigits(h, 2), PadDigits(m, 2), PadDigits(s, 2), PadDigits(ms, 3)]
    ensures HasClockFields(TickText(h, m, s, ms))
    ensures SecondsOfDay(TickText(h, m, s, ms)) == h * 3600 + m * 60 + s
    ensures IsIntLiteral(PadDigits(ms, 3)) && IntValue(PadDigits(ms, 3)) == ms
    ensures ',' !in TickText(h, m, s, ms)
  {
    var f := [PadDigits(h, 2), PadDigits(m, 2), PadDigits(s, 2), PadDigits(ms, 3)];
    PaddedField(h, 2);
    PaddedField(m, 2);
    PaddedField(s, 2);
    PaddedField(ms, 3);
    SplitJoin(f, ':');
    JoinWithout(f, ':', ',');
  }

  lemma {:induction false} StartTextFields(h: nat, m: nat, s: nat)
    requires ValidReading(h, m, s, 0)
    ensures HasClockFields(StartText(h, m, s))
    ensures SecondsOfDay(StartText(h, m, s)) == h * 3600 + m * 60 + s
  {
    var f := [PadDigits(h, 2), PadDigits(m, 2), PadDigits(s, 2)];
    PaddedField(h, 2);
    PaddedField(m, 2);
    PaddedField(s, 2);
    SplitJoin(f, ':');
  }
}
