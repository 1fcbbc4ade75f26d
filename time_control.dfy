/** setup_time_control (main.py): "minutes+increment" to seconds, with a fallback of ten minutes. */
module TimeControl {
  import opened Wrappers
  import opened PyText

  /** The fallback the parser returns when a part is not an integer: 10 minutes, no increment. */
  const Fallback: (int, int) := (10 * 60, 0)

  /**
   * The first '+'-separated part as minutes (converted to seconds), the second as the increment
   * in seconds (0 when there is none); a part that `int` refuses gives the fallback.
   */
  function SetupTimeControl(s: string): (r: (int, int))
    ensures ParseInt(Split(s, '+')[0]).None? ==> r == Fallback
    ensures ParseInt(Split(s, '+')[0]).Some? && r != Fallback ==> r.0 == 60 * ParseInt(Split(s, '+')[0]).value
    ensures |Split(s, '+')| > 1 && ParseInt(Split(s, '+')[0]).Some? && ParseInt(Split(s, '+')[1]).None? ==> r == Fallback
    ensures |Split(s, '+')| > 1 && ParseInt(Split(s, '+')[0]).Some? && ParseInt(Split(s, '+')[1]).Some? ==>
      r == (60 * ParseInt(Split(s, '+')[0]).value, ParseInt(Split(s, '+')[1]).value)
    ensures |Split(s, '+')| == 1 && ParseInt(Split(s, '+')[0]).Some? ==> r == (60 * ParseInt(Split(s, '+')[0]).value, 0)
  {
    var parts := Split(s, '+');
    match ParseInt(parts[0])
    case None => Fallback
    case Some(minutes) =>
      if |parts| > 1 then
        match ParseInt(parts[1])
        case None => Fallback
        case Some(increment) => (minutes * 60, increment)
      else (minutes * 60, 0)
  }

  /** `str(n)` never contains a '+'. */
  lemma NoPlusInInt(n: int)
    ensures '+' !in IntToString(n)
  {
    var d := NatDigits(if n < 0 then -n else n);
    forall i | 0 <= i < |d| ensures d[i] != '+' {
      assert DigitValue(d[i]).Some?;
    }
  }

  /** "M+I" whose parts `int` reads as m and i gives m minutes in seconds and i seconds of increment. */
  lemma MinutesPlusIncrement(a: string, b: string, m: int, i: int)
    requires '+' !in a && '+' !in b
    requires ParseInt(a) == Some(m) && ParseInt(b) == Some(i)
    ensures SetupTimeControl(a + "+" + b) == (60 * m, i)
  {
    assert a + "+" + b == a + ['+'] + b;
    SplitPrefix(a, '+', b);
    SplitNoSep(b, '+');
    assert Split(a + "+" + b, '+') == [a, b];
  }

  /** In particular "M+I" written with `str` gives M minutes in seconds and I seconds of increment. */
  lemma CanonicalMinutesPlusIncrement(m: int, i: int)
    ensures SetupTimeControl(IntToString(m) + "+" + IntToString(i)) == (60 * m, i)
  {
    NoPlusInInt(m);
    NoPlusInInt(i);
    IntRoundTrip(m);
    IntRoundTrip(i);
    MinutesPlusIncrement(IntToString(m), IntToString(i), m, i);
  }

  /** A refused increment gives the fallback even when the minutes are read: "10+x" is ten minutes of nothing. */
  lemma RefusedIncrement(a: string, b: string)
    requires '+' !in a && '+' !in b
    requires ParseInt(a).Some? && ParseInt(b).None?
    ensures SetupTimeControl(a + "+" + b) == Fallback
  {
    assert a + "+" + b == a + ['+'] + b;
    SplitPrefix(a, '+', b);
    SplitNoSep(b, '+');
    assert Split(a + "+" + b, '+') == [a, b];
  }

  /** A string without '+' is the minutes alone, with no increment (or the fallback). */
  lemma NoIncrement(s: string)
    requires '+' !in s
    ensures SetupTimeControl(s) == match ParseInt(s) case None => Fallback case Some(m) => (60 * m, 0)
  {
    SplitNoSep(s, '+');
  }

  /** Everything after a second '+' is ignored. */
  lemma ExtraPartsIgnored(a: string, b: string, c: string)
    requires '+' !in a && '+' !in b
    ensures SetupTimeControl(a + "+" + b + "+" + c) == SetupTimeControl(a + "+" + b)
  {
    assert a + "+" + b + "+" + c == a + ['+'] + (b + ['+'] + c);
    SplitPrefix(a, '+', b + ['+'] + c);
    SplitPrefix(b, '+', c);
    SplitJoin([a, b], '+');
    assert Join([a, b], "+") == a + "+" + b;
  }
}
