/**
 * The few Python string and integer operations the application relies on, written out so that
 * the models of its parsers and formatters say exactly what Python does: `str.split(sep)`,
 * `str.split()`, `str(int)`, `int(str)` for base 10, floor division and list slicing.
 */
module PyText {
  import opened Wrappers

  // ---------------------------------------------------------------- str.split(sep)

  /** `s.split(sep)` for a one-character separator: always at least one part, possibly empty ones. */
  function Split(s: string, sep: char): (parts: seq<string>)
    ensures |parts| >= 1
    ensures forall i | 0 <= i < |parts| :: sep !in parts[i]
    decreases |s|
  {
    if |s| == 0 then [""]
    else
      var rest := Split(s[1..], sep);
      if s[0] == sep then [""] + rest
      else [[s[0]] + rest[0]] + rest[1..]
  }

  /** `sep.join(parts)`. */
  function Join(parts: seq<string>, sep: string): string
    decreases |parts|
  {
    if |parts| == 0 then ""
    else if |parts| == 1 then parts[0]
    else parts[0] + sep + Join(parts[1..], sep)
  }

  /** Appending a part to a non-empty join adds the separator and then the part. */
  lemma {:induction false} JoinSnoc(parts: seq<string>, x: string, sep: string)
    requires |parts| >= 1
    ensures Join(parts + [x], sep) == Join(parts, sep) + sep + x
    decreases |parts|
  {
    if |parts| == 1 {
      assert parts + [x] == [parts[0], x];
      assert [parts[0], x][1..] == [x];
    } else {
      assert (parts + [x])[1..] == parts[1..] + [x];
      JoinSnoc(parts[1..], x, sep);
    }
  }

  /** Splitting a join gives the parts back when no part holds the separator. */
  lemma {:induction false} SplitJoin(parts: seq<string>, sep: char)
    requires |parts| >= 1
    requires forall i | 0 <= i < |parts| :: sep !in parts[i]
    ensures Split(Join(parts, [sep]), sep) == parts
    decreases |parts|
  {
    if |parts| == 1 {
      SplitNoSep(parts[0], sep);
    } else {
      SplitJoin(parts[1..], sep);
      SplitPrefix(parts[0], sep, Join(parts[1..], [sep]));
      assert [""] + parts[1..] == [""] + Split(Join(parts[1..], [sep]), sep);
    }
  }

  /** A string without the separator splits into itself. */
  lemma {:induction false} SplitNoSep(s: string, sep: char)
    requires sep !in s
    ensures Split(s, sep) == [s]
    decreases |s|
  {
    if |s| > 0 {
      assert sep !in s[1..];
      SplitNoSep(s[1..], sep);
      assert [s[0]] + s[1..] == s;
    }
  }

  /** Splitting `a + [sep] + b`, where `a` has no separator: `a`, then the parts of `b`. */
  lemma {:induction false} SplitPrefix(a: string, sep: char, b: string)
    requires sep !in a
    ensures Split(a + [sep] + b, sep) == [a] + Split(b, sep)
    decreases |a|
  {
    if |a| == 0 {
      assert a + [sep] + b == [sep] + b;
      assert ([sep] + b)[1..] == b;
    } else {
      assert (a + [sep] + b)[1..] == a[1..] + [sep] + b;
      assert sep !in a[1..];
      SplitPrefix(a[1..], sep, b);
      assert [a[0]] + a[1..] == a;
    }
  }

  // ---------------------------------------------------------------- str.split() and strip()

  /** The characters Python's `str.isspace` accepts (and `split()`, `strip()` and `int()` skip). */
  predicate IsSpace(ch: char)
  {
    ch == ' ' || '\t' <= ch <= '\r' || '\U{1c}' <= ch <= '\U{1f}' || ch == '\U{85}' || ch == '\U{a0}' ||
    ch == '\U{1680}' || '\U{2000}' <= ch <= '\U{200a}' || ch == '\U{2028}' || ch == '\U{2029}' ||
    ch == '\U{202f}' || ch == '\U{205f}' || ch == '\U{3000}'
  }

  predicate NoSpace(s: string)
  {
    forall i | 0 <= i < |s| :: !IsSpace(s[i])
  }

  /** `s.split()`: the maximal runs of non-space characters, in order; `word` is the run being read. */
  function WordsFrom(s: string, word: string): (ws: seq<string>)
    requires NoSpace(word)
    ensures forall i | 0 <= i < |ws| :: ws[i] != "" && NoSpace(ws[i])
    decreases |s|
  {
    if |s| == 0 then (if word == "" then [] else [word])
    else if IsSpace(s[0]) then (if word == "" then [] else [word]) + WordsFrom(s[1..], "")
    else WordsFrom(s[1..], word + [s[0]])
  }

  function Words(s: string): (ws: seq<string>)
    ensures forall i | 0 <= i < |ws| :: ws[i] != "" && NoSpace(ws[i])
  {
    WordsFrom(s, "")
  }

  /** `' '.join(words)`. */
  function Unwords(ws: seq<string>): string
  {
    Join(ws, " ")
  }

  /** Splitting a single-space join of non-empty words without spaces gives the words back. */
  lemma {:induction false} WordsUnwords(ws: seq<string>)
    requires forall i | 0 <= i < |ws| :: ws[i] != "" && NoSpace(ws[i])
    ensures Words(Unwords(ws)) == ws
    decreases |ws|
  {
    if |ws| == 1 {
      assert Unwords(ws) == ws[0] + "";
      WordsOfWord(ws[0], "", "");
      assert "" + ws[0] == ws[0];
    } else if |ws| > 1 {
      WordsUnwords(ws[1..]);
      WordsOfWord(ws[0], "", [' '] + Unwords(ws[1..]));
      assert "" + ws[0] == ws[0];
      assert ws[0] + " " + Join(ws[1..], " ") == ws[0] + (" " + Unwords(ws[1..]));
      assert ([' '] + Unwords(ws[1..]))[1..] == Unwords(ws[1..]);
      assert [ws[0]] + ws[1..] == ws;
    }
  }

  /** Reading a word of non-space characters extends the pending word and goes on with the rest. */
  lemma {:induction false} WordsOfWord(w: string, word: string, rest: string)
    requires NoSpace(word) && NoSpace(w)
    ensures WordsFrom(w + rest, word) == WordsFrom(rest, word + w)
    decreases |w|
  {
    if |w| > 0 {
      assert (w + rest)[1..] == w[1..] + rest;
      assert (w + rest)[0] == w[0];
      assert NoSpace(word + [w[0]]);
      assert NoSpace(w[1..]);
      WordsOfWord(w[1..], word + [w[0]], rest);
      assert word + [w[0]] + w[1..] == word + w;
    } else {
      assert w + rest == rest;
      assert word + w == word;
    }
  }

  /** `s.strip()`: without the spaces at both ends. */
  function Strip(s: string): (t: string)
    ensures |t| <= |s|
    ensures t == "" || (!IsSpace(t[0]) && !IsSpace(t[|t| - 1]))
    decreases |s|
  {
    if |s| == 0 then s
    else if IsSpace(s[0]) then Strip(s[1..])
    else if IsSpace(s[|s| - 1]) then Strip(s[..|s| - 1])
    else s
  }

  // ---------------------------------------------------------------- str(int) and int(str)

  /** The ASCII digit a character stands for; `int()` also accepts other Unicode digits. */
  function DigitValue(ch: char): (d: Option<nat>)
    ensures d.Some? ==> d.value < 10
  {
    if '0' <= ch <= '9' then Some(ch as int - '0' as int) else None
  }

  function DigitChar(d: nat): (ch: char)
    requires d < 10
    ensures DigitValue(ch) == Some(d)
  {
    ('0' as int + d) as char
  }

  predicate AllDigits(s: string)
  {
    forall i | 0 <= i < |s| :: DigitValue(s[i]).Some?
  }

  /** The number a string of decimal digits stands for, the last digit least significant. */
  function DigitsValue(s: string): nat
    requires AllDigits(s)
    decreases |s|
  {
    if |s| == 0 then 0 else 10 * DigitsValue(s[..|s| - 1]) + DigitValue(s[|s| - 1]).value
  }

  /** The shortest decimal digits of a natural number, as `str` prints it. */
  function NatDigits(n: nat): (s: string)
    ensures |s| >= 1 && AllDigits(s)
    ensures DigitsValue(s) == n
    ensures |s| > 1 ==> s[0] != '0'
    decreases n
  {
    if n < 10 then [DigitChar(n)]
    else
      var s := NatDigits(n / 10) + [DigitChar(n % 10)];
      assert s[..|s| - 1] == NatDigits(n / 10);
      s
  }

  /** `str(n)`. */
  function IntToString(n: int): (s: string)
    ensures |s| >= 1
  {
    if n < 0 then "-" + NatDigits(-n) else NatDigits(n)
  }

  /** The digits of a literal with single underscores between digits removed (`1_000`), or None. */
  function Ungrouped(s: string): (d: Option<string>)
    ensures d.Some? ==> AllDigits(d.value) && |d.value| >= 1
    decreases |s|
  {
    if |s| == 0 then None
    else if DigitValue(s[0]).None? then None
    else if |s| == 1 then Some(s)
    else if s[1] == '_' then
      match Ungrouped(s[2..])
      case Some(rest) => Some([s[0]] + rest)
      case None => None
    else
      match Ungrouped(s[1..])
      case Some(rest) => Some([s[0]] + rest)
      case None => None
  }

  /** ASCII digits have no underscores to remove. */
  lemma {:induction false} UngroupedDigits(s: string)
    requires AllDigits(s) && |s| >= 1
    ensures Ungrouped(s) == Some(s)
    decreases |s|
  {
    if |s| > 1 {
      assert AllDigits(s[1..]);
      UngroupedDigits(s[1..]);
      assert [s[0]] + s[1..] == s;
    }
  }

  /** `int(s)` in base 10: surrounding spaces, an optional sign, digits; None where Python raises ValueError. */
  function ParseInt(s: string): (n: Option<int>)
  {
    var t := Strip(s);
    if |t| > 0 && (t[0] == '-' || t[0] == '+') then
      match Ungrouped(t[1..])
      case Some(d) =>
        var v: int := DigitsValue(d);
        Some(if t[0] == '-' then -v else v)
      case None => None
    else
      match Ungrouped(t)
      case Some(d) => Some(DigitsValue(d))
      case None => None
  }

  /** `int(str(n)) == n` for every integer. */
  lemma IntRoundTrip(n: int)
    ensures ParseInt(IntToString(n)) == Some(n)
  {
    var s := IntToString(n);
    NoSpaceStrip(s);
    if n < 0 {
      assert s[1..] == NatDigits(-n);
      UngroupedDigits(NatDigits(-n));
    } else {
      UngroupedDigits(s);
    }
  }

  /** A string that starts and ends with a non-space character is its own strip. */
  lemma NoSpaceStrip(s: string)
    requires |s| >= 1 && !IsSpace(s[0]) && !IsSpace(s[|s| - 1])
    ensures Strip(s) == s
  {
  }

  // ---------------------------------------------------------------- numbers and slices

  /** Python's `a // b`: rounds toward negative infinity; None where Python raises ZeroDivisionError. */
  function FloorDiv(a: int, b: int): (q: Option<int>)
    ensures q.Some? <==> b != 0
    ensures b > 0 ==> q == Some(a / b)
    ensures b < 0 ==> b < a - q.value * b <= 0
  {
    if b == 0 then None
    else if b > 0 then Some(a / b)
    else Some(a / b - (if a % b == 0 then 0 else 1))
  }

  /** The index a Python slice bound stands for: negative counts from the end, both clamped to the length. */
  function SliceIndex(i: int, n: nat): (k: nat)
    ensures k <= n
  {
    if i < 0 then (if n + i < 0 then 0 else n + i) else if i > n then n else i
  }

  /** `s[i:]`. */
  function From<T>(s: seq<T>, i: int): (r: seq<T>)
    ensures r == s[SliceIndex(i, |s|)..]
  {
    s[SliceIndex(i, |s|)..]
  }

  /** `s[:j]`. */
  function UpTo<T>(s: seq<T>, j: int): (r: seq<T>)
    ensures r == s[..SliceIndex(j, |s|)]
  {
    s[..SliceIndex(j, |s|)]
  }

  /** `s[-k:]` holds the last min(k, len) elements for k >= 1, all of them for k == 0, and drops the first -k for k < 0. */
  lemma LastSlice<T>(s: seq<T>, k: int)
    ensures k >= 1 ==> From(s, -k) == s[|s| - (if k < |s| then k else |s|)..]
    ensures k == 0 ==> From(s, -k) == s
    ensures k < 0 ==> From(s, -k) == s[(if -k < |s| then -k else |s|)..]
  {
  }

  /** `s[:k]` holds the first min(k, len) elements for k >= 0, and drops the last -k for k < 0. */
  lemma FirstSlice<T>(s: seq<T>, k: int)
    ensures k >= 0 ==> UpTo(s, k) == s[..if k < |s| then k else |s|]
    ensures k < 0 ==> UpTo(s, k) == s[..if |s| + k < 0 then 0 else |s| + k]
  {
  }
}
