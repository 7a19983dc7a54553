/** String operations the application relies on: joining and splitting on a
    separator, repetition, newline replacement, whitespace trimming and
    decimal rendering and reading of integers. Strings are sequences of characters. */
module Text {
  import opened Wrappers

  /** `s || fallback` on two JavaScript strings: the empty string is falsy. */
  function OrElse(s: string, fallback: string): (r: string)
    ensures r == s || r == fallback
    ensures r == "" ==> s == "" && fallback == ""
  {
    if s != "" then s else fallback
  }

  /** No element occurs twice. */
  predicate NoDup<T(==)>(s: seq<T>) {
    forall i, j :: 0 <= i < j < |s| ==> s[i] != s[j]
  }

  /** `parts.join(sep)` (JavaScript) or `sep.join(parts)` (Python). */
  function Join(parts: seq<string>, sep: string): string
    decreases |parts|
  {
    if |parts| == 0 then ""
    else if |parts| == 1 then parts[0]
    else parts[0] + sep + Join(parts[1..], sep)
  }

  /** `s.split(sep)` for a one-character separator: always at least one
      field, and an empty field between adjacent separators. */
  function Split(s: string, sep: char): (r: seq<string>)
    ensures |r| >= 1
    decreases |s|
  {
    if |s| == 0 then [""]
    else
      var rest := Split(s[1..], sep);
      if s[0] == sep then [""] + rest
      else [[s[0]] + rest[0]] + rest[1..]
  }

  /** Prepending to the first field prepends to the joined string. */
  lemma JoinConsHead(h: string, parts: seq<string>, sep: string)
    requires |parts| >= 1
    ensures Join([h + parts[0]] + parts[1..], sep) == h + Join(parts, sep)
  {
    var q := [h + parts[0]] + parts[1..];
    assert q[1..] == parts[1..];
  }

  /** A string without the separator is one field. */
  lemma {:induction false} SplitWithoutSeparator(x: string, sep: char)
    requires sep !in x
    ensures Split(x, sep) == [x]
  {
    if |x| > 0 {
      SplitWithoutSeparator(x[1..], sep);
      assert [x[0]] + x[1..] == x;
    }
  }

  /** A separator-free field followed by the separator splits off as the first field. */
  lemma {:induction false} SplitAfterField(x: string, sep: char, t: string)
    requires sep !in x
    ensures Split(x + [sep] + t, sep) == [x] + Split(t, sep)
  {
    var s := x + [sep] + t;
    if |x| == 0 {
      assert s[1..] == t;
    } else {
      assert s[1..] == x[1..] + [sep] + t;
      SplitAfterField(x[1..], sep, t);
      var rest := Split(s[1..], sep);
      assert rest == [x[1..]] + Split(t, sep);
      assert [x[0]] + x[1..] == x;
    }
  }

  /** Splitting undoes joining when at least one part is given and no part
      contains the separator. */
  lemma {:induction false} SplitJoin(parts: seq<string>, sep: char)
    requires |parts| >= 1
    requires forall i :: 0 <= i < |parts| ==> sep !in parts[i]
    ensures Split(Join(parts, [sep]), sep) == parts
  {
    if |parts| == 1 {
      SplitWithoutSeparator(parts[0], sep);
    } else {
      SplitJoin(parts[1..], sep);
      SplitAfterField(parts[0], sep, Join(parts[1..], [sep]));
      assert [parts[0]] + parts[1..] == parts;
    }
  }

  /** Joining undoes splitting, for every string. */
  lemma {:induction false} JoinSplit(s: string, sep: char)
    ensures Join(Split(s, sep), [sep]) == s
  {
    if |s| > 0 {
      JoinSplit(s[1..], sep);
      var rest := Split(s[1..], sep);
      if s[0] == sep {
        assert ([""] + rest)[1..] == rest;
      } else {
        JoinConsHead([s[0]], rest, [sep]);
      }
      assert [s[0]] + s[1..] == s;
    }
  }

  /** `c.repeat(n)` for a one-character string `c`. */
  function Repeat(c: char, n: nat): (r: string)
    ensures |r| == n
    ensures forall i :: 0 <= i < n ==> r[i] == c
  {
    if n == 0 then "" else [c] + Repeat(c, n - 1)
  }

  /** `s.replace(/\n/g, '<br>')`. */
  function NewlinesToBreaks(s: string): (r: string)
    ensures '\n' !in r
    ensures '\n' !in s ==> r == s
    decreases |s|
  {
    if |s| == 0 then ""
    else (if s[0] == '\n' then "<br>" else [s[0]]) + NewlinesToBreaks(s[1..])
  }

  /** The replacement agrees with the reference definition "split on
      newline, join with `<br>`". */
  lemma {:induction false} NewlinesToBreaksIsSplitJoin(s: string)
    ensures NewlinesToBreaks(s) == Join(Split(s, '\n'), "<br>")
  {
    if |s| > 0 {
      NewlinesToBreaksIsSplitJoin(s[1..]);
      var rest := Split(s[1..], '\n');
      if s[0] == '\n' {
        assert ([""] + rest)[1..] == rest;
      } else {
        JoinConsHead([s[0]], rest, "<br>");
      }
    }
  }

  /** Characters JavaScript's `String.prototype.trim` removes. */
  predicate IsJsSpace(c: char) {
    c == ' ' || c == '\t' || c == '\n' || c == '\r' || c == '\U{B}' || c == '\U{C}'
    || c == '\U{A0}' || c == '\U{1680}' || ('\U{2000}' <= c <= '\U{200A}')
    || c == '\U{2028}' || c == '\U{2029}' || c == '\U{202F}' || c == '\U{205F}'
    || c == '\U{3000}' || c == '\U{FEFF}'
  }

  /** Characters Python's `str.strip()` removes (`str.isspace`). */
  predicate IsPySpace(c: char) {
    c == ' ' || c == '\t' || c == '\n' || c == '\r' || c == '\U{B}' || c == '\U{C}'
    || ('\U{1C}' <= c <= '\U{1F}') || c == '\U{85}' || c == '\U{A0}' || c == '\U{1680}'
    || ('\U{2000}' <= c <= '\U{200A}') || c == '\U{2028}' || c == '\U{2029}'
    || c == '\U{202F}' || c == '\U{205F}' || c == '\U{3000}'
  }

  function TrimLeft(s: string, isSpace: char -> bool): string
    decreases |s|
  {
    if |s| > 0 && isSpace(s[0]) then TrimLeft(s[1..], isSpace) else s
  }

  function TrimRight(s: string, isSpace: char -> bool): string
    decreases |s|
  {
    if |s| > 0 && isSpace(s[|s| - 1]) then TrimRight(s[..|s| - 1], isSpace) else s
  }

  /** Removes leading and trailing characters satisfying `isSpace`. */
  function Trim(s: string, isSpace: char -> bool): string {
    TrimRight(TrimLeft(s, isSpace), isSpace)
  }

  predicate AllSpace(s: string, isSpace: char -> bool) {
    forall i :: 0 <= i < |s| ==> isSpace(s[i])
  }

  lemma {:induction false} TrimLeftEmpty(s: string, isSpace: char -> bool)
    ensures TrimLeft(s, isSpace) == "" <==> AllSpace(s, isSpace)
    ensures TrimLeft(s, isSpace) != "" ==> !isSpace(TrimLeft(s, isSpace)[0])
    decreases |s|
  {
    if |s| > 0 && isSpace(s[0]) {
      TrimLeftEmpty(s[1..], isSpace);
      if AllSpace(s[1..], isSpace) {
        forall i | 0 <= i < |s| ensures isSpace(s[i]) {
          if i > 0 { assert s[i] == s[1..][i - 1]; }
        }
      }
    }
  }

  lemma {:induction false} TrimRightKeepsNonSpaceHead(s: string, isSpace: char -> bool)
    requires |s| > 0 && !isSpace(s[0])
    ensures TrimRight(s, isSpace) != ""
    decreases |s|
  {
    if isSpace(s[|s| - 1]) {
      TrimRightKeepsNonSpaceHead(s[..|s| - 1], isSpace);
    }
  }

  /** A string trims to nothing exactly when every character is whitespace. */
  lemma TrimEmptyIffAllSpace(s: string, isSpace: char -> bool)
    ensures Trim(s, isSpace) == "" <==> AllSpace(s, isSpace)
  {
    TrimLeftEmpty(s, isSpace);
    if TrimLeft(s, isSpace) != "" {
      TrimRightKeepsNonSpaceHead(TrimLeft(s, isSpace), isSpace);
    }
  }

  /** A string that starts and ends with non-whitespace survives trimming
      unchanged when wrapped in one whitespace character on each side. */
  lemma TrimWrapped(x: string, w: char, isSpace: char -> bool)
    requires isSpace(w)
    requires |x| == 0 || (!isSpace(x[0]) && !isSpace(x[|x| - 1]))
    ensures Trim([w] + x + [w], isSpace) == x
  {
    var s := [w] + x + [w];
    assert s[1..] == x + [w];
    if |x| == 0 {
      assert s == [w, w] && s[1..] == [w] && [w][1..] == "";
      assert TrimLeft([w], isSpace) == TrimLeft("", isSpace) == "";
    } else {
      assert (x + [w])[0] == x[0];
      assert TrimLeft(s, isSpace) == TrimLeft(x + [w], isSpace) == x + [w];
      assert (x + [w])[..|x|] == x;
      assert TrimRight(x + [w], isSpace) == TrimRight(x, isSpace) == x;
    }
  }

  function Digit(d: nat): char
    requires d < 10
  {
    "0123456789"[d]
  }

  /** Decimal rendering of a natural number, without leading zeros. */
  function NatToString(n: nat): (r: string)
    ensures |r| >= 1
    decreases n
  {
    if n < 10 then [Digit(n)] else NatToString(n / 10) + [Digit(n % 10)]
  }

  /** `String(n)` / `str(n)` for an integer. */
  function IntToString(n: int): string {
    if n < 0 then "-" + NatToString(-n) else NatToString(n)
  }

  predicate IsDigitChar(c: char) {
    '0' <= c <= '9'
  }

  predicate AllDigits(s: string) {
    forall i :: 0 <= i < |s| ==> IsDigitChar(s[i])
  }

  /** The value of a string of decimal digits; leading zeros are allowed. */
  function DigitsValue(s: string): (r: nat)
    requires AllDigits(s)
    decreases |s|
  {
    if |s| == 0 then 0 else DigitsValue(s[..|s| - 1]) * 10 + (s[|s| - 1] as int - '0' as int)
  }

  /** An optional sign followed by at least one decimal digit. */
  predicate IsIntegerLiteral(t: string) {
    if |t| > 0 && (t[0] == '-' || t[0] == '+') then |t| > 1 && AllDigits(t[1..])
    else |t| > 0 && AllDigits(t)
  }

  /** JavaScript's `Number(s)` on a string, for its integer forms: the
      string is trimmed of JavaScript whitespace; nothing left is 0, a
      signed run of decimal digits is its value. `None` is `NaN`. */
  function StringToInteger(s: string): (r: Option<int>)
    ensures AllSpace(s, IsJsSpace) ==> r == Some(0)
    ensures r.Some? <==> AllSpace(s, IsJsSpace) || IsIntegerLiteral(Trim(s, IsJsSpace))
  {
    TrimEmptyIffAllSpace(s, IsJsSpace);
    var t := Trim(s, IsJsSpace);
    if t == "" then Some(0)
    else if !IsIntegerLiteral(t) then None
    else if t[0] == '-' then Some(-(DigitsValue(t[1..]) as int))
    else if t[0] == '+' then Some(DigitsValue(t[1..]))
    else Some(DigitsValue(t))
  }

  lemma {:induction false} NatToStringDigits(n: nat)
    ensures AllDigits(NatToString(n)) && DigitsValue(NatToString(n)) == n
    decreases n
  {
    var s := NatToString(n);
    if n < 10 {
      assert s == [Digit(n)];
      assert Digit(n) as int - '0' as int == n;
      assert s[..0] == "";
    } else {
      var h := NatToString(n / 10);
      NatToStringDigits(n / 10);
      assert s == h + [Digit(n % 10)];
      assert Digit(n % 10) as int - '0' as int == n % 10;
      assert s[..|s| - 1] == h;
    }
  }

  /** A string with no whitespace at either end is its own trim. */
  lemma TrimUnspaced(s: string, isSpace: char -> bool)
    requires |s| > 0 && !isSpace(s[0]) && !isSpace(s[|s| - 1])
    ensures Trim(s, isSpace) == s
  {
  }

  /** Every natural number's decimal text reads back as that number. */
  lemma NaturalsRoundTrip()
    ensures forall n: nat :: StringToInteger(NatToString(n)) == Some(n)
  {
    forall n: nat
      ensures StringToInteger(NatToString(n)) == Some(n)
    {
      IntegerRoundTrip(n);
    }
  }

  /** Reading back the decimal rendering of an integer gives the integer. */
  lemma IntegerRoundTrip(n: int)
    ensures StringToInteger(IntToString(n)) == Some(n)
  {
    var d := NatToString(if n < 0 then -n else n);
    NatToStringDigits(if n < 0 then -n else n);
    var s := IntToString(n);
    assert IsDigitChar(d[0]) && IsDigitChar(d[|d| - 1]);
    if n < 0 {
      assert s == "-" + d && s[1..] == d && s[|s| - 1] == d[|d| - 1];
    } else {
      assert s == d;
    }
    TrimUnspaced(s, IsJsSpace);
  }
}
