/** The Python string operations the bot relies on, over `string` (a
    sequence of Unicode code points): `str.split(sep)`, `sep.join(parts)`,
    `str.strip()`, `str.startswith`, `str(n)` for an integer and `int(s)` for
    a decimal string. */
module Text {
  import opened Wrappers

  // ---------------------------------------------------------------------
  // split / join on a one-character separator
  // ---------------------------------------------------------------------

  /** `s.split(sep)`: the pieces between the occurrences of `sep`, in order;
      never empty (`"".split(",") == [""]`). */
  function Split(s: string, sep: char): (parts: seq<string>)
    ensures |parts| >= 1
    ensures forall i :: 0 <= i < |parts| ==> sep !in parts[i]
    decreases |s|
  {
    if |s| == 0 then [""]
    else
      var rest := Split(s[1..], sep);
      if s[0] == sep then [""] + rest
      else [[s[0]] + rest[0]] + rest[1..]
  }

  /** `sep.join(parts)` for a non-empty list of pieces. */
  function Join(parts: seq<string>, sep: char): string
    requires |parts| >= 1
  {
    if |parts| == 1 then parts[0] else parts[0] + [sep] + Join(parts[1..], sep)
  }

  /** Joining the pieces of a split gives back the original string. */
  lemma {:induction false} JoinSplit(s: string, sep: char)
    ensures Join(Split(s, sep), sep) == s
    decreases |s|
  {
    if |s| > 0 {
      var rest := Split(s[1..], sep);
      JoinSplit(s[1..], sep);
      if s[0] == sep {
        assert Join([""] + rest, sep) == "" + [sep] + Join(rest, sep);
      } else if |rest| == 1 {
        assert Join(rest, sep) == rest[0];
      } else {
        assert Join(rest, sep) == rest[0] + [sep] + Join(rest[1..], sep);
        assert ([[s[0]] + rest[0]] + rest[1..])[1..] == rest[1..];
      }
    }
  }

  /** A string without the separator splits into itself alone. */
  lemma {:induction false} SplitWithoutSeparator(a: string, sep: char)
    requires sep !in a
    ensures Split(a, sep) == [a]
    decreases |a|
  {
    if |a| > 0 {
      SplitWithoutSeparator(a[1..], sep);
      assert [a[0]] + a[1..] == a;
    }
  }

  /** Splitting `a + sep + b`, where `a` has no separator, peels off `a`. */
  lemma {:induction false} SplitAfterPiece(a: string, b: string, sep: char)
    requires sep !in a
    ensures Split(a + [sep] + b, sep) == [a] + Split(b, sep)
    decreases |a|
  {
    var s := a + [sep] + b;
    if |a| == 0 {
      assert s[1..] == b;
    } else {
      assert s[1..] == a[1..] + [sep] + b;
      SplitAfterPiece(a[1..], b, sep);
      assert [a[0]] + a[1..] == a;
    }
  }

  /** Splitting a join of separator-free pieces gives back the pieces. */
  lemma {:induction false} SplitJoin(parts: seq<string>, sep: char)
    requires |parts| >= 1
    requires forall i :: 0 <= i < |parts| ==> sep !in parts[i]
    ensures Split(Join(parts, sep), sep) == parts
    decreases |parts|
  {
    if |parts| == 1 {
      SplitWithoutSeparator(parts[0], sep);
    } else {
      SplitJoin(parts[1..], sep);
      SplitAfterPiece(parts[0], Join(parts[1..], sep), sep);
      assert [parts[0]] + parts[1..] == parts;
    }
  }

  /** A character absent from the string is absent from every piece. */
  lemma {:induction false} SplitPiecesAvoid(s: string, sep: char, c: char)
    requires c !in s
    ensures forall i :: 0 <= i < |Split(s, sep)| ==> c !in Split(s, sep)[i]
    decreases |s|
  {
    if |s| > 0 {
      SplitPiecesAvoid(s[1..], sep, c);
    }
  }

  // ---------------------------------------------------------------------
  // strip
  // ---------------------------------------------------------------------

  /** The characters for which Python's `str.isspace()` holds. */
  predicate IsSpace(c: char) {
    || '\U{9}' <= c <= '\U{D}' || '\U{1C}' <= c <= '\U{20}'
    || c == '\U{85}' || c == '\U{A0}' || c == '\U{1680}'
    || '\U{2000}' <= c <= '\U{200A}'
    || c == '\U{2028}' || c == '\U{2029}' || c == '\U{202F}' || c == '\U{205F}' || c == '\U{3000}'
  }

  /** `s.lstrip()`: a suffix of `s`; everything dropped is white space. */
  function LStrip(s: string): (r: string)
    ensures |r| <= |s| && r == s[|s| - |r|..]
    ensures forall i :: 0 <= i < |s| - |r| ==> IsSpace(s[i])
    ensures |r| > 0 ==> !IsSpace(r[0])
    decreases |s|
  {
    if |s| > 0 && IsSpace(s[0]) then LStrip(s[1..]) else s
  }

  /** `s.rstrip()`: a prefix of `s`; everything dropped is white space. */
  function RStrip(s: string): (r: string)
    ensures |r| <= |s| && r == s[..|r|]
    ensures forall i :: |r| <= i < |s| ==> IsSpace(s[i])
    ensures |r| > 0 ==> !IsSpace(r[|r| - 1])
    decreases |s|
  {
    if |s| > 0 && IsSpace(s[|s| - 1]) then RStrip(s[..|s| - 1]) else s
  }

  /** `s.strip()`: a slice of `s` that neither starts nor ends with white
      space, and from which only white space was cut away. */
  function Strip(s: string): (r: string)
    ensures |r| > 0 ==> !IsSpace(r[0]) && !IsSpace(r[|r| - 1])
    ensures exists i, j :: 0 <= i <= j <= |s| && r == s[i..j]
                           && (forall k :: 0 <= k < i ==> IsSpace(s[k]))
                           && (forall k :: j <= k < |s| ==> IsSpace(s[k]))
    ensures forall k :: 0 <= k < |r| ==> r[k] in s
  {
    StripIsTrimmedSlice(s);
    RStrip(LStrip(s))
  }

  /** What `rstrip` keeps of what `lstrip` kept is the slice of the input
      between a run of leading and a run of trailing white space. */
  lemma StripIsTrimmedSlice(s: string)
    ensures var r := RStrip(LStrip(s));
      exists i, j :: 0 <= i <= j <= |s| && r == s[i..j]
                     && (forall k :: 0 <= k < i ==> IsSpace(s[k]))
                     && (forall k :: j <= k < |s| ==> IsSpace(s[k]))
    ensures forall k :: 0 <= k < |RStrip(LStrip(s))| ==> RStrip(LStrip(s))[k] in s
  {
    var l := LStrip(s);
    var r := RStrip(l);
    var i := |s| - |l|;
    var j := i + |r|;
    assert r == s[i..j];
    forall k | j <= k < |s|
      ensures IsSpace(s[k])
    {
      assert s[k] == l[k - i];
    }
    forall k | 0 <= k < |r|
      ensures r[k] in s
    {
      assert r[k] == s[i + k];
    }
  }

  /** Stripping twice is stripping once. */
  lemma StripIdempotent(s: string)
    ensures Strip(Strip(s)) == Strip(s)
  {
    var r := Strip(s);
    assert LStrip(r) == r;
    assert RStrip(r) == r;
  }

  // ---------------------------------------------------------------------
  // prefixes
  // ---------------------------------------------------------------------

  /** `s.startswith(prefix)`. */
  predicate StartsWith(s: string, prefix: string) {
    |prefix| <= |s| && s[..|prefix|] == prefix
  }

  // ---------------------------------------------------------------------
  // str(n) and int(s) for integers in decimal
  // ---------------------------------------------------------------------

  predicate IsDigit(c: char) {
    '0' <= c <= '9'
  }

  predicate AllDigits(s: string) {
    forall i :: 0 <= i < |s| ==> IsDigit(s[i])
  }

  function DigitChar(d: nat): (c: char)
    requires d < 10
    ensures IsDigit(c) && c as int - '0' as int == d
  {
    ('0' as int + d) as char
  }

  /** The decimal digits of a natural number, most significant first, with no
      leading zero. */
  function Digits(n: nat): (s: string)
    ensures |s| >= 1 && AllDigits(s)
    decreases n
  {
    if n < 10 then [DigitChar(n)] else Digits(n / 10) + [DigitChar(n % 10)]
  }

  /** The number a string of decimal digits denotes (leading zeros allowed). */
  function DigitsValue(s: string): nat
    requires AllDigits(s)
    decreases |s|
  {
    if |s| == 0 then 0
    else DigitsValue(s[..|s| - 1]) * 10 + (s[|s| - 1] as int - '0' as int)
  }

  /** `str(n)` for a Python int. */
  function Str(n: int): (s: string)
    ensures |s| >= 1
    ensures forall i :: 0 <= i < |s| ==> IsDigit(s[i]) || s[i] == '-'
  {
    if n < 0 then "-" + Digits(-n) else Digits(n)
  }

  /** `int(s)` for a string: an optional sign and at least one decimal digit;
      anything else raises ValueError (None here). */
  function ParseInt(s: string): (r: Option<int>)
    ensures r.Some? ==> |s| >= 1
    ensures (exists i :: 0 < i < |s| && !IsDigit(s[i])) ==> r.None?
    ensures |s| >= 1 && !IsDigit(s[0]) && s[0] != '-' && s[0] != '+' ==> r.None?
    ensures |s| >= 1 && AllDigits(s) ==> r == Some(DigitsValue(s))
    ensures |s| > 1 && s[0] == '-' && AllDigits(s[1..]) ==> r == Some(0 - DigitsValue(s[1..]) as int)
  {
    if |s| > 1 && (s[0] == '-' || s[0] == '+') && AllDigits(s[1..]) then
      var magnitude: int := DigitsValue(s[1..]);
      Some(if s[0] == '-' then -magnitude else magnitude)
    else if |s| > 0 && AllDigits(s) then
      Some(DigitsValue(s))
    else
      None
  }

  lemma {:induction false} DigitsRoundTrip(n: nat)
    ensures DigitsValue(Digits(n)) == n
    decreases n
  {
    if n >= 10 {
      var s := Digits(n);
      DigitsRoundTrip(n / 10);
      assert s[..|s| - 1] == Digits(n / 10);
    }
  }

  /** `int(str(n)) == n`. */
  lemma ParseIntStr(n: int)
    ensures ParseInt(Str(n)) == Some(n)
  {
    var s := Str(n);
    if n < 0 {
      assert s[1..] == Digits(-n);
      DigitsRoundTrip(-n);
    } else {
      DigitsRoundTrip(n);
    }
  }
}
