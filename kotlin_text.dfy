/**
 * The few pieces of the Kotlin/JVM standard library that the questionnaire's
 * text fields rely on: `Char.isWhitespace`, `String.trim`, `String.isBlank`,
 * `String.split` with a one-character delimiter, `joinToString`,
 * `Int.toString` and `String.toIntOrNull`.
 */
module KotlinText {
  import opened Wrappers

  /** Bounds of Kotlin's 32-bit `Int`. */
  const INT_MIN: int := -0x8000_0000
  const INT_MAX: int := 0x7FFF_FFFF

  predicate IsInt(n: int) {
    INT_MIN <= n <= INT_MAX
  }

  /** `Char.isWhitespace` on the JVM: `Character.isWhitespace || Character.isSpaceChar`. */
  predicate IsWhitespace(c: char) {
    || c == '\t' || c == '\n' || c == '\U{B}' || c == '\U{C}' || c == '\r'
    || ('\U{1C}' <= c <= '\U{1F}')
    || c == ' ' || c == '\U{A0}' || c == '\U{1680}'
    || ('\U{2000}' <= c <= '\U{200A}')
    || c == '\U{2028}' || c == '\U{2029}' || c == '\U{202F}' || c == '\U{205F}' || c == '\U{3000}'
  }

  /** `String.isBlank`: empty or whitespace only. */
  predicate IsBlank(s: string) {
    forall i :: 0 <= i < |s| ==> IsWhitespace(s[i])
  }

  /**
   * Space and tab are whitespace; digits, signs and the separators ',' and
   * ':' are not, so a blank text holds no separator.
   */
  lemma WhitespaceChars(s: string)
    ensures IsWhitespace(' ') && IsWhitespace('\t')
    ensures forall c :: '0' <= c <= '9' || c == ',' || c == ':' || c == '+' || c == '-' ==> !IsWhitespace(c)
    ensures IsBlank(s) ==> ',' !in s && ':' !in s
  {
  }

  /** Neither end is whitespace: what `trim` leaves behind. */
  predicate IsTrimmed(s: string) {
    s == [] || (!IsWhitespace(s[0]) && !IsWhitespace(s[|s| - 1]))
  }

  function TrimStart(s: string): (r: string)
    ensures |r| <= |s| && r == s[|s| - |r|..]
    ensures forall i :: 0 <= i < |s| - |r| ==> IsWhitespace(s[i])
    ensures r == [] || !IsWhitespace(r[0])
  {
    if s != [] && IsWhitespace(s[0]) then TrimStart(s[1..]) else s
  }

  function TrimEnd(s: string): (r: string)
    ensures |r| <= |s| && r == s[..|r|]
    ensures forall i :: |r| <= i < |s| ==> IsWhitespace(s[i])
    ensures r == [] || !IsWhitespace(r[|r| - 1])
  {
    if s != [] && IsWhitespace(s[|s| - 1]) then TrimEnd(s[..|s| - 1]) else s
  }

  /** `String.trim`: drops the leading and the trailing whitespace. */
  function Trim(s: string): (r: string)
    ensures IsTrimmed(r)
    ensures r == [] <==> IsBlank(s)
    ensures forall c :: c in r ==> c in s
  {
    var t := TrimStart(s);
    TrimEnds(s, t, TrimEnd(t));
    TrimEnd(t)
  }

  /** What cutting whitespace from both ends leaves: trimmed, empty only for a blank text, no new characters. */
  lemma TrimEnds(s: string, t: string, r: string)
    requires |t| <= |s| && t == s[|s| - |t|..]
    requires forall i :: 0 <= i < |s| - |t| ==> IsWhitespace(s[i])
    requires t == [] || !IsWhitespace(t[0])
    requires |r| <= |t| && r == t[..|r|]
    requires forall i :: |r| <= i < |t| ==> IsWhitespace(t[i])
    requires r == [] || !IsWhitespace(r[|r| - 1])
    ensures IsTrimmed(r)
    ensures r == [] <==> IsBlank(s)
    ensures forall c :: c in r ==> c in s
  {
    if r != [] {
      assert r[0] == t[0];
    }
    assert forall c :: c in r ==> c in t;
  }

  /** `r` is a contiguous slice of `s` with only whitespace before and after it. */
  predicate SliceBetweenBlanks(s: string, r: string) {
    exists a :: 0 <= a <= |s| - |r| && r == s[a..a + |r|] && IsBlank(s[..a]) && IsBlank(s[a + |r|..])
  }

  /** The trimmed text is a slice of the original between a blank head and a blank tail. */
  lemma TrimIsSlice(s: string)
    ensures SliceBetweenBlanks(s, Trim(s))
  {
    var t := TrimStart(s);
    TrimmedSlice(s, t, TrimEnd(t));
  }

  lemma TrimmedSlice(s: string, t: string, r: string)
    requires |t| <= |s| && t == s[|s| - |t|..]
    requires forall i :: 0 <= i < |s| - |t| ==> IsWhitespace(s[i])
    requires |r| <= |t| && r == t[..|r|]
    requires forall i :: |r| <= i < |t| ==> IsWhitespace(t[i])
    ensures SliceBetweenBlanks(s, r)
  {
    var a := |s| - |t|;
    assert s[a..a + |r|] == t[..|r|];
    assert s[a + |r|..] == t[|r|..];
    assert forall i :: 0 <= i < |t| - |r| ==> t[|r|..][i] == t[|r| + i];
    assert IsBlank(s[..a]) && IsBlank(s[a + |r|..]);
  }

  /** A text is blank exactly when its trimmed form is. */
  lemma BlankTrim(s: string)
    ensures IsBlank(Trim(s)) <==> IsBlank(s)
  {
    var r := Trim(s);
    if r != [] {
      assert !IsWhitespace(r[0]);
    }
  }

  /** Trimming leaves an already trimmed string alone. */
  lemma TrimTrimmed(s: string)
    requires IsTrimmed(s)
    ensures Trim(s) == s
  {
  }

  /** Leading whitespace does not survive `trim`. */
  lemma {:induction false} TrimBlankPrefix(pre: string, s: string)
    requires IsBlank(pre)
    ensures Trim(pre + s) == Trim(s)
  {
    TrimStartBlankPrefix(pre, s);
  }

  lemma {:induction false} TrimStartBlankPrefix(pre: string, s: string)
    requires IsBlank(pre)
    ensures TrimStart(pre + s) == TrimStart(s)
  {
    if pre == [] {
      assert pre + s == s;
    } else {
      assert (pre + s)[0] == pre[0] && IsWhitespace(pre[0]);
      assert (pre + s)[1..] == pre[1..] + s;
      TrimStartBlankPrefix(pre[1..], s);
    }
  }

  /** `joinToString(sep)`: the parts with `sep` between neighbours. */
  function Join(parts: seq<string>, sep: string): string
  {
    if parts == [] then ""
    else if |parts| == 1 then parts[0]
    else parts[0] + sep + Join(parts[1..], sep)
  }

  /** A joined text is empty for no parts, else starts with the first part and ends with the last. */
  lemma {:induction false} JoinEnds(parts: seq<string>, sep: string)
    ensures parts == [] ==> Join(parts, sep) == ""
    ensures parts != [] ==> parts[0] <= Join(parts, sep)
    ensures parts != [] ==> var r, last := Join(parts, sep), parts[|parts| - 1];
                            |last| <= |r| && r[|r| - |last|..] == last
  {
    if |parts| > 1 {
      JoinEnds(parts[1..], sep);
      var r := Join(parts, sep);
      var tail := Join(parts[1..], sep);
      assert r == parts[0] + sep + tail;
      assert parts[1..][|parts[1..]| - 1] == parts[|parts| - 1];
    }
  }

  /** `String.split(c)`: all the pieces between delimiters, empty ones included. */
  function Split(s: string, c: char): (parts: seq<string>)
    ensures |parts| >= 1
    ensures forall i :: 0 <= i < |parts| ==> c !in parts[i]
    ensures Join(parts, [c]) == s
    ensures forall i, ch :: 0 <= i < |parts| && ch in parts[i] ==> ch in s
  {
    if s == [] then [""]
    else
      var rest := Split(s[1..], c);
      if s[0] == c then
        assert Join([""] + rest, [c]) == [c] + Join(rest, [c]);
        [""] + rest
      else
        var parts := [[s[0]] + rest[0]] + rest[1..];
        assert Join(parts, [c]) == [s[0]] + Join(rest, [c]) by {
          if |rest| > 1 {
            assert parts[1..] == rest[1..];
          }
        }
        parts
  }

  /** `split` gives one piece more than there are delimiters. */
  lemma {:induction false} SplitCount(s: string, c: char)
    ensures |Split(s, c)| == multiset(s)[c] + 1
  {
    if s != [] {
      assert s == [s[0]] + s[1..];
      SplitCount(s[1..], c);
    }
  }

  /** A piece without the delimiter is split into itself. */
  lemma {:induction false} SplitWithout(s: string, c: char)
    requires c !in s
    ensures Split(s, c) == [s]
  {
    if s != [] {
      SplitWithout(s[1..], c);
    }
  }

  /** Splitting at the first delimiter. */
  lemma {:induction false} SplitAt(x: string, c: char, y: string)
    requires c !in x
    ensures Split(x + [c] + y, c) == [x] + Split(y, c)
  {
    if x == [] {
      assert (x + [c] + y)[1..] == y;
    } else {
      var s := x + [c] + y;
      assert s[0] == x[0] && s[1..] == x[1..] + [c] + y;
      SplitAt(x[1..], c, y);
      var rest := Split(s[1..], c);
      assert rest == [x[1..]] + Split(y, c);
      assert [x[0]] + rest[0] == x;
      assert rest[1..] == Split(y, c);
    }
  }

  /** `split` undoes `joinToString` when no part holds the delimiter. */
  lemma {:induction false} SplitJoin(parts: seq<string>, c: char)
    requires |parts| >= 1
    requires forall i :: 0 <= i < |parts| ==> c !in parts[i]
    ensures Split(Join(parts, [c]), c) == parts
  {
    if |parts| == 1 {
      SplitWithout(parts[0], c);
    } else {
      SplitAt(parts[0], c, Join(parts[1..], [c]));
      SplitJoin(parts[1..], c);
    }
  }

  /** Every piece of a blank text is blank. */
  lemma {:induction false} SplitBlank(s: string, c: char)
    requires IsBlank(s)
    ensures forall i :: 0 <= i < |Split(s, c)| ==> IsBlank(Split(s, c)[i])
  {
    if s != [] {
      SplitBlank(s[1..], c);
    }
  }

  /** `pre` put in front of every part. */
  function PrefixEach(pre: string, parts: seq<string>): (r: seq<string>)
    ensures |r| == |parts|
    ensures forall i :: 0 <= i < |r| ==> r[i] == pre + parts[i]
  {
    if parts == [] then [] else [pre + parts[0]] + PrefixEach(pre, parts[1..])
  }

  /**
   * Splitting a `joinToString(", ")` text at ',' gives back the parts, every
   * one but the first with the space of the separator still in front.
   */
  lemma {:induction false} SplitJoinCommaSpace(pre: string, parts: seq<string>)
    requires |parts| >= 1
    requires ',' !in pre
    requires forall i :: 0 <= i < |parts| ==> ',' !in parts[i]
    ensures Split(pre + Join(parts, ", "), ',') == [pre + parts[0]] + PrefixEach(" ", parts[1..])
    decreases |parts|
  {
    if |parts| == 1 {
      SplitWithout(pre + parts[0], ',');
    } else {
      var tail := Join(parts[1..], ", ");
      assert pre + Join(parts, ", ") == (pre + parts[0]) + [','] + (" " + tail);
      SplitAt(pre + parts[0], ',', " " + tail);
      SplitJoinCommaSpace(" ", parts[1..]);
      assert PrefixEach(" ", parts[1..]) == [" " + parts[1]] + PrefixEach(" ", parts[2..]);
    }
  }

  predicate IsDigit(c: char) {
    '0' <= c <= '9'
  }

  predicate AllDigits(s: string) {
    forall i :: 0 <= i < |s| ==> IsDigit(s[i])
  }

  function DigitChar(d: nat): (c: char)
    requires d < 10
    ensures IsDigit(c) && c as int - '0' as int == d
  {
    ('0' as int + d) as char
  }

  /** The decimal value of a run of ASCII digits, most significant first. */
  function DigitsValue(s: string): nat
    requires AllDigits(s)
  {
    if s == [] then 0 else DigitsValue(s[..|s| - 1]) * 10 + (s[|s| - 1] as int - '0' as int)
  }

  /** Decimal digits of a natural number, without leading zeros. */
  function NatToString(n: nat): (s: string)
    ensures |s| >= 1 && AllDigits(s)
    ensures s[0] == '0' <==> n == 0
  {
    if n < 10 then [DigitChar(n)] else NatToString(n / 10) + [DigitChar(n % 10)]
  }

  lemma {:induction false} NatToStringValue(n: nat)
    ensures DigitsValue(NatToString(n)) == n
  {
    if n >= 10 {
      var s := NatToString(n);
      assert s[..|s| - 1] == NatToString(n / 10);
      NatToStringValue(n / 10);
    }
  }

  /** `Int.toString()`: a minus sign for negatives, then the decimal digits. */
  function IntToString(n: int): (s: string)
    ensures |s| >= 1
    ensures forall i :: 0 <= i < |s| ==> IsDigit(s[i]) || (i == 0 && s[i] == '-')
    ensures s[0] == '-' <==> n < 0
    ensures s[0] == '-' ==> |s| >= 2 && s[1] != '0'
    ensures |s| > 1 && s[0] != '-' ==> s[0] != '0'
  {
    if n < 0 then "-" + NatToString(-n) else NatToString(n)
  }

  /** An integer's text is trimmed and free of the separators ',' and ':'. */
  lemma IntToStringPlain(n: int)
    ensures IsTrimmed(IntToString(n))
    ensures ',' !in IntToString(n) && ':' !in IntToString(n)
  {
  }

  /** The digits after an optional sign, as in `toIntOrNull`. */
  function SignedValue(digits: string, negative: bool): (r: Option<int>)
    ensures r.Some? ==> IsInt(r.value) && digits != [] && AllDigits(digits)
  {
    if digits == [] || !AllDigits(digits) then None
    else
      var v: int := if negative then -(DigitsValue(digits) as int) else DigitsValue(digits);
      if IsInt(v) then Some(v) else None
  }

  /** An optional leading sign, then decimal digits, at least one of them. */
  predicate IsNumeral(s: string) {
    && |s| >= 1
    && IsDigit(s[|s| - 1])
    && forall i :: 0 <= i < |s| ==> IsDigit(s[i]) || (i == 0 && (s[i] == '+' || s[i] == '-'))
  }

  /** The value a numeral denotes: its digits read in decimal, negated after a '-'. */
  function NumeralValue(s: string): int
    requires IsNumeral(s)
  {
    if s[0] == '-' then -(DigitsValue(s[1..]) as int)
    else if s[0] == '+' then DigitsValue(s[1..])
    else DigitsValue(s)
  }

  /**
   * `String.toIntOrNull()`: an optional '+' or '-' and at least one decimal
   * digit, with the value inside `Int`'s range; anything else is null.
   */
  function ToIntOrNull(s: string): (r: Option<int>)
    ensures r.Some? ==> IsInt(r.value) && s != []
  {
    if s == [] then None
    else if s[0] < '0' then
      if |s| == 1 then None
      else if s[0] == '-' then SignedValue(s[1..], true)
      else if s[0] == '+' then SignedValue(s[1..], false)
      else None
    else SignedValue(s, false)
  }

  /** `toIntOrNull` accepts exactly the numerals whose value fits `Int`, and gives that value. */
  lemma ToIntOrNullGrammar(s: string)
    ensures ToIntOrNull(s).Some? <==> IsNumeral(s) && IsInt(NumeralValue(s))
    ensures ToIntOrNull(s).Some? ==> ToIntOrNull(s).value == NumeralValue(s)
  {
  }

  /** `toIntOrNull` reads back every `Int` that `toString` writes. */
  lemma IntToStringRoundTrip(n: int)
    requires IsInt(n)
    ensures ToIntOrNull(IntToString(n)) == Some(n)
  {
    if n < 0 {
      NatToStringValue(-n);
      assert IntToString(n)[1..] == NatToString(-n);
    } else {
      NatToStringValue(n);
    }
  }
}
