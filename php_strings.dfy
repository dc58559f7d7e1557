/**
 * The PHP and Laravel string helpers the SDK leans on, written out over `seq<char>`:
 * trim() and blank() for strings, PHP 8's is_numeric() for strings, the decimal
 * rendering of `%d`, ASCII case folding (header names, ucwords/lcfirst) and Str::camel.
 */
module PhpStrings {
  import opened Wrappers

  // ---------------------------------------------------------------- trim / blank

  /** The characters trim() strips by default: " \t\n\r\0\x0B". */
  predicate IsTrimChar(c: char) {
    c == ' ' || c == '\t' || c == '\n' || c == '\r' || c == '\0' || c == '\U{000B}'
  }

  function TrimLeft(s: string): (r: string)
    ensures |r| <= |s|
    ensures r == s[|s| - |r|..]
  {
    if s != [] && IsTrimChar(s[0]) then TrimLeft(s[1..]) else s
  }

  function TrimRight(s: string): (r: string)
    ensures |r| <= |s|
    ensures r == s[..|r|]
  {
    if s != [] && IsTrimChar(s[|s| - 1]) then TrimRight(s[..|s| - 1]) else s
  }

  function Trim(s: string): string {
    TrimRight(TrimLeft(s))
  }

  /** Laravel's blank() on a string: trim($value) === ''. */
  predicate IsBlankString(s: string) {
    Trim(s) == ""
  }

  predicate AllTrimChars(s: string) {
    forall i | 0 <= i < |s| :: IsTrimChar(s[i])
  }

  lemma {:induction false} TrimLeftEmpty(s: string)
    ensures TrimLeft(s) == "" <==> AllTrimChars(s)
  {
    if s != [] && IsTrimChar(s[0]) {
      TrimLeftEmpty(s[1..]);
      assert AllTrimChars(s) <==> AllTrimChars(s[1..]) by {
        if AllTrimChars(s[1..]) {
          forall i | 0 <= i < |s| ensures IsTrimChar(s[i]) {
            if i > 0 { assert s[i] == s[1..][i - 1]; }
          }
        }
      }
    }
  }

  lemma {:induction false} TrimRightEmpty(s: string)
    ensures TrimRight(s) == "" <==> AllTrimChars(s)
  {
    if s != [] && IsTrimChar(s[|s| - 1]) {
      var p := s[..|s| - 1];
      TrimRightEmpty(p);
      assert AllTrimChars(s) <==> AllTrimChars(p) by {
        if AllTrimChars(p) {
          forall i | 0 <= i < |s| ensures IsTrimChar(s[i]) {
            if i < |s| - 1 { assert s[i] == p[i]; }
          }
        }
      }
    }
  }

  /** A string that opens with a letter is filled. */
  lemma LetterFirstNotBlank(s: string)
    requires |s| > 0 && IsAsciiLetter(s[0])
    ensures !IsBlankString(s)
  {
    BlankStringIff(s);
  }

  /** A string is blank exactly when every character of it is one trim() strips. */
  lemma BlankStringIff(s: string)
    ensures IsBlankString(s) <==> AllTrimChars(s)
  {
    var l := TrimLeft(s);
    TrimLeftEmpty(s);
    TrimRightEmpty(l);
    if AllTrimChars(l) {
      forall i | 0 <= i < |s| ensures IsTrimChar(s[i]) {
        if i >= |s| - |l| { assert s[i] == l[i - (|s| - |l|)]; }
        else {
          // Every stripped prefix character is a trim character.
          TrimLeftPrefix(s, i);
        }
      }
    }
  }

  lemma {:induction false} TrimLeftPrefix(s: string, i: nat)
    requires i < |s| - |TrimLeft(s)|
    ensures IsTrimChar(s[i])
  {
    if i > 0 {
      TrimLeftPrefix(s[1..], i - 1);
    }
  }

  // ---------------------------------------------------------------- is_numeric

  predicate IsDigit(c: char) {
    '0' <= c <= '9'
  }

  predicate AllDigits(s: string) {
    forall i | 0 <= i < |s| :: IsDigit(s[i])
  }

  /** The white space PHP 8 allows around a numeric string: " \t\n\r\v\f". */
  predicate IsNumericSpace(c: char) {
    c == ' ' || c == '\t' || c == '\n' || c == '\r' || c == '\U{000B}' || c == '\U{000C}'
  }

  function SkipSpaces(s: string, i: nat): (j: nat)
    requires i <= |s|
    ensures i <= j <= |s|
    ensures j < |s| ==> !IsNumericSpace(s[j])
    ensures forall k | i <= k < j :: IsNumericSpace(s[k])
    decreases |s| - i
  {
    if i < |s| && IsNumericSpace(s[i]) then SkipSpaces(s, i + 1) else i
  }

  function SkipDigits(s: string, i: nat): (j: nat)
    requires i <= |s|
    ensures i <= j <= |s|
    ensures j < |s| ==> !IsDigit(s[j])
    ensures forall k | i <= k < j :: IsDigit(s[k])
    decreases |s| - i
  {
    if i < |s| && IsDigit(s[i]) then SkipDigits(s, i + 1) else i
  }

  function SkipSign(s: string, i: nat): (j: nat)
    requires i <= |s|
    ensures i <= j <= |s| && j <= i + 1
    ensures j == i + 1 ==> s[i] == '+' || s[i] == '-'
  {
    if i < |s| && (s[i] == '+' || s[i] == '-') then i + 1 else i
  }

  /**
   * Where the number starting at `i` ends: an optional sign, then digits with an optional
   * fraction (at least one digit on one side of the point), then an optional exponent.
   * None when no number starts at `i`.
   */
  function NumberEnd(s: string, i: nat): (r: Option<nat>)
    requires i <= |s|
    ensures r.Some? ==> i < r.value <= |s|
  {
    var b := SkipSign(s, i);
    var c := SkipDigits(s, b);
    var mantissa :=
      if c < |s| && s[c] == '.' then
        var d := SkipDigits(s, c + 1);
        if c > b || d > c + 1 then Some(d) else None
      else if c > b then Some(c) else None;
    match mantissa
    case None => None
    case Some(d) =>
      if d < |s| && (s[d] == 'e' || s[d] == 'E') then
        var g := SkipSign(s, d + 1);
        var h := SkipDigits(s, g);
        if h > g then Some(h) else Some(d)
      else Some(d)
  }

  /** PHP 8 is_numeric() on a string: white space, a number, white space. */
  predicate IsNumericString(s: string) {
    var a := SkipSpaces(s, 0);
    match NumberEnd(s, a)
    case None => false
    case Some(e) => SkipSpaces(s, e) == |s|
  }

  /** The characters a numeric string can be made of. */
  predicate IsNumberChar(c: char) {
    IsDigit(c) || IsNumericSpace(c) || c == '+' || c == '-' || c == '.' || c == 'e' || c == 'E'
  }

  lemma NumberEndChars(s: string, i: nat)
    requires i <= |s|
    requires NumberEnd(s, i).Some?
    ensures forall k | i <= k < NumberEnd(s, i).value :: IsNumberChar(s[k])
  {
    var b := SkipSign(s, i);
    var c := SkipDigits(s, b);
    if c < |s| && s[c] == '.' {
      var d := SkipDigits(s, c + 1);
      assert forall k | i <= k < d :: IsNumberChar(s[k]) by {
        forall k | i <= k < d ensures IsNumberChar(s[k]) {
          if k < b {} else if k < c {} else if k == c {} else {}
        }
      }
    }
  }

  /** Only digits, signs, points, exponent letters and white space occur in a numeric string. */
  lemma NumericCharsOnly(s: string)
    requires IsNumericString(s)
    ensures forall k | 0 <= k < |s| :: IsNumberChar(s[k])
  {
    var a := SkipSpaces(s, 0);
    var e := NumberEnd(s, a).value;
    NumberEndChars(s, a);
    forall k | 0 <= k < |s| ensures IsNumberChar(s[k]) {
      if k < a {} else if k < e {} else {
        assert forall m | e <= m < SkipSpaces(s, e) :: IsNumericSpace(s[m]);
      }
    }
  }

  /** A string holding a letter other than `e`/`E`, such as "recently-active" or most hash strings, is not numeric. */
  lemma LetterMeansNotNumeric(s: string, k: nat)
    requires k < |s| && !IsNumberChar(s[k])
    ensures !IsNumericString(s)
  {
    if IsNumericString(s) {
      NumericCharsOnly(s);
    }
  }

  lemma RecentlyActiveIsNotNumeric()
    ensures !IsNumericString("recently-active")
  {
    LetterMeansNotNumeric("recently-active", 0);
  }

  /** The value of a string of decimal digits. */
  function DigitsValue(d: string): nat
    requires AllDigits(d)
  {
    if d == [] then 0 else DigitsValue(d[..|d| - 1]) * 10 + (d[|d| - 1] as int - '0' as int)
  }

  /** An integer-form numeric string: white space, an optional sign, digits, white space. */
  predicate IsIntegerString(s: string) {
    var a := SkipSpaces(s, 0);
    var b := SkipSign(s, a);
    var c := SkipDigits(s, b);
    c > b && SkipSpaces(s, c) == |s|
  }

  /** The integer an integer-form string denotes. */
  function IntegerValue(s: string): int
    requires IsIntegerString(s)
  {
    var a := SkipSpaces(s, 0);
    var b := SkipSign(s, a);
    var c := SkipDigits(s, b);
    var n: int := DigitsValue(s[b..c]);
    if b > a && s[a] == '-' then -n else n
  }

  lemma IntegerStringIsNumeric(s: string)
    requires IsIntegerString(s)
    ensures IsNumericString(s)
  {
  }

  /** A non-empty run of digits is numeric, of integer form, and denotes its decimal value. */
  lemma DigitStringIsInteger(s: string)
    requires |s| > 0 && AllDigits(s)
    ensures IsNumericString(s) && IsIntegerString(s) && IntegerValue(s) == DigitsValue(s)
  {
    assert SkipSpaces(s, 0) == 0;
    assert SkipDigits(s, 0) == |s|;
    assert s[0..|s|] == s;
  }

  // ---------------------------------------------------------------- %d

  function DigitChar(n: nat): char
    requires n < 10
  {
    ('0' as int + n) as char
  }

  function NatToString(n: nat): (r: string)
    ensures |r| > 0
    decreases n
  {
    if n < 10 then [DigitChar(n)] else NatToString(n / 10) + [DigitChar(n % 10)]
  }

  /** sprintf's `%d`: the decimal form, with a minus sign for negatives. */
  function IntToString(i: int): string {
    if i < 0 then "-" + NatToString(-i) else NatToString(i)
  }

  /** `%d` renders a natural number as digits that read back as that number. */
  lemma {:induction false} NatToStringRoundTrip(n: nat)
    ensures AllDigits(NatToString(n)) && DigitsValue(NatToString(n)) == n
  {
    var r := NatToString(n);
    if n >= 10 {
      var p := NatToString(n / 10);
      NatToStringRoundTrip(n / 10);
      assert r == p + [DigitChar(n % 10)];
      assert r[..|r| - 1] == p;
    }
  }

  lemma {:induction false} NatToStringInjective(m: nat, n: nat)
    requires NatToString(m) == NatToString(n)
    ensures m == n
  {
    NatToStringRoundTrip(m);
    NatToStringRoundTrip(n);
  }

  /** The three-digit codes that occur as HTTP statuses render as their three digits. */
  lemma ThreeDigits(n: nat)
    requires 100 <= n < 1000
    ensures NatToString(n) == [DigitChar(n / 100), DigitChar(n / 10 % 10), DigitChar(n % 10)]
  {
    assert NatToString(n / 10) == NatToString(n / 100) + [DigitChar(n / 10 % 10)];
  }

  // ---------------------------------------------------------------- ASCII case

  function AsciiLower(c: char): char {
    if 'A' <= c <= 'Z' then (c as int + 32) as char else c
  }

  function AsciiUpper(c: char): char {
    if 'a' <= c <= 'z' then (c as int - 32) as char else c
  }

  function LowerAscii(s: string): (r: string)
    ensures |r| == |s|
  {
    seq(|s|, i requires 0 <= i < |s| => AsciiLower(s[i]))
  }

  /** Header names compare case-insensitively (ASCII). */
  predicate EqualsIgnoreCase(a: string, b: string) {
    LowerAscii(a) == LowerAscii(b)
  }

  /** strpos($s, $prefix) === 0 for a non-empty prefix. */
  predicate StartsWith(s: string, prefix: string) {
    |prefix| <= |s| && s[..|prefix|] == prefix
  }

  /** The first position at or after `i` where `needle` occurs in `s`. */
  function FindFrom(s: string, needle: string, i: nat): (r: Option<nat>)
    requires i <= |s|
    ensures r.Some? ==> i <= r.value && r.value + |needle| <= |s| && s[r.value..r.value + |needle|] == needle
    decreases |s| - i
  {
    if i + |needle| > |s| then None
    else if s[i..i + |needle|] == needle then Some(i)
    else FindFrom(s, needle, i + 1)
  }

  /** Str::after(): what follows the first occurrence of `search`; the whole subject when it is empty or absent. */
  function After(subject: string, search: string): string {
    if search == [] then subject
    else
      match FindFrom(subject, search, 0)
      case None => subject
      case Some(i) => subject[i + |search|..]
  }

  /** After a prefix the subject starts with, Str::after() is the rest of the subject. */
  lemma AfterPrefix(s: string, prefix: string)
    requires prefix != [] && StartsWith(s, prefix)
    ensures After(s, prefix) == s[|prefix|..]
  {
    assert s[0..|prefix|] == prefix;
  }

  // ---------------------------------------------------------------- Str::camel

  predicate IsAsciiLetter(c: char) {
    'a' <= c <= 'z' || 'A' <= c <= 'Z'
  }

  /** ucwords()'s default word delimiters: " \t\r\n\f\v". */
  predicate IsWordDelimiter(c: char) {
    c == ' ' || c == '\t' || c == '\r' || c == '\n' || c == '\U{000C}' || c == '\U{000B}'
  }

  function DashesToSpaces(s: string): (r: string)
    ensures |r| == |s|
  {
    seq(|s|, i requires 0 <= i < |s| => if s[i] == '-' || s[i] == '_' then ' ' else s[i])
  }

  /** ucwords(): upper-case the first character and every character after a delimiter. */
  function UcWords(s: string, atWordStart: bool): (r: string)
    ensures |r| == |s|
  {
    if s == [] then []
    else [if atWordStart then AsciiUpper(s[0]) else s[0]] + UcWords(s[1..], IsWordDelimiter(s[0]))
  }

  function WithoutSpaces(s: string): string {
    if s == [] then [] else (if s[0] == ' ' then [] else [s[0]]) + WithoutSpaces(s[1..])
  }

  function LcFirst(s: string): string {
    if s == [] then [] else [AsciiLower(s[0])] + s[1..]
  }

  /** Str::camel: lcfirst(studly($value)), studly being ucwords over dashes and underscores turned to spaces, spaces then removed. */
  function Camel(s: string): string {
    LcFirst(WithoutSpaces(UcWords(DashesToSpaces(s), true)))
  }

  predicate AllLetters(s: string) {
    forall i | 0 <= i < |s| :: IsAsciiLetter(s[i])
  }

  lemma {:induction false} UcWordsOfLetters(s: string)
    requires AllLetters(s)
    ensures UcWords(s, false) == s
  {
    if s != [] {
      UcWordsOfLetters(s[1..]);
    }
  }

  lemma {:induction false} WithoutSpacesOfLetters(s: string)
    requires AllLetters(s)
    ensures WithoutSpaces(s) == s
  {
    if s != [] {
      WithoutSpacesOfLetters(s[1..]);
    }
  }

  /** On a plain name made of letters, Str::camel only lower-cases the first letter. */
  lemma CamelOfLetters(s: string)
    requires |s| > 0 && AllLetters(s)
    ensures Camel(s) == [AsciiLower(s[0])] + s[1..]
  {
    assert DashesToSpaces(s) == s;
    UcWordsOfLetters(s[1..]);
    var u := UcWords(s, true);
    assert u == [AsciiUpper(s[0])] + s[1..];
    assert AllLetters(u) by {
      forall i | 0 <= i < |u| ensures IsAsciiLetter(u[i]) {
        if i > 0 { assert u[i] == s[i]; }
      }
    }
    WithoutSpacesOfLetters(u);
  }
}
