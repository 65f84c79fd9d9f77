// Text helpers of the browser scripts: decimal digit strings, the
// String.prototype.trim of a form value, and the part of parseFloat the
// scripts rely on (an optional sign, digits, an optional fraction).
module Text {
  import opened Common
  import opened Entities

  predicate IsDigit(c: char)
  {
    '0' <= c <= '9'
  }

  predicate AllDigits(s: string)
  {
    forall i :: 0 <= i < |s| ==> IsDigit(s[i])
  }

  function DigitValue(c: char): nat
    requires IsDigit(c)
  {
    c as int - '0' as int
  }

  function DigitChar(d: nat): (c: char)
    requires d < 10
    ensures IsDigit(c) && DigitValue(c) == d
  {
    ('0' as int + d) as char
  }

  // ----- Number.prototype.toString on a non-negative integer ------------------------

  /** The decimal digits of n, without leading zeros ("0" for zero). */
  function Digits(n: nat): (r: string)
    ensures |r| >= 1 && AllDigits(r)
    ensures r[0] == '0' <==> n == 0
    ensures n < 10 <==> |r| == 1
  {
    if n < 10 then [DigitChar(n)] else Digits(n / 10) + [DigitChar(n % 10)]
  }

  /** The number a digit string denotes. */
  function ValueOf(s: string): nat
    requires AllDigits(s)
  {
    if s == [] then 0 else ValueOf(s[..|s| - 1]) * 10 + DigitValue(s[|s| - 1])
  }

  /** Reading back the digits of n gives n. */
  lemma {:induction false} ValueOfDigits(n: nat)
    ensures ValueOf(Digits(n)) == n
    decreases n
  {
    if n >= 10 {
      ValueOfDigits(n / 10);
      var s := Digits(n);
      assert s[..|s| - 1] == Digits(n / 10);
    }
  }

  /** A non-empty digit string without a leading zero (or "0" itself) is the digits of its value. */
  lemma {:induction false} DigitsOfValue(s: string)
    requires |s| >= 1 && AllDigits(s) && (s[0] == '0' ==> s == "0")
    ensures Digits(ValueOf(s)) == s
    decreases |s|
  {
    if |s| > 1 {
      var p := s[..|s| - 1];
      DigitsOfValue(p);
      LeadingDigitBound(p);
      var d := DigitValue(s[|s| - 1]);
      assert ValueOf(s) / 10 == ValueOf(p) && ValueOf(s) % 10 == d;
      assert DigitChar(d) == s[|s| - 1];
    }
  }

  /** A digit string of two or more digits without a leading zero denotes at least 10. */
  lemma {:induction false} LeadingDigitBound(s: string)
    requires |s| >= 1 && AllDigits(s) && s[0] != '0'
    ensures ValueOf(s) >= 1
    ensures |s| >= 2 ==> ValueOf(s) >= 10
    decreases |s|
  {
    if |s| >= 2 {
      LeadingDigitBound(s[..|s| - 1]);
    }
  }

  // ----- trim -----------------------------------------------------------------

  /**
   * The white space JavaScript's trim and parseFloat skip: the WhiteSpace
   * and LineTerminator characters of ECMAScript, which take in the byte
   * order mark U+FEFF but not next line U+0085.
   */
  predicate IsJsWhiteSpace(c: char)
  {
    ('\t' <= c <= '\r') || c == ' ' || c == '\U{00A0}' || c == '\U{1680}' ||
    ('\U{2000}' <= c <= '\U{200A}') || c == '\U{2028}' || c == '\U{2029}' || c == '\U{202F}' ||
    c == '\U{205F}' || c == '\U{3000}' || c == '\U{FEFF}'
  }

  /**
   * The browser and the server disagree on two characters: next line is
   * white space only for .NET, the byte order mark only for JavaScript.
   */
  lemma WhiteSpaceSetsDiffer()
    ensures IsWhiteSpace('\U{0085}') && !IsJsWhiteSpace('\U{0085}')
    ensures IsJsWhiteSpace('\U{FEFF}') && !IsWhiteSpace('\U{FEFF}')
    ensures forall c :: IsWhiteSpace(c) && c != '\U{0085}' ==> IsJsWhiteSpace(c)
  {
  }

  /** An ideographic space alone is blank on both sides: [Required] refuses it and trim empties it. */
  lemma IdeographicSpaceIsBlank()
    ensures !HasText("\U{3000}")
    ensures Trim("\U{3000}") == []
  {
  }

  function TrimStart(s: string): (r: string)
    ensures |r| <= |s| && r == s[|s| - |r|..]
    ensures r == [] || !IsJsWhiteSpace(r[0])
  {
    if s != [] && IsJsWhiteSpace(s[0]) then TrimStart(s[1..]) else s
  }

  function TrimEnd(s: string): (r: string)
    ensures |r| <= |s| && r == s[..|r|]
    ensures r == [] || !IsJsWhiteSpace(r[|r| - 1])
  {
    if s != [] && IsJsWhiteSpace(s[|s| - 1]) then TrimEnd(s[..|s| - 1]) else s
  }

  /** String.prototype.trim: white space removed from both ends. */
  function Trim(s: string): (r: string)
    ensures r == [] || (!IsJsWhiteSpace(r[0]) && !IsJsWhiteSpace(r[|r| - 1]))
  {
    TrimStart(TrimEnd(s))
  }

  /** Trimming leaves nothing exactly when every character is white space. */
  lemma TrimEmptyIffBlank(s: string)
    ensures (forall i :: 0 <= i < |s| ==> IsJsWhiteSpace(s[i])) <==> Trim(s) == []
  {
    if forall i :: 0 <= i < |s| ==> IsJsWhiteSpace(s[i]) {
      WhiteSpaceTrimsAway(s);
    } else {
      var k :| 0 <= k < |s| && !IsJsWhiteSpace(s[k]);
      KeepsNonWhiteSpace(s, k);
    }
  }

  /** One step of trimStart: a leading white-space character goes. */
  lemma TrimStartStep(s: string)
    requires s != []
    ensures IsJsWhiteSpace(s[0]) ==> TrimStart(s) == TrimStart(s[1..])
    ensures !IsJsWhiteSpace(s[0]) ==> TrimStart(s) == s
  {
  }

  /** One step of trimEnd: a trailing white-space character goes. */
  lemma TrimEndStep(s: string)
    requires s != []
    ensures IsJsWhiteSpace(s[|s| - 1]) ==> TrimEnd(s) == TrimEnd(s[..|s| - 1])
    ensures !IsJsWhiteSpace(s[|s| - 1]) ==> TrimEnd(s) == s
  {
  }

  /** trim is trimEnd followed by trimStart. */
  lemma TrimBothEnds(s: string)
    ensures Trim(s) == TrimStart(TrimEnd(s))
  {
  }

  lemma {:induction false} WhiteSpaceTrimsAway(s: string)
    requires forall i :: 0 <= i < |s| ==> IsJsWhiteSpace(s[i])
    ensures TrimStart(TrimEnd(s)) == []
    decreases |s|
  {
    if s != [] {
      WhiteSpaceTrimsAway(s[..|s| - 1]);
    }
  }

  /** Trimming keeps a character that is not white space, so the result is not empty. */
  lemma KeepsNonWhiteSpace(s: string, k: nat)
    requires k < |s| && !IsJsWhiteSpace(s[k])
    ensures TrimStart(TrimEnd(s)) != []
  {
    var t := TrimEnd(s);
    if |t| <= k {
      LastWhiteSpace(s, k);
    }
    assert s[k] == t[k];
    if TrimStart(t) == [] {
      FirstWhiteSpace(t, k);
    }
  }

  /** TrimEnd stops at the last character that is not white space. */
  lemma {:induction false} LastWhiteSpace(s: string, k: nat)
    requires k < |s| && !IsJsWhiteSpace(s[k])
    ensures |TrimEnd(s)| > k
    decreases |s|
  {
    if IsJsWhiteSpace(s[|s| - 1]) {
      LastWhiteSpace(s[..|s| - 1], k);
    }
  }

  /** TrimStart stops at the first character that is not white space. */
  lemma {:induction false} FirstWhiteSpace(s: string, k: nat)
    requires k < |s| && !IsJsWhiteSpace(s[k])
    ensures TrimStart(s) != []
    decreases |s|
  {
    if IsJsWhiteSpace(s[0]) {
      FirstWhiteSpace(s[1..], k - 1);
    }
  }

  // ----- parseFloat -----------------------------------------------------------

  /** The longest prefix made of digits. */
  function LeadingDigits(s: string): (r: string)
    ensures AllDigits(r) && |r| <= |s| && r == s[..|r|]
    ensures |r| < |s| ==> !IsDigit(s[|r|])
  {
    if s != [] && IsDigit(s[0]) then [s[0]] + LeadingDigits(s[1..]) else []
  }

  /** The sign in front of the number, if any, and what follows it. */
  function SignAndRest(s: string): (bool, string)
  {
    if s != [] && (s[0] == '-' || s[0] == '+') then (s[0] == '-', s[1..]) else (false, s)
  }

  /**
   * parseFloat of a string without a decimal point: leading white space
   * skipped, an optional sign, then the digits up to the first other
   * character; NaN (None) when there is no digit.
   */
  function ParseInteger(s: string): Option<int>
  {
    var (negative, rest) := SignAndRest(TrimStart(s));
    var digits := LeadingDigits(rest);
    if digits == [] then None
    else if negative then Some(-(ValueOf(digits) as int))
    else Some(ValueOf(digits))
  }

  predicate HasNonZeroDigit(s: string)
  {
    exists i :: 0 <= i < |s| && IsDigit(s[i]) && s[i] != '0'
  }

  /**
   * `parseFloat(s) > 0`: the number read (sign, digits, and a fraction
   * after one '.') is not NaN, not negative, and has a non-zero digit.
   */
  predicate ParsesPositive(s: string)
  {
    var (negative, rest) := SignAndRest(TrimStart(s));
    var whole := LeadingDigits(rest);
    var after := rest[|whole|..];
    var fraction := if after != [] && after[0] == '.' then LeadingDigits(after[1..]) else [];
    !negative && (HasNonZeroDigit(whole) || HasNonZeroDigit(fraction))
  }

  /** A text that starts and ends with a character other than white space is left as it is by trim. */
  lemma TrimKeepsInner(s: string)
    requires s != [] && !IsJsWhiteSpace(s[0]) && !IsJsWhiteSpace(s[|s| - 1])
    ensures Trim(s) == s
  {
    assert TrimEnd(s) == s;
  }

  /** A text starting with a digit other than '0' reads as a positive number. */
  lemma LeadingDigitFirst(s: string)
    requires s != [] && IsDigit(s[0]) && s[0] != '0'
    ensures ParsesPositive(s)
  {
    assert TrimStart(s) == s;
    assert SignAndRest(s) == (false, s);
    var whole := LeadingDigits(s);
    assert whole[0] == s[0];
    assert HasNonZeroDigit(whole);
  }
}
