// The budget page script (ngansach.js). It covers:
//   - the thousands-separated display of the cap field (formatNumber);
//   - the focus, blur and input handlers that keep that field's text in
//     shape (formatCurrencyInput);
//   - the per-field check run before the form is sent (validateField).
module NganSachJs {
  import opened Common
  import opened Entities
  import opened Text

  // ----- formatNumber -----------------------------------------------------------

  /** The text with every '.' removed: `replace(/\./g, '')`. */
  function StripDots(s: string): (r: string)
    ensures |r| <= |s|
    ensures forall i :: 0 <= i < |r| ==> r[i] != '.'
    decreases |s|
  {
    if s == [] then []
    else if s[0] == '.' then StripDots(s[1..])
    else [s[0]] + StripDots(s[1..])
  }

  /** A string with no '.' is left as it is. */
  lemma {:induction false} StripDotsNone(s: string)
    requires forall i :: 0 <= i < |s| ==> s[i] != '.'
    ensures StripDots(s) == s
    decreases |s|
  {
    if s != [] {
      StripDotsNone(s[1..]);
    }
  }

  /**
   * The regular expression /\B(?=(\d{3})+(?!\d))/ on a digit string: a '.'
   * goes before each complete group of three digits counted from the
   * right, but not at the very start.
   */
  function Group(s: string): (r: string)
    decreases |s|
  {
    if |s| <= 3 then s else Group(s[..|s| - 3]) + "." + s[|s| - 3..]
  }

  /**
   * The grouped digits: one '.' per full group of three after the first
   * digit. Counted from the end, every fourth character is a '.' and no
   * other is, and the first character never is.
   */
  lemma {:induction false} GroupShape(s: string)
    requires |s| >= 1 && AllDigits(s)
    ensures |Group(s)| == |s| + (|s| - 1) / 3
    ensures forall j :: 0 <= j < |Group(s)| ==> (Group(s)[j] == '.' <==> (|Group(s)| - j) % 4 == 0)
    ensures Group(s)[0] == s[0]
    decreases |s|
  {
    var r := Group(s);
    if |s| > 3 {
      var p := s[..|s| - 3];
      var g := Group(p);
      var t := s[|s| - 3..];
      assert AllDigits(p) by {
        forall i | 0 <= i < |p| ensures IsDigit(p[i]) { assert p[i] == s[i]; }
      }
      GroupShape(p);
      assert r == g + "." + t;
      assert |r| == |g| + 4;
      assert (|s| - 1) / 3 == (|p| - 1) / 3 + 1;
      forall j | 0 <= j < |r|
        ensures r[j] == '.' <==> (|r| - j) % 4 == 0
      {
        if j < |g| {
          DotStep(r, g, t, j);
        } else if j == |g| {
          assert r[j] == '.' && |r| - j == 4;
        } else {
          TailDigit(r, g, s, j);
        }
      }
    }
  }

  /** A position in the last group holds a digit and lies fewer than four from the end. */
  lemma TailDigit(r: string, g: string, s: string, j: nat)
    requires |s| > 3 && AllDigits(s) && r == g + "." + s[|s| - 3..] && |g| < j < |r|
    ensures r[j] != '.' && 0 < |r| - j < 4
  {
    assert r[j] == s[|s| - 3 + (j - |g| - 1)];
    assert IsDigit(s[|s| - 3 + (j - |g| - 1)]);
  }

  /** A position inside the leading groups keeps its distance from the end modulo 4. */
  lemma DotStep(r: string, g: string, t: string, j: nat)
    requires r == g + "." + t && |t| == 3 && j < |g|
    ensures r[j] == g[j] && (|r| - j) % 4 == (|g| - j) % 4
  {
    assert |r| - j == (|g| - j) + 4;
  }

  /** Removing the dots from grouped digits gives the digits back. */
  lemma {:induction false} GroupStripDots(s: string)
    requires AllDigits(s)
    ensures StripDots(Group(s)) == s
    decreases |s|
  {
    if |s| <= 3 {
      StripDotsNone(s);
    } else {
      var p := s[..|s| - 3];
      var t := s[|s| - 3..];
      var g := Group(p);
      GroupStripDots(p);
      assert forall i :: 0 <= i < |t| ==> IsDigit(t[i]);
      StripDotsNone(t);
      StripDotsConcat(g + ".", t);
      StripDotsConcat(g, ".");
      StripDotsDot();
      assert s == p + t;
    }
  }

  lemma StripDotsDot()
    ensures StripDots(".") == []
  {
    assert "."[1..] == [];
  }

  /** Removing dots distributes over concatenation. */
  lemma {:induction false} StripDotsConcat(a: string, b: string)
    ensures StripDots(a + b) == StripDots(a) + StripDots(b)
    decreases |a|
  {
    if a == [] {
      assert a + b == b;
    } else {
      assert (a + b)[1..] == a[1..] + b;
      StripDotsConcat(a[1..], b);
    }
  }

  /** formatNumber on the non-negative whole numbers the field holds. */
  function FormatNumber(n: nat): (r: string)
  {
    Group(Digits(n))
  }

  /**
   * The shown text reads back as the number: removing the dots gives its
   * digits, and those denote n.
   */
  lemma FormatNumberRoundTrip(n: nat)
    ensures StripDots(FormatNumber(n)) == Digits(n)
    ensures AllDigits(StripDots(FormatNumber(n))) && ValueOf(StripDots(FormatNumber(n))) == n
  {
    GroupStripDots(Digits(n));
    ValueOfDigits(n);
  }

  /** Two numbers that format alike are equal. */
  lemma FormatNumberInjective(m: nat, n: nat)
    requires FormatNumber(m) == FormatNumber(n)
    ensures m == n
  {
    FormatNumberRoundTrip(m);
    FormatNumberRoundTrip(n);
  }

  /** 1500000 is shown as "1.500.000". */
  lemma FormatNumberExample()
    ensures FormatNumber(1500000) == "1.500.000"
  {
    DigitsOfValue("1500000");
    assert ValueOf("1500000") == 1500000 by {
      assert "15"[..1] == "1";
      assert ValueOf("15") == 15;
      assert "150"[..2] == "15";
      assert ValueOf("150") == 150;
      assert "1500"[..3] == "150";
      assert ValueOf("1500") == 1500;
      assert "15000"[..4] == "1500";
      assert ValueOf("15000") == 15000;
      assert "150000"[..5] == "15000";
      assert ValueOf("150000") == 150000;
      assert "1500000"[..6] == "150000";
    }
    assert Digits(1500000) == "1500000";
    assert "1500000"[..4] == "1500" && "1500000"[4..] == "000";
    assert "1500"[..1] == "1" && "1500"[1..] == "500";
    assert Group("1500") == "1.500";
    assert Group("1500000") == "1.500" + "." + "000";
  }

  // ----- The input handler ---------------------------------------------------------

  /** `replace(/[^\d]/g, '')`: only the characters 0-9 are kept. */
  function DigitsOnly(s: string): (r: string)
    ensures AllDigits(r) && |r| <= |s|
    decreases |s|
  {
    if s == [] then []
    else if IsDigit(s[0]) then [s[0]] + DigitsOnly(s[1..])
    else DigitsOnly(s[1..])
  }

  /** A string of digits is kept whole. */
  lemma {:induction false} DigitsOnlyKeepsDigits(s: string)
    requires AllDigits(s)
    ensures DigitsOnly(s) == s
    decreases |s|
  {
    if s != [] {
      DigitsOnlyKeepsDigits(s[1..]);
    }
  }

  /** The cleaned text, with one leading '0' dropped when more follows. */
  function Sanitize(s: string): (r: string)
    ensures AllDigits(r) && |r| <= |s|
    ensures |r| == |DigitsOnly(s)| || |r| == |DigitsOnly(s)| - 1
  {
    var d := DigitsOnly(s);
    if |d| > 1 && d[0] == '0' then d[1..] else d
  }

  /** A leading zero does not change the value of a digit string. */
  lemma {:induction false} LeadingZeroValue(t: string)
    requires AllDigits(t)
    ensures AllDigits("0" + t) && ValueOf("0" + t) == ValueOf(t)
    decreases |t|
  {
    if t != [] {
      LeadingZeroValue(t[..|t| - 1]);
      assert ("0" + t)[..|t|] == "0" + t[..|t| - 1];
    }
  }

  /** Sanitising keeps the number the typed digits denote. */
  lemma SanitizeKeepsValue(s: string)
    ensures ValueOf(Sanitize(s)) == ValueOf(DigitsOnly(s))
  {
    var d := DigitsOnly(s);
    if |d| > 1 && d[0] == '0' {
      LeadingZeroValue(d[1..]);
      assert d == "0" + d[1..];
    }
  }

  /** Only one zero goes per input event: "007" becomes "07", and "0" alone stays. */
  lemma SanitizeDropsOneZero()
    ensures Sanitize("007") == "07"
    ensures Sanitize("07") == "7"
    ensures Sanitize("0") == "0"
    ensures Sanitize("1a2.3") == "123"
  {
    assert DigitsOnly("007") == "007";
    assert DigitsOnly("07") == "07";
    assert DigitsOnly("0") == "0";
    assert DigitsOnly("1a2.3") == "123";
  }

  // ----- The field and its handlers ------------------------------------------------------

  /** The text is what formatNumber shows for some number. */
  ghost predicate IsFormattedNumber(v: string)
  {
    exists n: nat :: v == FormatNumber(n)
  }

  /** parseFloat on the dot-free text reads a number that is not negative. */
  predicate ReadsNonNegative(v: string)
  {
    var n := ParseInteger(StripDots(v));
    n.Some? && n.value >= 0
  }

  /** The number read, for a text that reads as one that is not negative. */
  function ReadNumber(v: string): nat
    requires ReadsNonNegative(v)
  {
    ParseInteger(StripDots(v)).value
  }

  /**
   * The cap input under formatCurrencyInput: its text, the closure's
   * isFormatted and originalValue, the input's disabled flag, and the
   * HanMucHidden input when the page has one.
   */
  class CurrencyField {
    var value: string
    var isFormatted: bool
    var originalValue: string
    var disabled: bool
    var hidden: Option<string>

    /** While flagged as formatted, the text is a formatted number. */
    ghost predicate Valid()
      reads this
    {
      isFormatted ==> IsFormattedNumber(value)
    }

    /** Set-up: a value that reads as a number that is not negative is shown formatted at once. */
    constructor (initial: string, hiddenInput: Option<string>)
      ensures Valid()
      ensures hidden == hiddenInput && !disabled
      ensures initial != [] && ReadsNonNegative(initial) ==>
        value == FormatNumber(ReadNumber(initial)) && isFormatted && originalValue == Digits(ReadNumber(initial))
      ensures !(initial != [] && ReadsNonNegative(initial)) ==>
        value == initial && !isFormatted && originalValue == initial
    {
      value := initial;
      isFormatted := false;
      originalValue := initial;
      disabled := false;
      hidden := hiddenInput;
      if initial != [] {
        var n := ParseInteger(StripDots(initial));
        if n.Some? && n.value >= 0 {
          var shown := FormatNumber(n.value);
          value := shown;
          isFormatted := true;
          originalValue := StripDots(shown);
          FormatNumberRoundTrip(n.value);
        }
      }
    }

    /** focus: a formatted text has its dots removed, leaving the number's plain digits. */
    method Focus()
      requires Valid()
      modifies this`value, this`isFormatted
      ensures Valid()
      ensures old(isFormatted) && old(value) != [] ==>
        !isFormatted && value == StripDots(old(value)) &&
        AllDigits(value) && FormatNumber(ValueOf(value)) == old(value)
      ensures !(old(isFormatted) && old(value) != []) ==>
        value == old(value) && isFormatted == old(isFormatted)
    {
      if isFormatted && value != [] {
        ghost var n: nat :| value == FormatNumber(n);
        FormatNumberRoundTrip(n);
        value := StripDots(value);
        isFormatted := false;
      }
    }

    /**
     * blur: an unformatted, non-blank text that reads as a number that is
     * not negative is shown formatted and remembered (and copied to the
     * hidden input, which then disables this one); any other non-blank
     * text is replaced by the remembered one.
     */
    method Blur()
      requires Valid()
      modifies this`value, this`isFormatted, this`originalValue, this`disabled, this`hidden
      ensures Valid()
      ensures var current := Trim(old(value));
        current == [] || old(isFormatted) ==>
          value == old(value) && isFormatted == old(isFormatted) && originalValue == old(originalValue) &&
          disabled == old(disabled) && hidden == old(hidden)
      ensures var current := Trim(old(value));
        current != [] && !old(isFormatted) && ReadsNonNegative(current) ==>
          value == FormatNumber(ReadNumber(current)) && isFormatted && originalValue == current &&
          (old(hidden).Some? ==> hidden == Some(current) && disabled) &&
          (old(hidden).None? ==> hidden == None && disabled == old(disabled))
      ensures var current := Trim(old(value));
        current != [] && !old(isFormatted) && !ReadsNonNegative(current) ==>
          value == old(originalValue) && !isFormatted && originalValue == old(originalValue) &&
          disabled == old(disabled) && hidden == old(hidden)
    {
      var current := Trim(value);
      if current != [] && !isFormatted {
        var n := ParseInteger(StripDots(current));
        if n.Some? && n.value >= 0 {
          value := FormatNumber(n.value);
          isFormatted := true;
          originalValue := current;
          if hidden.Some? {
            hidden := Some(current);
            disabled := true;
          }
        } else {
          value := originalValue;
        }
      }
    }

    /** input: the typed text is cleaned and the field counts as unformatted. */
    method Input(typed: string)
      modifies this`value, this`isFormatted
      ensures Valid()
      ensures value == Sanitize(typed) && AllDigits(value) && !isFormatted
    {
      value := Sanitize(typed);
      isFormatted := false;
    }
  }

  // ----- validateField -------------------------------------------------------------

  /**
   * A field fails when it is required and blank after trimming, or when it
   * is the cap (HanMuc), not blank, and parseFloat does not read a
   * positive number from it.
   */
  function ValidateField(value: string, required: bool, isCap: bool): (ok: bool)
  {
    var v := Trim(value);
    !(required && v == []) && !(isCap && v != [] && !ParsesPositive(v))
  }

  /** A required field fails exactly when it is blank; a blank optional field passes. */
  lemma RequiredBlankFails(value: string, isCap: bool)
    ensures ValidateField(value, true, isCap) ==> Trim(value) != []
    ensures Trim(value) == [] ==> !ValidateField(value, true, isCap) && ValidateField(value, false, isCap)
  {
  }

  /**
   * The formatted cap passes the check exactly when the number is
   * positive. parseFloat takes the first '.' as a decimal point and stops
   * at the second, so "1.500.000" reads as 1.5, not 1500000; the value read
   * is still positive because the leading group of a positive number starts
   * with a digit other than '0', while "0" reads as 0.
   */
  lemma FormattedCapValid(n: nat)
    ensures ValidateField(FormatNumber(n), true, true) <==> n > 0
  {
    if n == 0 {
      ZeroCapInvalid();
    } else {
      PositiveCapValid(n);
    }
  }

  lemma ZeroCapInvalid()
    ensures !ValidateField(FormatNumber(0), true, true)
  {
    var s := FormatNumber(0);
    assert Digits(0) == "0";
    assert s == "0";
    TrimKeepsInner(s);
    assert TrimStart(s) == s;
    assert SignAndRest(s) == (false, s);
    assert s[1..] == [];
    assert LeadingDigits(s[1..]) == [];
    assert LeadingDigits(s) == s;
    assert !HasNonZeroDigit(s);
    assert !ParsesPositive(s);
  }

  lemma PositiveCapValid(n: nat)
    requires n > 0
    ensures ValidateField(FormatNumber(n), true, true)
  {
    var s := FormatNumber(n);
    GroupShape(Digits(n));
    assert IsDigit(s[0]) && s[0] != '0';
    assert IsDigit(s[|s| - 1]);
    TrimKeepsInner(s);
    LeadingDigitFirst(s);
  }
}
