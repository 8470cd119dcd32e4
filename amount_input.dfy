/** The amount-input pattern `[+-]?([0-9]{0,8}([.][0-9]{0,2})?|[.][0-9]{0,2})`
    of the floating input filter: an optional sign, at most eight integer
    digits, and an optional dot with at most two decimals. Partial entries
    ("", "+", ".", "1.") are part of the language, as the filter must let
    them through while typing. */
module AmountInput {

  predicate IsDigit(c: char) {
    '0' <= c <= '9'
  }

  predicate IsSign(c: char) {
    c == '+' || c == '-'
  }

  // ----------------------------------------------------------- recognizer

  /** Whether the whole input matches the pattern. */
  predicate Accepts(s: string) {
    if |s| > 0 && IsSign(s[0]) then Whole(s[1..], 0) else Whole(s, 0)
  }

  /** In the integer part, `n` digits read so far. */
  predicate Whole(s: string, n: nat)
    decreases |s|
  {
    if s == [] then true
    else if IsDigit(s[0]) then n < 8 && Whole(s[1..], n + 1)
    else if s[0] == '.' then Decimals(s[1..], 0)
    else false
  }

  /** After the dot, `n` decimals read so far. */
  predicate Decimals(s: string, n: nat)
    decreases |s|
  {
    if s == [] then true
    else IsDigit(s[0]) && n < 2 && Decimals(s[1..], n + 1)
  }

  // ------------------------------------------------ the pattern, read off

  predicate AllDigits(t: string) {
    forall i :: 0 <= i < |t| ==> IsDigit(t[i])
  }

  /** `[.][0-9]{0,2}` */
  predicate DotDecimals(t: string) {
    |t| >= 1 && t[0] == '.' && |t| <= 3 && AllDigits(t[1..])
  }

  /** `[0-9]{0,m}([.][0-9]{0,2})?` */
  predicate DigitsThenDot(t: string, m: nat) {
    exists k :: 0 <= k <= |t| && k <= m && AllDigits(t[..k]) && (k == |t| || DotDecimals(t[k..]))
  }

  /** `[0-9]{0,8}([.][0-9]{0,2})?|[.][0-9]{0,2}` */
  predicate Unsigned(t: string) {
    DigitsThenDot(t, 8) || DotDecimals(t)
  }

  /** The whole pattern. */
  predicate Pattern(s: string) {
    Unsigned(s) || (|s| > 0 && IsSign(s[0]) && Unsigned(s[1..]))
  }

  lemma {:induction false} DecimalsSpec(s: string, n: nat)
    requires n <= 2
    ensures Decimals(s, n) <==> |s| <= 2 - n && AllDigits(s)
    decreases |s|
  {
    if s != [] {
      if n < 2 {
        DecimalsSpec(s[1..], n + 1);
      }
      assert AllDigits(s) <==> IsDigit(s[0]) && AllDigits(s[1..]) by {
        if IsDigit(s[0]) && AllDigits(s[1..]) {
          forall i | 0 <= i < |s| ensures IsDigit(s[i]) {
            if i > 0 { assert s[i] == s[1..][i - 1]; }
          }
        }
      }
    }
  }

  /** A leading digit is one of the at most `m` integer digits. */
  lemma DigitsThenDotCons(s: string, m: nat)
    requires s != [] && IsDigit(s[0]) && m > 0
    ensures DigitsThenDot(s, m) <==> DigitsThenDot(s[1..], m - 1)
  {
    if DigitsThenDot(s[1..], m - 1) {
      var k :| 0 <= k <= |s[1..]| && k <= m - 1 && AllDigits(s[1..][..k]) &&
               (k == |s[1..]| || DotDecimals(s[1..][k..]));
      DigitPrefixGrows(s, k);
    }
    if DigitsThenDot(s, m) {
      var k :| 0 <= k <= |s| && k <= m && AllDigits(s[..k]) && (k == |s| || DotDecimals(s[k..]));
      DigitPrefixShrinks(s, k);
    }
  }

  lemma DigitPrefixGrows(s: string, k: nat)
    requires s != [] && IsDigit(s[0]) && k <= |s| - 1 && AllDigits(s[1..][..k])
    ensures AllDigits(s[..k + 1]) && s[k + 1..] == s[1..][k..]
  {
    var p := s[..k + 1];
    forall i | 0 <= i < |p| ensures IsDigit(p[i]) {
      if i > 0 {
        assert p[i] == s[1..][..k][i - 1];
      }
    }
  }

  lemma DigitPrefixShrinks(s: string, k: nat)
    requires s != [] && IsDigit(s[0]) && 0 < k <= |s| && AllDigits(s[..k])
    ensures AllDigits(s[1..][..k - 1]) && s[1..][k - 1..] == s[k..]
  {
    var t := s[1..][..k - 1];
    forall i | 0 <= i < |t| ensures IsDigit(t[i]) {
      assert t[i] == s[..k][i + 1];
    }
  }

  /** No integer digit is left for a leading digit. */
  lemma NoDigitsLeft(s: string)
    requires s != [] && IsDigit(s[0])
    ensures !DigitsThenDot(s, 0)
  {
    assert s[0..] == s;
  }

  /** A leading dot starts the dot part; anything else but a digit is
      rejected. */
  lemma DigitsThenDotOther(s: string, m: nat)
    requires s != [] && !IsDigit(s[0])
    ensures DigitsThenDot(s, m) <==> DotDecimals(s)
  {
    assert AllDigits(s[..0]);
    assert s[0..] == s;
    forall k | 0 < k <= |s| ensures !AllDigits(s[..k]) {
      assert s[..k][0] == s[0];
    }
  }

  /** The integer-part state accepts exactly the rest of an integer part
      of at most `8 - n` digits, followed by nothing or by a dot part. */
  lemma {:induction false} WholeSpec(s: string, n: nat)
    requires n <= 8
    ensures Whole(s, n) <==> DigitsThenDot(s, 8 - n)
    decreases |s|
  {
    if s == [] {
      assert AllDigits(s[..0]);
    } else if IsDigit(s[0]) {
      if n < 8 {
        WholeSpec(s[1..], n + 1);
        DigitsThenDotCons(s, 8 - n);
      } else {
        NoDigitsLeft(s);
      }
    } else {
      DigitsThenDotOther(s, 8 - n);
      if s[0] == '.' {
        DecimalsSpec(s[1..], 0);
      }
    }
  }

  lemma UnsignedIsWhole(t: string)
    ensures Unsigned(t) <==> Whole(t, 0)
  {
    WholeSpec(t, 0);
    if DotDecimals(t) {
      assert AllDigits(t[..0]) && t[0..] == t;
    }
  }

  /** The recognizer accepts exactly the strings of the pattern. */
  lemma AcceptsIsPattern(s: string)
    ensures Accepts(s) <==> Pattern(s)
  {
    UnsignedIsWhole(s);
    if |s| > 0 {
      UnsignedIsWhole(s[1..]);
    }
  }

  // ----------------------------------------------------------- properties

  lemma {:induction false} WholeDigits(t: string, n: nat)
    requires n <= 8 && AllDigits(t)
    ensures Whole(t, n) <==> |t| <= 8 - n
    decreases |t|
  {
    if t != [] && n < 8 {
      assert AllDigits(t[1..]) by {
        forall i | 0 <= i < |t[1..]| ensures IsDigit(t[1..][i]) { assert t[1..][i] == t[i + 1]; }
      }
      WholeDigits(t[1..], n + 1);
    }
  }

  /** A plain integer is accepted exactly when it has at most eight
      digits. */
  lemma IntegerDigits(t: string)
    requires AllDigits(t)
    ensures Accepts(t) <==> |t| <= 8
  {
    WholeDigits(t, 0);
  }

  lemma {:induction false} WholeThenDot(d: string, f: string, n: nat)
    requires n <= 8 && AllDigits(d) && AllDigits(f)
    ensures Whole(d + ['.'] + f, n) <==> |d| <= 8 - n && |f| <= 2
    decreases |d|
  {
    var s := d + ['.'] + f;
    if d == [] {
      assert s[1..] == f;
      DecimalsSpec(f, 0);
    } else {
      assert s[0] == d[0];
      if n < 8 {
        assert s[1..] == d[1..] + ['.'] + f;
        assert AllDigits(d[1..]) by {
          forall i | 0 <= i < |d[1..]| ensures IsDigit(d[1..][i]) { assert d[1..][i] == d[i + 1]; }
        }
        WholeThenDot(d[1..], f, n + 1);
      }
    }
  }

  /** A decimal amount is accepted exactly when it has at most eight
      integer digits and at most two decimals. */
  lemma DecimalDigits(d: string, f: string)
    requires AllDigits(d) && AllDigits(f)
    ensures Accepts(d + ['.'] + f) <==> |d| <= 8 && |f| <= 2
  {
    WholeThenDot(d, f, 0);
    if d == [] {
      assert (d + ['.'] + f)[0] == '.';
    } else {
      assert (d + ['.'] + f)[0] == d[0];
    }
  }

  /** One sign is read like no sign; two are rejected. */
  lemma Signs(c: char, t: string)
    requires IsSign(c)
    ensures Accepts([c] + t) <==> Whole(t, 0)
    ensures |t| > 0 && IsSign(t[0]) ==> !Accepts([c] + t)
    ensures |t| > 0 && !IsSign(t[0]) ==> (Accepts([c] + t) <==> Accepts(t))
  {
    assert ([c] + t)[1..] == t;
  }

  lemma {:induction false} DecimalsAreDigits(s: string, n: nat)
    requires Decimals(s, n)
    ensures AllDigits(s)
    decreases |s|
  {
    if s != [] {
      DecimalsAreDigits(s[1..], n + 1);
      forall i | 0 < i < |s| ensures IsDigit(s[i]) { assert s[i] == s[1..][i - 1]; }
    }
  }

  /** The integer-part state sees at most one dot, and only digits and that
      dot. */
  lemma {:induction false} WholeShape(s: string, n: nat)
    requires Whole(s, n)
    ensures forall i :: 0 <= i < |s| ==> IsDigit(s[i]) || s[i] == '.'
    ensures forall i, j :: 0 <= i < j < |s| && s[i] == '.' ==> s[j] != '.'
    decreases |s|
  {
    if s != [] {
      if IsDigit(s[0]) {
        WholeShape(s[1..], n + 1);
        forall i | 0 < i < |s| ensures s[i] == s[1..][i - 1] { }
      } else {
        DecimalsAreDigits(s[1..], 0);
        forall i | 0 < i < |s| ensures IsDigit(s[i]) { assert s[i] == s[1..][i - 1]; }
      }
    }
  }

  /** An accepted input holds only digits, at most one dot, and a sign only
      in front: so letters, commas, "1..5", "..5" and "1.2.3" are all
      rejected. */
  lemma AcceptedShape(s: string)
    requires Accepts(s)
    ensures forall i :: 0 <= i < |s| ==> IsDigit(s[i]) || s[i] == '.' || (i == 0 && IsSign(s[i]))
    ensures forall i, j :: 0 <= i < j < |s| && s[i] == '.' ==> s[j] != '.'
  {
    if |s| > 0 && IsSign(s[0]) {
      WholeShape(s[1..], 0);
      forall i | 0 < i < |s| ensures s[i] == s[1..][i - 1] { }
    } else {
      WholeShape(s, 0);
    }
  }

  /** Partial entries the filter must let through while typing. */
  lemma AcceptsPartialEntries()
    ensures Accepts("") && Accepts(".") && Accepts("+") && Accepts("-") && Accepts("1.") && Accepts(".5")
  {
  }

  /** Eight integer digits are accepted. */
  lemma AcceptsLongestInteger()
    ensures Accepts("12345678")
  {
    IntegerDigits("12345678");
  }

  /** The largest amount: eight integer digits and two decimals. */
  lemma AcceptsMaximumAmount()
    ensures Accepts("99999999.99")
  {
    assert "99999999" + ['.'] + "99" == "99999999.99";
    DecimalDigits("99999999", "99");
  }

  /** The longest amount of the business cases. */
  lemma AcceptsLongestAmounts()
    ensures Accepts("12345678.99")
  {
    assert "12345678" + ['.'] + "99" == "12345678.99";
    DecimalDigits("12345678", "99");
  }

  /** Signed and zero-padded amounts. */
  lemma AcceptsSignedAndPadded()
    ensures Accepts("00.00") && Accepts("+12.34") && Accepts("-1.50") && Accepts(".00")
  {
  }

  /** Nine integer digits are too many. */
  lemma RejectsNineIntegerDigits()
    ensures !Accepts("123456789")
  {
    IntegerDigits("123456789");
  }

  /** Three or four decimals are too many. */
  lemma RejectsTooManyDecimals()
    ensures !Accepts("1.123") && !Accepts("12.3456")
  {
  }

  /** Too many decimals after two integer digits. */
  lemma RejectsTooManyDecimalsAfterTwoDigits()
    ensures !Accepts("99.999") && !Accepts("10.5555")
  {
  }

  /** Three decimals, with or without integer digits. */
  lemma RejectsThreeDecimals()
    ensures !Accepts("123.456") && !Accepts(".456")
  {
  }

  /** Two signs, two dots, or a foreign character. */
  lemma RejectsMalformed()
    ensures !Accepts("+-1") && !Accepts("-+1") && !Accepts("1..5") && !Accepts("..5")
    ensures !Accepts("1.2.3") && !Accepts("1.2.3.4") && !Accepts("1,5") && !Accepts("abc") && !Accepts("!")
  {
  }
}
