/** Normalisation of Nigerian phone numbers to the international form of
    ITU-T Recommendation E.164 (clause 6): "+", country code 234, then the
    10-digit national significant number. */
module PhoneFormatter {
  import opened Wrappers
  import opened JsSemantics

  predicate StartsWith(s: string, p: string) { |p| <= |s| && s[..|p|] == p }

  const CountryCode: string := "234"

  /** `phone.replace(/\D/g, "")`: the ASCII digits of `s`, in order. */
  function DigitsOnly(s: string): (d: string)
    ensures AllDigits(d) && |d| <= |s|
  {
    if s == [] then [] else (if IsDigit(s[0]) then [s[0]] else []) + DigitsOnly(s[1..])
  }

  /** The two prefix rules: a leading 0 becomes 234, and 234 is put in front
      of a number that does not already start with it. Either way the result
      starts with 234, and digits stay digits. */
  function WithCountryCode(d: string): (c: string)
    ensures StartsWith(c, CountryCode)
    ensures AllDigits(d) ==> AllDigits(c)
  {
    var c := if StartsWith(d, "0") then CountryCode + d[1..] else d;
    if StartsWith(c, CountryCode) then c else CountryCode + c
  }

  datatype PhoneError = InvalidPhoneFormat(phone: string)

  /** formatPhoneNumber; a thrown error is `Failure`, carrying the raw input
      that the error message quotes. */
  function FormatPhoneNumber(phone: string): (r: Result<string, PhoneError>)
    ensures r.Success? ==> |r.value| == 14 && r.value[0] == '+' && AllDigits(r.value[1..])
                           && StartsWith(r.value[1..], CountryCode)
    ensures r.Failure? ==> r.error == InvalidPhoneFormat(phone)
  {
    var cleaned := WithCountryCode(DigitsOnly(phone));
    if |cleaned| != 13 then Failure(InvalidPhoneFormat(phone)) else Success("+" + cleaned)
  }

  /** The digit strings that normalise: a 0 and ten digits, 234 and ten
      digits, or ten digits that start neither with 0 nor with 234. */
  predicate Normalisable(d: string)
  {
    || (|d| == 11 && d[0] == '0')
    || (|d| == 13 && StartsWith(d, CountryCode))
    || (|d| == 10 && d[0] != '0' && !StartsWith(d, CountryCode))
  }

  /** The national significant number inside a normalisable digit string. */
  function NationalNumber(d: string): (n: string)
    requires Normalisable(d)
    ensures |n| == 10
  {
    if |d| == 11 then d[1..] else if |d| == 13 then d[3..] else d
  }

  lemma WithCountryCodeCharacterised(d: string)
    ensures |WithCountryCode(d)| == 13 <==> Normalisable(d)
    ensures Normalisable(d) ==> WithCountryCode(d) == CountryCode + NationalNumber(d)
  {
    if StartsWith(d, "0") {
      var c := CountryCode + d[1..];
      assert c[..3] == CountryCode;
      assert WithCountryCode(d) == c;
    } else if StartsWith(d, CountryCode) {
      assert WithCountryCode(d) == d;
      assert d[0] == '2';
      if |d| == 13 {
        assert d == d[..3] + d[3..];
      }
    } else {
      var c := CountryCode + d;
      assert c[..3] == CountryCode;
      assert WithCountryCode(d) == c;
      if d != [] { assert d[..1] == [d[0]]; }
    }
  }

  /** Formatting succeeds exactly on the normalisable digit strings, and then
      yields "+234" followed by the national number. */
  lemma FormatCharacterised(phone: string)
    ensures var d := DigitsOnly(phone);
            FormatPhoneNumber(phone) ==
              if Normalisable(d) then Success("+234" + NationalNumber(d))
              else Failure(InvalidPhoneFormat(phone))
  {
    var d := DigitsOnly(phone);
    WithCountryCodeCharacterised(d);
    if Normalisable(d) {
      assert "+" + (CountryCode + NationalNumber(d)) == "+234" + NationalNumber(d);
    }
  }

  lemma {:induction false} DigitsOnlyOfDigits(d: string)
    requires AllDigits(d)
    ensures DigitsOnly(d) == d
  {
    if d != [] {
      DigitsOnlyOfDigits(d[1..]);
      assert [d[0]] + d[1..] == d;
    }
  }

  lemma {:induction false} DigitsOnlyAppend(a: string, b: string)
    ensures DigitsOnly(a + b) == DigitsOnly(a) + DigitsOnly(b)
  {
    if a == [] {
      assert a + b == b;
    } else {
      assert (a + b)[0] == a[0] && (a + b)[1..] == a[1..] + b;
      DigitsOnlyAppend(a[1..], b);
    }
  }

  /** Normalisation is idempotent. */
  lemma FormatIdempotent(phone: string)
    requires FormatPhoneNumber(phone).Success?
    ensures FormatPhoneNumber(FormatPhoneNumber(phone).value) == FormatPhoneNumber(phone)
  {
    var f := FormatPhoneNumber(phone).value;
    var c := f[1..];
    assert f == "+" + c;
    DigitsOnlyAppend("+", c);
    assert DigitsOnly("+") == [];
    DigitsOnlyOfDigits(c);
    assert DigitsOnly(f) == c;
    assert !StartsWith(c, "0") by { assert c[0] == '2'; }
    assert WithCountryCode(c) == c;
  }

  /** A non-digit character anywhere in the input changes nothing. */
  lemma NonDigitIgnored(a: string, x: char, b: string)
    requires !IsDigit(x)
    ensures DigitsOnly(a + [x] + b) == DigitsOnly(a + b)
    ensures FormatPhoneNumber(a + [x] + b).Success? == FormatPhoneNumber(a + b).Success?
    ensures FormatPhoneNumber(a + b).Success? ==>
              FormatPhoneNumber(a + [x] + b).value == FormatPhoneNumber(a + b).value
  {
    DigitsOnlyAppend(a + [x], b);
    DigitsOnlyAppend(a, [x]);
    DigitsOnlyAppend(a, b);
    assert DigitsOnly([x]) == [];
    assert DigitsOnly(a) + [] == DigitsOnly(a);
  }

  /** The examples of the function's documentation: a leading 0, a leading
      234 and a leading +234 all give the same normalised number. */
  lemma DocumentedExampleLeadingZero(phone: string)
    requires phone == "08012345678"
    ensures FormatPhoneNumber(phone) == Success("+2348012345678")
  {
    assert "+234" + "8012345678" == "+2348012345678";
    assert DigitsOnly(phone) == phone by {
      assert AllDigits(phone);
      DigitsOnlyOfDigits(phone);
    }
    assert Normalisable(phone) && NationalNumber(phone) == "8012345678" by {
      assert phone[1..] == "8012345678";
    }
    FormatCharacterised(phone);
  }

  lemma DocumentedExampleCountryCode(phone: string)
    requires phone == "2348012345678"
    ensures FormatPhoneNumber(phone) == Success("+2348012345678")
  {
    assert "+234" + "8012345678" == "+2348012345678";
    assert DigitsOnly(phone) == phone by {
      assert AllDigits(phone);
      DigitsOnlyOfDigits(phone);
    }
    assert Normalisable(phone) && NationalNumber(phone) == "8012345678" by {
      assert phone[3..] == "8012345678";
      assert phone[..3] == CountryCode;
    }
    FormatCharacterised(phone);
  }

  lemma DocumentedExamplePlus(phone: string)
    requires phone == "+2348012345678"
    ensures FormatPhoneNumber(phone) == Success("+2348012345678")
  {
    var d := phone[1..];
    assert d == "2348012345678" && phone == "+" + d;
    DocumentedExampleCountryCode(d);
    FormatIdempotent(d);
  }

  /** A ten-digit number that happens to start with 234 gets no prefix and is
      rejected. */
  lemma TenDigitsStartingWith234Rejected(phone: string)
    requires |DigitsOnly(phone)| == 10 && StartsWith(DigitsOnly(phone), CountryCode)
    ensures FormatPhoneNumber(phone) == Failure(InvalidPhoneFormat(phone))
  {
    FormatCharacterised(phone);
  }

  // ------------------------------------------------------ isValidNigerianPhone

  /** `/^\+234[7-9][0-1]\d{8}$/.test(s)` */
  predicate MatchesNigerianMobile(s: string)
  {
    |s| == 14 && s[..4] == "+234" && '7' <= s[4] <= '9' && '0' <= s[5] <= '1' && AllDigits(s[6..])
  }

  /** isValidNigerianPhone: a formatting failure is caught and reads false;
      a valid number formats to "+234" and a mobile national number. */
  function IsValidNigerianPhone(phone: string): (valid: bool)
    ensures valid ==> FormatPhoneNumber(phone).Success?
                      && FormatPhoneNumber(phone).value[..4] == "+234"
                      && MobileNationalNumber(FormatPhoneNumber(phone).value[4..])
  {
    match FormatPhoneNumber(phone)
    case Failure(_) => false
    case Success(formatted) =>
      var n := formatted[4..];
      assert MatchesNigerianMobile(formatted) ==> n[2..] == formatted[6..] && IsDigit(n[0]) && IsDigit(n[1]);
      MatchesNigerianMobile(formatted)
  }

  /** A mobile national number: 7, 8 or 9, then 0 or 1, then eight digits. */
  predicate MobileNationalNumber(n: string)
  {
    |n| == 10 && '7' <= n[0] <= '9' && '0' <= n[1] <= '1' && AllDigits(n)
  }

  /** Validity read off the input's digits alone: the digits are a mobile
      national number, optionally preceded by 0 or by 234. */
  lemma IsValidCharacterised(phone: string)
    ensures var d := DigitsOnly(phone);
            IsValidNigerianPhone(phone) <==>
              || (|d| == 11 && d[0] == '0' && MobileNationalNumber(d[1..]))
              || (|d| == 13 && StartsWith(d, CountryCode) && MobileNationalNumber(d[3..]))
              || MobileNationalNumber(d)
  {
    var d := DigitsOnly(phone);
    FormatCharacterised(phone);
    if MobileNationalNumber(d) {
      assert d[..3][0] == d[0];
      assert Normalisable(d);
    }
    if Normalisable(d) {
      var n := NationalNumber(d);
      var f := "+234" + n;
      assert f[..4] == "+234" && f[4] == n[0] && f[5] == n[1] && f[6..] == n[2..];
      assert MatchesNigerianMobile(f) <==> MobileNationalNumber(n);
    }
  }
}
