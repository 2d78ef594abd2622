/** The field rules shared by the forms, in the form-validation library's
    terms. The form library hands the empty string to the schema as a missing
    value, so an optional rule accepts "" and a required rule rejects it.
    Lengths are counted in characters. */
module Rules {
  import opened Text

  /** The library's e-mail and URL shape checks, not interpreted here. */
  datatype Checks = Checks(isEmail: string -> bool, isUrl: string -> bool)

  /** `.string().min(lo).max(hi)` without `.required()`. */
  predicate OptionalLength(s: string, lo: nat, hi: nat)
  {
    s == "" || lo <= |s| <= hi
  }

  /** `.string().min(lo).max(hi).required()`. */
  predicate RequiredLength(s: string, lo: nat, hi: nat)
  {
    s != "" && lo <= |s| <= hi
  }

  /** `.string().required()`. */
  predicate Required(s: string)
  {
    s != ""
  }

  /** `.string().email().required()`. */
  predicate RequiredEmail(k: Checks, s: string)
  {
    s != "" && k.isEmail(s)
  }

  /** Line terminators, the characters `.` does not match. */
  predicate IsLineTerminator(c: char)
  {
    c == '\n' || c == '\r' || c == '\U{2028}' || c == '\U{2029}'
  }

  /** The class `[!@#$%^&*-]`; the final `-` is literal. */
  predicate IsPasswordSymbol(c: char)
  {
    c in "!@#$%^&*-"
  }

  /** `/^05\d{8}$/`: "05" followed by exactly eight ASCII digits. */
  ghost predicate PhonePattern(s: string)
  {
    && |s| == 10
    && s[0] == '0' && s[1] == '5'
    && forall i :: 2 <= i < 10 ==> IsAsciiDigit(s[i])
  }

  /** `/^(?=.*[a-z])(?=.*[A-Z])(?=.*\d)(?=.*[!@#$%^&*-]).{9,}$/`: at least nine
      characters, none a line terminator, with a lower-case letter, an
      upper-case letter, a digit and a symbol somewhere. */
  ghost predicate PasswordPattern(s: string)
  {
    && |s| >= 9
    && (forall i :: 0 <= i < |s| ==> !IsLineTerminator(s[i]))
    && (exists i :: 0 <= i < |s| && IsAsciiLower(s[i]))
    && (exists i :: 0 <= i < |s| && IsAsciiUpper(s[i]))
    && (exists i :: 0 <= i < |s| && IsAsciiDigit(s[i]))
    && (exists i :: 0 <= i < |s| && IsPasswordSymbol(s[i]))
  }

  /** The executable counterpart of `PhoneField`: matches the phone pattern
      in one left-to-right pass. The forms use the declarative field; this
      method exists to show a one-pass matcher agrees with it. */
  method MatchPhone(s: string) returns (ok: bool)
    ensures ok <==> PhonePattern(s)
  {
    if |s| != 10 || s[0] != '0' || s[1] != '5' {
      return false;
    }
    var i := 2;
    while i < 10
      invariant 2 <= i <= 10
      invariant forall j :: 2 <= j < i ==> IsAsciiDigit(s[j])
    {
      if !IsAsciiDigit(s[i]) {
        return false;
      }
      i := i + 1;
    }
    return true;
  }

  /** The executable counterpart of `PasswordField`: matches the password
      pattern in one pass, recording which of the four character classes
      have been seen. The forms use the declarative field. */
  method MatchPassword(s: string) returns (ok: bool)
    ensures ok <==> PasswordPattern(s)
  {
    var lower, upper, digit, symbol := false, false, false, false;
    var i := 0;
    while i < |s|
      invariant 0 <= i <= |s|
      invariant forall j :: 0 <= j < i ==> !IsLineTerminator(s[j])
      invariant lower <==> exists j :: 0 <= j < i && IsAsciiLower(s[j])
      invariant upper <==> exists j :: 0 <= j < i && IsAsciiUpper(s[j])
      invariant digit <==> exists j :: 0 <= j < i && IsAsciiDigit(s[j])
      invariant symbol <==> exists j :: 0 <= j < i && IsPasswordSymbol(s[j])
    {
      var c := s[i];
      if IsLineTerminator(c) {
        return false;
      }
      lower := lower || IsAsciiLower(c);
      upper := upper || IsAsciiUpper(c);
      digit := digit || IsAsciiDigit(c);
      symbol := symbol || IsPasswordSymbol(c);
      i := i + 1;
    }
    ok := |s| >= 9 && lower && upper && digit && symbol;
  }

  /** `.matches(phone).required()`. */
  ghost predicate PhoneField(s: string)
  {
    s != "" && PhonePattern(s)
  }

  /** `.min(9).matches(password).required()`; the pattern already asks for
      nine characters, so `min(9)` adds nothing. */
  ghost predicate PasswordField(s: string)
  {
    s != "" && |s| >= 9 && PasswordPattern(s)
  }

  lemma PhoneFieldIsPattern(s: string)
    ensures PhoneField(s) <==> PhonePattern(s)
  {
  }

  lemma PasswordFieldIsPattern(s: string)
    ensures PasswordField(s) <==> PasswordPattern(s)
  {
  }

  /** The submit gate shared by every form: enabled iff the values differ
      from the initial values and the schema accepts them. */
  predicate SubmitEnabled<F(==)>(values: F, initial: F, valid: bool)
  {
    values != initial && valid
  }

  /** Sample inputs: a valid phone and password, and near misses. */
  lemma PatternExamples()
    ensures PhonePattern("0521234567")
    ensures !PhonePattern("0721234567") && !PhonePattern("052123456")
    ensures PasswordPattern("Abcdefg1!")
    ensures !PasswordPattern("abcdefg1!") && !PasswordPattern("Abcdef1!")
  {
    var p := "Abcdefg1!";
    assert IsAsciiUpper(p[0]) && IsAsciiLower(p[1]) && IsAsciiDigit(p[7]) && IsPasswordSymbol(p[8]);
    assert !PhonePattern("0721234567") by { assert "0721234567"[1] == '7'; }
    var q := "abcdefg1!";
    assert forall i :: 0 <= i < |q| ==> !IsAsciiUpper(q[i]);
  }
}
