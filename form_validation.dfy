/** The contact-form checks of `FormValidator`: a phone number needs at least
    eleven digits, an e-mail address must match `^[^\s@]+@[^\s@]+\.[^\s@]+$`,
    each check publishes its verdict through the control's custom-validity
    message, and a form that reports itself invalid is not submitted. */
module FormValidation {
  import opened Common
  import opened JsText

  // ---------------------------------------------------------------------
  // Phone numbers

  /** `value.replace(/\D/g, '')`: keeps the decimal digits, in order. */
  function StripNonDigits(s: string): (d: string)
    ensures |d| <= |s|
    ensures forall i :: 0 <= i < |d| ==> IsDigit(d[i])
  {
    if s == [] then []
    else (if IsDigit(s[0]) then [s[0]] else []) + StripNonDigits(s[1..])
  }

  /** The phone check: valid unless fewer than 11 digits remain after
      stripping. */
  predicate PhoneValid(value: string) {
    |StripNonDigits(value)| >= 11
  }

  /** Stripping works piece by piece. */
  lemma {:induction false} StripConcat(a: string, b: string)
    ensures StripNonDigits(a + b) == StripNonDigits(a) + StripNonDigits(b)
  {
    if a == [] {
      assert a + b == b;
    } else {
      var head := if IsDigit(a[0]) then [a[0]] else [];
      assert (a + b)[0] == a[0] && (a + b)[1..] == a[1..] + b;
      StripConcat(a[1..], b);
      calc {
        StripNonDigits(a + b);
        head + StripNonDigits(a[1..] + b);
        head + (StripNonDigits(a[1..]) + StripNonDigits(b));
        (head + StripNonDigits(a[1..])) + StripNonDigits(b);
        StripNonDigits(a) + StripNonDigits(b);
      }
    }
  }

  /** The positions of `s` that hold a decimal digit. */
  ghost function DigitPositions(s: string): set<int> {
    set i | 0 <= i < |s| && IsDigit(s[i])
  }

  /** The stripped text has one character per digit of the input, so the
      phone check counts digits and nothing else. */
  lemma {:induction false} StripCountsDigits(s: string)
    ensures |StripNonDigits(s)| == |DigitPositions(s)|
  {
    if s != [] {
      var p, c := s[..|s| - 1], s[|s| - 1];
      assert s == p + [c];
      StripConcat(p, [c]);
      StripCountsDigits(p);
      assert DigitPositions(s) == DigitPositions(p) + (if IsDigit(c) then {|p|} else {});
    }
  }

  /** Valid exactly when the value holds at least 11 decimal digits. */
  lemma PhoneValidIffElevenDigits(value: string)
    ensures PhoneValid(value) <==> |DigitPositions(value)| >= 11
  {
    StripCountsDigits(value);
  }

  /** Spaces, dashes, brackets or a leading `+` neither make nor break a phone
      number: inserting one non-digit character anywhere keeps the verdict. */
  lemma NonDigitInsertionKeepsPhoneValidity(a: string, c: char, b: string)
    requires !IsDigit(c)
    ensures PhoneValid(a + [c] + b) == PhoneValid(a + b)
  {
    StripConcat(a + [c], b);
    StripConcat(a, [c]);
    StripConcat(a, b);
    assert StripNonDigits([c]) == [];
  }

  lemma EmptyPhoneInvalid()
    ensures !PhoneValid("")
  {
  }

  /** A string of digits strips to itself. */
  lemma {:induction false} StripDigitsOnly(s: string)
    requires forall i :: 0 <= i < |s| ==> IsDigit(s[i])
    ensures StripNonDigits(s) == s
  {
    if s != [] {
      StripDigitsOnly(s[1..]);
    }
  }

  /** An eleven-digit Nigerian mobile number passes, also when written with a
      space. */
  lemma PhoneExamples()
    ensures PhoneValid("08031234567")
    ensures PhoneValid("0803 1234567")
  {
  }

  /** Ten digits are one too few. */
  lemma ShortPhoneExample()
    ensures !PhoneValid("0803123456")
  {
  }

  const PhoneMessage := "Please enter a valid Nigerian phone number"

  /** The custom-validity message the phone listener sets: empty exactly when
      the number is valid. */
  function PhoneValidityMessage(value: string): (m: string)
    ensures m == "" <==> PhoneValid(value)
    ensures m != "" ==> m == PhoneMessage
  {
    if |StripNonDigits(value)| < 11 then PhoneMessage else ""
  }

  // ---------------------------------------------------------------------
  // E-mail addresses

  /** One `[^\s@]+` piece of the pattern. */
  predicate IsEmailPart(p: string) {
    |p| > 0 && forall i :: 0 <= i < |p| ==> !IsSpace(p[i]) && p[i] != '@'
  }

  /** What `/^[^\s@]+@[^\s@]+\.[^\s@]+$/.test(s)` means: `s` splits as
      part `@` part `.` part. */
  ghost predicate MatchesEmailPattern(s: string) {
    exists i, j ::
      && 0 <= i < j < |s| && s[i] == '@' && s[j] == '.'
      && IsEmailPart(s[..i]) && IsEmailPart(s[i + 1..j]) && IsEmailPart(s[j + 1..])
  }

  /** Index of the first occurrence of `c`. */
  function IndexOf(s: string, c: char): (k: nat)
    requires c in s
    ensures k < |s| && s[k] == c && c !in s[..k]
  {
    if s[0] == c then 0
    else
      assert c in s[1..] by { var m :| 0 <= m < |s| && s[m] == c; assert s[1..][m - 1] == c; }
      var k := IndexOf(s[1..], c);
      assert s[..k + 1] == [s[0]] + s[1..][..k];
      k + 1
  }

  /** The address check by its structure: no white space, exactly one `@`
      with something before it, and a `.` strictly inside the domain. */
  predicate EmailValid(s: string) {
    && (forall i :: 0 <= i < |s| ==> !IsSpace(s[i]))
    && '@' in s
    && var k := IndexOf(s, '@');
    && 0 < k
    && '@' !in s[k + 1..]
    && |s[k + 1..]| >= 3 && '.' in s[k + 1..][1..|s[k + 1..]| - 1]
  }

  /** The structural check decides exactly the regular expression. */
  lemma EmailValidIffPattern(s: string)
    ensures EmailValid(s) <==> MatchesEmailPattern(s)
  {
    if MatchesEmailPattern(s) {
      PatternImpliesValid(s);
    }
    if EmailValid(s) {
      ValidImpliesPattern(s);
    }
  }

  lemma PatternImpliesValid(s: string)
    requires MatchesEmailPattern(s)
    ensures EmailValid(s)
  {
    var i, j :| && 0 <= i < j < |s| && s[i] == '@' && s[j] == '.'
      && IsEmailPart(s[..i]) && IsEmailPart(s[i + 1..j]) && IsEmailPart(s[j + 1..]);
    SplitIsValid(s, i, j);
  }

  lemma SplitIsValid(s: string, i: nat, j: nat)
    requires 0 <= i < j < |s| && s[i] == '@' && s[j] == '.'
    requires IsEmailPart(s[..i]) && IsEmailPart(s[i + 1..j]) && IsEmailPart(s[j + 1..])
    ensures EmailValid(s)
  {
    forall m | 0 <= m < |s|
      ensures !IsSpace(s[m]) && (m != i ==> s[m] != '@')
    {
      if m < i {
        assert s[m] == s[..i][m];
      } else if i < m < j {
        assert s[m] == s[i + 1..j][m - i - 1];
      } else if j < m {
        assert s[m] == s[j + 1..][m - j - 1];
      }
    }
    var k := IndexOf(s, '@');
    assert k == i;
    var d := s[k + 1..];
    assert '@' !in d by {
      forall m | 0 <= m < |d| ensures d[m] != '@' {
        assert d[m] == s[k + 1 + m];
      }
    }
    assert d[1..|d| - 1][j - i - 2] == '.';
  }

  lemma ValidImpliesPattern(s: string)
    requires EmailValid(s)
    ensures MatchesEmailPattern(s)
  {
    var i := IndexOf(s, '@');
    var d := s[i + 1..];
    var m :| 0 <= m < |d| - 2 && d[1..|d| - 1][m] == '.';
    var j := i + 2 + m;
    assert s[j] == '.';
    assert IsEmailPart(s[..i]);
    assert s[i + 1..j] == d[..m + 1];
    assert s[j + 1..] == d[m + 2..];
    assert 0 <= i < j < |s| && s[i] == '@';
    assert IsEmailPart(s[i + 1..j]) && IsEmailPart(s[j + 1..]);
  }

  /** Whatever else holds, an address without `@`, with two of them, or with
      white space anywhere is rejected. */
  lemma EmailRejections(s: string)
    ensures '@' !in s ==> !EmailValid(s)
    ensures (exists i, j :: 0 <= i < j < |s| && s[i] == '@' && s[j] == '@') ==> !EmailValid(s)
    ensures (exists i :: 0 <= i < |s| && IsSpace(s[i])) ==> !EmailValid(s)
  {
    if EmailValid(s) {
      var k := IndexOf(s, '@');
      forall m | 0 <= m < |s| && m != k
        ensures s[m] != '@'
      {
        if m < k {
          assert s[m] == s[..k][m];
        } else {
          assert s[m] == s[k + 1..][m - k - 1];
        }
      }
    }
  }

  lemma EmailExamples()
    ensures EmailValid("a@b.ng")
    ensures !EmailValid("a@bng")
    ensures !EmailValid("@b.ng")
    ensures !EmailValid("a@.ng")
  {
    assert IndexOf("a@b.ng", '@') == 1;
    assert "a@b.ng"[2..][1..3][0] == '.';
    assert IndexOf("a@bng", '@') == 1;
    assert "a@bng"[2..][1..3] == "ng";
    assert IndexOf("@b.ng", '@') == 0;
    assert IndexOf("a@.ng", '@') == 1;
    assert "a@.ng"[2..][1..2] == "n";
  }

  const EmailMessage := "Please enter a valid email address"

  /** The custom-validity message the e-mail listener sets: empty exactly
      when the address matches the pattern. */
  function EmailValidityMessage(value: string): (m: string)
    ensures m == "" <==> MatchesEmailPattern(value)
    ensures m != "" ==> m == EmailMessage
  {
    EmailValidIffPattern(value);
    if !EmailValid(value) then EmailMessage else ""
  }

  // ---------------------------------------------------------------------
  // Submission

  /** What `form.checkValidity()` reports for the constraints set here:
      every control's custom-validity message is empty and every other
      constraint the browser checks (`nativeValid`) holds. */
  predicate FormValid(customMessages: seq<string>, nativeValid: bool) {
    nativeValid && forall i :: 0 <= i < |customMessages| ==> customMessages[i] == ""
  }

  datatype SubmitOutcome = SubmitOutcome(defaultPrevented: bool, propagationStopped: bool, classes: set<string>)

  /** The submit listener: an invalid form is stopped, and `was-validated` is
      added either way. */
  function OnSubmit(formValid: bool, classes: set<string>): (o: SubmitOutcome)
    ensures o.defaultPrevented <==> !formValid
    ensures o.propagationStopped <==> !formValid
    ensures "was-validated" in o.classes && classes <= o.classes
    ensures o.classes - classes <= {"was-validated"}
  {
    SubmitOutcome(!formValid, !formValid, classes + {"was-validated"})
  }

  /** Once each field's input listener has run on its current value, a phone
      number with too few digits blocks the submission of the form that holds
      it, and so does a malformed e-mail address. A control nobody has typed
      into keeps the browser's empty custom-validity message. */
  lemma BadContactBlocksSubmit(phone: string, email: string, others: seq<string>, nativeValid: bool, classes: set<string>)
    requires !PhoneValid(phone) || !MatchesEmailPattern(email)
    ensures OnSubmit(FormValid([PhoneValidityMessage(phone), EmailValidityMessage(email)] + others, nativeValid), classes).defaultPrevented
  {
    var ms := [PhoneValidityMessage(phone), EmailValidityMessage(email)] + others;
    if !PhoneValid(phone) {
      assert ms[0] != "";
    } else {
      assert ms[1] != "";
    }
  }
}
