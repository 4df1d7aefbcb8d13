/**
 The password policy of the change-password form (change-password.js): five
 independent checks on a string, evaluated live on the untrimmed input, and the
 ordered gate that the submit handler runs on the trimmed inputs before it
 contacts the identity provider.
 */
module PasswordPolicy {
  import opened Wrappers
  import opened JsStrings

  /** Minimum password length, in UTF-16 code units. */
  const MinLength: nat := 8

  /** The members of the class `[!@#$%^&*()_+\-=[\]{};':"\\|,.<>/?]`. */
  const SpecialCharacters: set<char> := {
    '!', '@', '#', '$', '%', '^', '&', '*', '(', ')', '_', '+', '-', '=', '[', ']',
    '{', '}', ';', '\'', ':', '"', '\\', '|', ',', '.', '<', '>', '/', '?'
  }

  /** The four regular-expression character classes the policy tests for. */
  datatype CharClass = Uppercase | Lowercase | Digit | Special

  predicate InClass(cls: CharClass, c: char) {
    match cls
    case Uppercase => 'A' <= c <= 'Z'
    case Lowercase => 'a' <= c <= 'z'
    case Digit => '0' <= c <= '9'
    case Special => c in SpecialCharacters
  }

  /** `/[...]/.test(s)` for a one-class pattern: scans `s` from the left,
      stopping at the first character in the class. */
  function Test(cls: CharClass, s: string): bool {
    if s == [] then false
    else if InClass(cls, s[0]) then true
    else Test(cls, s[1..])
  }

  /** The scan succeeds exactly when some character of `s` is in the class. */
  lemma {:induction false} TestMeaning(cls: CharClass, s: string)
    ensures Test(cls, s) <==> exists i | 0 <= i < |s| :: InClass(cls, s[i])
  {
    if s != [] && !InClass(cls, s[0]) {
      TestMeaning(cls, s[1..]);
      assert forall i | 1 <= i < |s| :: s[i] == s[1..][i - 1];
    }
  }

  /** The scan finds a class member at any position that holds one. */
  lemma TestFinds(cls: CharClass, s: string, i: nat)
    requires i < |s| && InClass(cls, s[i])
    ensures Test(cls, s)
  {
    TestMeaning(cls, s);
  }

  /** The scan fails on a string none of whose characters is in the class. */
  lemma TestMisses(cls: CharClass, s: string)
    requires forall i | 0 <= i < |s| :: !InClass(cls, s[i])
    ensures !Test(cls, s)
  {
    TestMeaning(cls, s);
  }

  /** The five requirement flags shown beside the password field. */
  datatype PolicyResult = PolicyResult(length: bool, uppercase: bool, lowercase: bool, number: bool, special: bool)
  {
    predicate AllMet() {
      length && uppercase && lowercase && number && special
    }
  }

  /** Evaluates the five requirements on `s` as written, each independently of the others. */
  function Evaluate(s: string): PolicyResult {
    PolicyResult(
      Utf16Length(s) >= MinLength,
      Test(Uppercase, s),
      Test(Lowercase, s),
      Test(Digit, s),
      Test(Special, s))
  }

  /** What each flag means: the length flag holds exactly when `s` has at
      least eight UTF-16 code units, and each class flag exactly when some
      character of `s` lies in that class. */
  lemma EvaluateMeaning(s: string)
    ensures Evaluate(s).length <==> Utf16Length(s) >= MinLength
    ensures Evaluate(s).uppercase <==> exists i | 0 <= i < |s| :: 'A' <= s[i] <= 'Z'
    ensures Evaluate(s).lowercase <==> exists i | 0 <= i < |s| :: 'a' <= s[i] <= 'z'
    ensures Evaluate(s).number <==> exists i | 0 <= i < |s| :: '0' <= s[i] <= '9'
    ensures Evaluate(s).special <==> exists i | 0 <= i < |s| :: s[i] in SpecialCharacters
  {
    TestMeaning(Uppercase, s);
    TestMeaning(Lowercase, s);
    TestMeaning(Digit, s);
    TestMeaning(Special, s);
  }

  /** Backtick, tilde and space are not special characters; nor is any letter or digit. */
  lemma NotSpecial(c: char)
    requires c == '`' || c == '~' || c == ' ' || InClass(Uppercase, c) || InClass(Lowercase, c) || InClass(Digit, c)
    ensures !InClass(Special, c)
  {
  }

  /** No character that the policy looks for is one that `trim` strips. */
  lemma ClassNotTrimmable(cls: CharClass, c: char)
    requires InClass(cls, c)
    ensures !IsTrimmable(c)
  {
  }

  /** Trimming changes none of the four character-class results: of the five
      requirements, only the length one can differ between the live check on
      the raw value and the submit check on the trimmed value. */
  lemma TrimPreservesClasses(s: string)
    ensures Evaluate(Trim(s)).uppercase == Evaluate(s).uppercase
    ensures Evaluate(Trim(s)).lowercase == Evaluate(s).lowercase
    ensures Evaluate(Trim(s)).number == Evaluate(s).number
    ensures Evaluate(Trim(s)).special == Evaluate(s).special
  {
    forall cls: CharClass ensures Test(cls, Trim(s)) == Test(cls, s) {
      TrimPreservesClass(cls, s);
    }
  }

  /** Trimming does not change whether a string holds a member of `cls`. */
  lemma TrimPreservesClass(cls: CharClass, s: string)
    ensures Test(cls, Trim(s)) == Test(cls, s)
  {
    var t := Trim(s);
    TestMeaning(cls, s);
    TestMeaning(cls, t);
    if Test(cls, s) {
      var i :| 0 <= i < |s| && InClass(cls, s[i]);
      ClassNotTrimmable(cls, s[i]);
      TrimKeeps(s, s[i]);
    }
    if Test(cls, t) {
      var i :| 0 <= i < |t| && InClass(cls, t[i]);
      ClassNotTrimmable(cls, t[i]);
      TrimKeeps(s, t[i]);
    }
  }

  // Messages the submit handler shows, in the order it checks for them.
  const FillInMessage := "Please fill in all fields."
  const LengthMessage := "Password must be at least 8 characters."
  const UppercaseMessage := "Password must contain at least one uppercase letter."
  const LowercaseMessage := "Password must contain at least one lowercase letter."
  const NumberMessage := "Password must contain at least one number."
  const SpecialMessage := "Password must contain at least one special character."
  const MismatchMessage := "New passwords do not match."

  /** The submit checks, named after what each one requires. */
  datatype Rule = Filled | Length | HasUppercase | HasLowercase | HasNumber | HasSpecial | Matches

  /** The message shown when `rule` is the first check that fails. */
  function Message(rule: Rule): string {
    match rule
    case Filled => FillInMessage
    case Length => LengthMessage
    case HasUppercase => UppercaseMessage
    case HasLowercase => LowercaseMessage
    case HasNumber => NumberMessage
    case HasSpecial => SpecialMessage
    case Matches => MismatchMessage
  }

  /** Different checks report different messages, so a message identifies the check. */
  lemma MessagesDistinct(r1: Rule, r2: Rule)
    requires r1 != r2
    ensures Message(r1) != Message(r2)
  {
  }

  /** The submit handler's validation chain on the already trimmed new and
      confirmation values: the check that fails first, or None when the
      password may be sent. It is None exactly when both values are equal and
      the new password meets all five requirements. */
  function Validate(newPass: string, confirmPass: string): (failed: Option<Rule>)
    ensures failed == None <==> newPass == confirmPass && Evaluate(newPass).AllMet()
  {
    if newPass == [] || confirmPass == [] then Some(Filled)
    else if Utf16Length(newPass) < MinLength then Some(Length)
    else if !Test(Uppercase, newPass) then Some(HasUppercase)
    else if !Test(Lowercase, newPass) then Some(HasLowercase)
    else if !Test(Digit, newPass) then Some(HasNumber)
    else if !Test(Special, newPass) then Some(HasSpecial)
    else if newPass != confirmPass then Some(Matches)
    else None
  }

  /** What submitting the form reports: the message of the check that the
      trimmed field values fail first, or None when the password may be sent. */
  function SubmitError(newValue: string, confirmValue: string): (err: Option<string>)
    ensures err == None <==> Trim(newValue) == Trim(confirmValue) && Evaluate(Trim(newValue)).AllMet()
  {
    match Validate(Trim(newValue), Trim(confirmValue))
    case None => None
    case Some(rule) => Some(Message(rule))
  }

  /** The submit checks in the order the handler makes them: an independent
      statement of the precedence, against which Validate is proved. */
  const SubmitOrder: seq<Rule> := [Filled, Length, HasUppercase, HasLowercase, HasNumber, HasSpecial, Matches]

  /** Whether trimmed values `newPass` and `confirmPass` pass `rule`. */
  predicate Passes(rule: Rule, newPass: string, confirmPass: string) {
    match rule
    case Filled => newPass != [] && confirmPass != []
    case Length => Utf16Length(newPass) >= MinLength
    case HasUppercase => Test(Uppercase, newPass)
    case HasLowercase => Test(Lowercase, newPass)
    case HasNumber => Test(Digit, newPass)
    case HasSpecial => Test(Special, newPass)
    case Matches => newPass == confirmPass
  }

  /** Index of the first rule in `rules` that fails, or `|rules|` when all pass. */
  function FirstFailing(rules: seq<Rule>, newPass: string, confirmPass: string): (k: nat)
    ensures k <= |rules|
    ensures forall j | 0 <= j < k :: Passes(rules[j], newPass, confirmPass)
    ensures k < |rules| ==> !Passes(rules[k], newPass, confirmPass)
  {
    if rules == [] then 0
    else if !Passes(rules[0], newPass, confirmPass) then 0
    else
      assert forall j | 1 <= j < |rules| :: rules[j] == rules[1..][j - 1];
      1 + FirstFailing(rules[1..], newPass, confirmPass)
  }

  /** FirstFailing is determined by its contract: any index before which every
      rule passes and at which a rule fails (or the end is reached) is it. */
  lemma {:induction false} FirstFailingUnique(rules: seq<Rule>, newPass: string, confirmPass: string, k: nat)
    requires k <= |rules|
    requires forall j | 0 <= j < k :: Passes(rules[j], newPass, confirmPass)
    requires k < |rules| ==> !Passes(rules[k], newPass, confirmPass)
    ensures FirstFailing(rules, newPass, confirmPass) == k
  {
  }

  /** The validation chain reports the first rule, in the order filled,
      length, uppercase, lowercase, number, special, match, that the values
      fail; it reports nothing when they pass them all. */
  lemma ValidateIsFirstFailure(newPass: string, confirmPass: string)
    ensures var k := FirstFailing(SubmitOrder, newPass, confirmPass);
      Validate(newPass, confirmPass) == if k < |SubmitOrder| then Some(SubmitOrder[k]) else None
  {
    var n, c := newPass, confirmPass;
    var o := SubmitOrder;
    if !(n != [] && c != []) {
      FirstFailingUnique(o, n, c, 0);
    } else if Utf16Length(n) < MinLength {
      FirstFailingUnique(o, n, c, 1);
    } else if !Test(Uppercase, n) {
      FirstFailingUnique(o, n, c, 2);
    } else if !Test(Lowercase, n) {
      FirstFailingUnique(o, n, c, 3);
    } else if !Test(Digit, n) {
      FirstFailingUnique(o, n, c, 4);
    } else if !Test(Special, n) {
      FirstFailingUnique(o, n, c, 5);
    } else if n != c {
      FirstFailingUnique(o, n, c, 6);
    } else {
      FirstFailingUnique(o, n, c, 7);
    }
  }

  /** Submitting reports the message of the first rule that the trimmed values
      fail, in the fixed order, and nothing when they pass them all. */
  lemma SubmitErrorIsFirstFailure(newValue: string, confirmValue: string)
    ensures var k := FirstFailing(SubmitOrder, Trim(newValue), Trim(confirmValue));
      SubmitError(newValue, confirmValue) == if k < |SubmitOrder| then Some(Message(SubmitOrder[k])) else None
  {
    ValidateIsFirstFailure(Trim(newValue), Trim(confirmValue));
  }

  /** A mismatch is the first failure exactly when the confirmation is
      non-empty, the new password meets all five requirements and the two
      trimmed values differ. Since messages identify their checks, this is
      also when the mismatch message is shown. */
  lemma MismatchOnlyAfterPolicy(newValue: string, confirmValue: string)
    ensures Validate(Trim(newValue), Trim(confirmValue)) == Some(Matches)
        <==> Trim(confirmValue) != [] && Evaluate(Trim(newValue)).AllMet() && Trim(newValue) != Trim(confirmValue)
  {
    var n := Trim(newValue);
    if Evaluate(n).AllMet() {
      assert n != [];
    }
  }

  /** When the live length indicator shows the raw value too short, submit is
      refused before any character-class check: the first failure is the
      fill-in check or the length check. */
  lemma ShortRawValueIsRefusedEarly(newValue: string, confirmValue: string)
    requires Utf16Length(newValue) < MinLength
    ensures Validate(Trim(newValue), Trim(confirmValue)) == Some(Filled)
         || Validate(Trim(newValue), Trim(confirmValue)) == Some(Length)
  {
    TrimShortens(newValue);
  }

  /** Whatever the submit gate accepts, the live indicators showed as met on
      the raw value: trimming can only shorten the password and never changes
      a character-class result. */
  lemma AcceptedImpliesLiveMet(newValue: string, confirmValue: string)
    requires SubmitError(newValue, confirmValue) == None
    ensures Evaluate(newValue).AllMet()
  {
    TrimShortens(newValue);
    TrimPreservesClasses(newValue);
  }

  /** A value can show every live indicator as met and still be refused on
      submit: the live checks see the raw value, submit sees it trimmed. */
  lemma LiveAndSubmitDiffer(raw: string)
    requires raw == " Abc123!"
    ensures Evaluate(raw).AllMet()
    ensures SubmitError(raw, raw) == Some(LengthMessage)
  {
    PaddedPasswordFlags(raw);
    PaddedPasswordTrimmed(raw);
    ShortPasswordRefused(raw, raw);
  }

  /** " Abc123!" meets every requirement as typed. */
  lemma PaddedPasswordFlags(raw: string)
    requires raw == " Abc123!"
    ensures Evaluate(raw).AllMet()
  {
    BmpLength(raw);
    TestFinds(Uppercase, raw, 1);
    TestFinds(Lowercase, raw, 2);
    TestFinds(Digit, raw, 4);
    TestFinds(Special, raw, 7);
  }

  /** Trimming " Abc123!" drops its leading space and leaves seven code units. */
  lemma PaddedPasswordTrimmed(raw: string)
    requires raw == " Abc123!"
    ensures Trim(raw) == raw[1..]
    ensures Utf16Length(Trim(raw)) < MinLength
  {
    TrimDropsLeading(raw);
    Abc123IsUnpaddedAndShort(raw[1..]);
  }

  /** "Abc123!" is its own trim and is seven code units long. */
  lemma Abc123IsUnpaddedAndShort(t: string)
    requires t == "Abc123!"
    ensures Trim(t) == t && Utf16Length(t) < MinLength
  {
    TrimOfUnpadded(t);
    BmpLength(t);
  }

  /** A password with no surrounding white space that meets all five
      requirements passes the gate when the confirmation repeats it. */
  lemma ConfirmedStrongPasswordAccepted(password: string)
    requires Trim(password) == password && Evaluate(password).AllMet()
    ensures SubmitError(password, password) == None
  {
  }

  /** "Abc12345!" meets every requirement. */
  lemma StrongPasswordMeetsPolicy(s: string)
    requires s == "Abc12345!"
    ensures Evaluate(s).AllMet()
  {
    BmpLength(s);
    TestFinds(Uppercase, s, 0);
    TestFinds(Lowercase, s, 1);
    TestFinds(Digit, s, 3);
    TestFinds(Special, s, 8);
  }

  /** "Abc12345!", confirmed, passes the gate, so submit goes on to the provider. */
  lemma StrongPasswordAccepted(s: string)
    requires s == "Abc12345!"
    ensures SubmitError(s, s) == None
  {
    StrongPasswordMeetsPolicy(s);
    TrimOfUnpadded(s);
    ConfirmedStrongPasswordAccepted(s);
  }

  /** A filled-in submission whose trimmed new password is under eight code
      units long is refused with the length message, whatever else it lacks. */
  lemma ShortPasswordRefused(newValue: string, confirmValue: string)
    requires Trim(newValue) != [] && Trim(confirmValue) != []
    requires Utf16Length(Trim(newValue)) < MinLength
    ensures SubmitError(newValue, confirmValue) == Some(LengthMessage)
  {
  }

  /** "abc" fails the length, uppercase, number and special requirements. */
  lemma WeakPasswordFlags(s: string)
    requires s == "abc"
    ensures Evaluate(s) == PolicyResult(false, false, true, false, false)
  {
    BmpLength(s);
    TestFinds(Lowercase, s, 0);
    assert forall i | 0 <= i < |s| :: InClass(Lowercase, s[i]);
    TestMisses(Uppercase, s);
    TestMisses(Digit, s);
    NotSpecial(s[0]);
    NotSpecial(s[1]);
    NotSpecial(s[2]);
    TestMisses(Special, s);
  }

  /** "abc" is refused with the length message whatever the confirmation
      holds, unless that is blank. */
  lemma WeakPasswordRefused(s: string, confirmValue: string)
    requires s == "abc" && Trim(confirmValue) != []
    ensures SubmitError(s, confirmValue) == Some(LengthMessage)
  {
    AbcIsUnpaddedAndShort(s);
    ShortPasswordRefused(s, confirmValue);
  }

  /** "abc" is its own trim and is three code units long. */
  lemma AbcIsUnpaddedAndShort(t: string)
    requires t == "abc"
    ensures Trim(t) == t && t != [] && Utf16Length(t) < MinLength
  {
    TrimOfUnpadded(t);
    BmpLength(t);
  }

  /** A string of characters from the Basic Multilingual Plane has a code-unit
      length equal to its number of characters. */
  lemma BmpLength(s: string)
    requires forall i | 0 <= i < |s| :: s[i] as int < 0x1_0000
    ensures Utf16Length(s) == |s|
  {
    Utf16LengthIsCount(s);
  }
}
