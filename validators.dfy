/** The per-field validator `validateField`, one rule per field of the form. */
module Validators {
  import opened Wrappers
  import opened FormTypes

  const InvalidEmail := "Invalid email address"
  const PasswordTooShort := "Password must be at least 8 characters"
  const PasswordHasEmailPart := "Password should not contain parts of your email"
  const PasswordsDiffer := "Passwords do not match"
  const TermsNotAccepted := "You must accept the terms"
  const MinPasswordLength := 8

  /** The validator's `value: string | boolean`. */
  datatype FieldValue = Text(s: string) | Flag(b: bool)

  /** `sub` occurs in `s` starting at index `i`. */
  ghost predicate OccursAt(s: string, sub: string, i: int) {
    0 <= i && i + |sub| <= |s| && s[i..i + |sub|] == sub
  }

  /** `s.includes(sub)`, as a left-to-right scan. */
  function Includes(s: string, sub: string): (r: bool)
    ensures r <==> exists i :: OccursAt(s, sub, i)
    decreases |s|
  {
    if sub <= s then
      assert OccursAt(s, sub, 0);
      true
    else if |s| == 0 then
      false
    else
      var r := Includes(s[1..], sub);
      IncludesShift(s, sub, r);
      r
  }

  lemma IncludesShift(s: string, sub: string, rest: bool)
    requires |s| > 0 && !(sub <= s)
    requires rest <==> exists i :: OccursAt(s[1..], sub, i)
    ensures rest <==> exists i :: OccursAt(s, sub, i)
  {
    if rest {
      var i :| OccursAt(s[1..], sub, i);
      assert s[i + 1..i + 1 + |sub|] == s[1..][i..i + |sub|];
      assert OccursAt(s, sub, i + 1);
    }
    if exists i :: OccursAt(s, sub, i) {
      var i :| OccursAt(s, sub, i);
      assert i != 0;
      assert s[1..][i - 1..i - 1 + |sub|] == s[i..i + |sub|];
      assert OccursAt(s[1..], sub, i - 1);
    }
  }

  /** A one-character string occurs in `s` iff the character does. */
  lemma IncludesChar(s: string, c: char)
    ensures Includes(s, [c]) <==> c in s
  {
    if c in s {
      var i :| 0 <= i < |s| && s[i] == c;
      assert s[i..i + 1] == [c];
      assert OccursAt(s, [c], i);
    }
    if exists i :: OccursAt(s, [c], i) {
      var i :| OccursAt(s, [c], i);
      assert s[i] == s[i..i + 1][0];
    }
  }

  /** `email.split('@')[0]`: the text before the first '@', or all of it. */
  function EmailPart(email: string): (r: string)
    ensures '@' !in r && r <= email
    ensures |r| < |email| ==> email[|r|] == '@'
    decreases |email|
  {
    if |email| == 0 || email[0] == '@' then ""
    else [email[0]] + EmailPart(email[1..])
  }

  /** `toLowerCase`, on the ASCII letters only. */
  function LowerChar(c: char): char {
    if 'A' <= c <= 'Z' then (c as int + 32) as char else c
  }

  function ToLower(s: string): (r: string)
    ensures |r| == |s| && forall i :: 0 <= i < |s| ==> r[i] == LowerChar(s[i])
  {
    seq(|s|, i requires 0 <= i < |s| => LowerChar(s[i]))
  }

  /** `value.toLowerCase().includes(emailPart.toLowerCase())`, with emailPart non-empty. */
  predicate ContainsEmailPart(password: string, email: string) {
    var part := EmailPart(email);
    part != "" && Includes(ToLower(password), ToLower(part))
  }

  /**
   * `validateField(name, value, form)`: an error record with at most the
   * validated key, set only when that field's rule fails.
   */
  function ValidateField(name: Field, value: FieldValue, form: FormState): (r: FormErrors)
    ensures r.Keys <= {name}
    ensures forall k :: k in r ==> r[k].Some?
    ensures name == Email ==>
      (Email in r <==> value.Text? && '@' !in value.s)
    ensures name == Password && value.Text? && |value.s| < 8 ==>
      r == map[Password := Some(PasswordTooShort)]
    ensures name == Password && value.Text? && |value.s| >= 8 ==>
      (Password in r <==>
        EmailPart(form.email) != "" &&
        exists i :: OccursAt(ToLower(value.s), ToLower(EmailPart(form.email)), i))
    ensures name == Password && value.Flag? ==> r == map[]
    ensures name == ConfirmPassword ==>
      (ConfirmPassword in r <==> !(value.Text? && value.s == form.password))
    ensures name == AcceptTerms ==>
      (AcceptTerms in r <==> value != Flag(true))
  {
    match name
    case Email =>
      (match value
       case Text(s) =>
         IncludesChar(s, '@');
         if !Includes(s, "@") then map[Email := Some(InvalidEmail)] else map[]
       case Flag(_) => map[])
    case Password =>
      if value.Text? then
        if |value.s| < MinPasswordLength then map[Password := Some(PasswordTooShort)]
        else if ContainsEmailPart(value.s, form.email) then map[Password := Some(PasswordHasEmailPart)]
        else map[]
      else map[]
    case ConfirmPassword =>
      if value != Text(form.password) then map[ConfirmPassword := Some(PasswordsDiffer)] else map[]
    case AcceptTerms =>
      if value != Flag(true) then map[AcceptTerms := Some(TermsNotAccepted)] else map[]
  }

  /** The message each rule produces. */
  lemma ValidationMessages(name: Field, value: FieldValue, form: FormState)
    ensures name == Email && Email in ValidateField(name, value, form) ==>
      ValidateField(name, value, form)[Email] == Some("Invalid email address")
    ensures name == Password && Password in ValidateField(name, value, form) && value.Text? ==>
      ValidateField(name, value, form)[Password] ==
        Some(if |value.s| < 8 then "Password must be at least 8 characters"
             else "Password should not contain parts of your email")
    ensures name == ConfirmPassword && ConfirmPassword in ValidateField(name, value, form) ==>
      ValidateField(name, value, form)[ConfirmPassword] == Some("Passwords do not match")
    ensures name == AcceptTerms && AcceptTerms in ValidateField(name, value, form) ==>
      ValidateField(name, value, form)[AcceptTerms] == Some("You must accept the terms")
  {
  }

  lemma ToLowerIdempotent(s: string)
    ensures ToLower(ToLower(s)) == ToLower(s)
  {
  }

  /** The password rule ignores ASCII case: lowering the password changes no verdict. */
  lemma PasswordRuleIgnoresCase(password: string, form: FormState)
    ensures ValidateField(Password, Text(ToLower(password)), form) == ValidateField(Password, Text(password), form)
  {
    ToLowerIdempotent(password);
  }

  /** An email without '@' makes the whole email its own part. */
  lemma NoAtSignWholeEmailIsPart(email: string)
    requires '@' !in email
    ensures EmailPart(email) == email
  {
  }
}
