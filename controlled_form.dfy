/**
 * The controlled form: its state, the change handler that updates one
 * field and re-validates it against the updated form, the "is the form
 * submittable" predicate and the submit guard.
 */
module ControlledForm {
  import opened Wrappers
  import opened FormTypes
  import opened Validators

  const InitialForm := FormState("", "", "", false)
  const InitialErrors: FormErrors := map[]

  /**
   * A change event from one of the form's inputs. The markup renders the
   * email and password fields as text inputs and acceptTerms as the only
   * checkbox, so the input's type follows from its name.
   */
  datatype ChangeEvent = ChangeEvent(name: Field, value: string, checked: bool)

  /** Only acceptTerms is a checkbox; the other three fields are text inputs. */
  function IsCheckbox(name: Field): (checkbox: bool)
    ensures !checkbox <==> name == Email || name == Password || name == ConfirmPassword
  {
    name == AcceptTerms
  }

  /** `type === 'checkbox' ? checked : value`. */
  function EventValue(e: ChangeEvent): (v: FieldValue)
    ensures IsCheckbox(e.name) ==> v == Flag(e.checked)
    ensures !IsCheckbox(e.name) ==> v == Text(e.value)
  {
    if IsCheckbox(e.name) then Flag(e.checked) else Text(e.value)
  }

  /** `{ ...prev, [name]: fieldValue }`: only the named field changes. */
  function ApplyChange(form: FormState, e: ChangeEvent): (r: FormState)
    ensures r.email == if e.name == Email then e.value else form.email
    ensures r.password == if e.name == Password then e.value else form.password
    ensures r.confirmPassword == if e.name == ConfirmPassword then e.value else form.confirmPassword
    ensures r.acceptTerms == if e.name == AcceptTerms then e.checked else form.acceptTerms
  {
    match e.name
    case Email => form.(email := e.value)
    case Password => form.(password := e.value)
    case ConfirmPassword => form.(confirmPassword := e.value)
    case AcceptTerms => form.(acceptTerms := e.checked)
  }

  /** `fieldErrors[name]`: the entry, or `undefined`. */
  function Lookup(errors: FormErrors, name: Field): Option<string> {
    if name in errors then errors[name] else None
  }

  /**
   * `{ ...prevErrors, ...fieldErrors, [name]: fieldErrors[name] }`: the
   * validated key is always present, other new entries win over old ones.
   */
  function MergeErrors(prev: FormErrors, fieldErrors: FormErrors, name: Field): (r: FormErrors)
    ensures name in r && r[name] == Lookup(fieldErrors, name)
    ensures forall k :: k != name ==> (k in r <==> k in prev || k in fieldErrors)
    ensures forall k :: k != name && k in r ==>
      r[k] == if k in fieldErrors then fieldErrors[k] else prev[k]
  {
    (prev + fieldErrors)[name := Lookup(fieldErrors, name)]
  }

  /**
   * With the validator's result (at most the validated key), the merge sets
   * that key to the validator's verdict, clearing it when there is none,
   * and leaves every other key as it was.
   */
  lemma MergeOverridesOneKey(prev: FormErrors, name: Field, value: FieldValue, form: FormState)
    ensures var r := MergeErrors(prev, ValidateField(name, value, form), name);
      && name in r && r[name] == Lookup(ValidateField(name, value, form), name)
      && (forall k :: k != name ==> (k in r <==> k in prev))
      && (forall k :: k != name && k in r ==> r[k] == prev[k])
  {
  }

  /** A falsy error: absent, `undefined` or the empty string. */
  function Truthy(e: Option<string>): (truthy: bool)
    ensures !truthy <==> e.None? || |e.value| == 0
  {
    e.Some? && e.value != ""
  }

  /** `Object.values(errors).every((e) => !e)`: no field's `errors[name]` is truthy, present or not. */
  function NoErrors(errors: FormErrors): (none: bool)
    ensures none <==> forall f :: !Truthy(Lookup(errors, f))
  {
    assert (forall f :: !Truthy(Lookup(errors, f))) ==> forall k :: k in errors ==> !Truthy(errors[k]) by {
      if forall f :: !Truthy(Lookup(errors, f)) {
        forall k | k in errors ensures !Truthy(errors[k]) {
          assert Lookup(errors, k) == errors[k];
        }
      }
    }
    forall k :: k in errors ==> !Truthy(errors[k])
  }

  /**
   * `isFormValid`: no error shown, three non-empty texts and the terms
   * accepted; the terms rule then passes too.
   */
  function IsFormValid(form: FormState, errors: FormErrors): (valid: bool)
    ensures valid ==> forall f :: !Truthy(Lookup(errors, f))
    ensures valid ==> form.email != "" && form.password != "" && form.confirmPassword != ""
    ensures valid ==> ValidateField(AcceptTerms, Flag(form.acceptTerms), form) == map[]
  {
    && NoErrors(errors)
    && form.email != ""
    && form.password != ""
    && form.confirmPassword != ""
    && form.acceptTerms
  }

  /** The component's two pieces of state. */
  class FormComponent {
    var form: FormState
    var errors: FormErrors

    constructor ()
      ensures form == InitialForm && errors == InitialErrors
      ensures !IsFormValid(form, errors)
    {
      form := InitialForm;
      errors := InitialErrors;
    }

    /** `handleChange`: update the named field, then validate it against the updated form. */
    method HandleChange(e: ChangeEvent)
      modifies this
      ensures form == ApplyChange(old(form), e)
      ensures errors == MergeErrors(old(errors), ValidateField(e.name, EventValue(e), form), e.name)
      ensures e.name in errors && errors[e.name] == Lookup(ValidateField(e.name, EventValue(e), form), e.name)
      ensures forall k :: k != e.name ==> (k in errors <==> k in old(errors))
      ensures forall k :: k != e.name && k in errors ==> errors[k] == old(errors)[k]
    {
      var updatedForm := ApplyChange(form, e);
      var fieldErrors := ValidateField(e.name, EventValue(e), updatedForm);
      MergeOverridesOneKey(errors, e.name, EventValue(e), updatedForm);
      errors := MergeErrors(errors, fieldErrors, e.name);
      form := updatedForm;
    }

    /** `handleSubmit`: the form that is logged, or nothing when the form is not valid. */
    method HandleSubmit() returns (submitted: Option<FormState>)
      ensures submitted.Some? <==> IsFormValid(form, errors)
      ensures submitted.Some? ==> submitted.value == form
    {
      if !IsFormValid(form, errors) {
        return None;
      }
      submitted := Some(form);
    }
  }

  /** The state change of `handleChange`, on values. */
  function Step(form: FormState, errors: FormErrors, e: ChangeEvent): (FormState, FormErrors) {
    var updated := ApplyChange(form, e);
    (updated, MergeErrors(errors, ValidateField(e.name, EventValue(e), updated), e.name))
  }

  /** A run of change events, one `handleChange` after another. */
  function Run(form: FormState, errors: FormErrors, events: seq<ChangeEvent>): (FormState, FormErrors)
    decreases |events|
  {
    if events == [] then (form, errors)
    else
      var next := Step(form, errors, events[0]);
      Run(next.0, next.1, events[1..])
  }

  /** A change that passes its rule leaves its key explicitly `undefined`. */
  lemma StepWithoutError(form: FormState, errors: FormErrors, e: ChangeEvent)
    requires ValidateField(e.name, EventValue(e), ApplyChange(form, e)) == map[]
    ensures Step(form, errors, e) == (ApplyChange(form, e), errors[e.name := None])
  {
    assert errors + map[] == errors;
  }

  /**
   * Filling the four inputs in order with acceptable values (an email with
   * an '@', a long enough password free of the email's part, the same text
   * again, the box ticked) makes the form submittable.
   */
  lemma FillingInMakesFormValid(email: string, password: string, events: seq<ChangeEvent>)
    requires '@' in email
    requires |password| >= MinPasswordLength && !ContainsEmailPart(password, email)
    requires events == [ChangeEvent(Email, email, false), ChangeEvent(Password, password, false),
                        ChangeEvent(ConfirmPassword, password, false), ChangeEvent(AcceptTerms, "on", true)]
    ensures IsFormValid(Run(InitialForm, InitialErrors, events).0, Run(InitialForm, InitialErrors, events).1)
  {
    FillingInRun(email, password, events);
    var r4 := map[Email := None, Password := None, ConfirmPassword := None, AcceptTerms := None];
    assert NoErrors(r4);
  }

  lemma FillingInRun(email: string, password: string, events: seq<ChangeEvent>)
    requires '@' in email
    requires |password| >= MinPasswordLength && !ContainsEmailPart(password, email)
    requires events == [ChangeEvent(Email, email, false), ChangeEvent(Password, password, false),
                        ChangeEvent(ConfirmPassword, password, false), ChangeEvent(AcceptTerms, "on", true)]
    ensures Run(InitialForm, InitialErrors, events)
         == (FormState(email, password, password, true),
             map[Email := None, Password := None, ConfirmPassword := None, AcceptTerms := None])
  {
    var e1, e2, e3, e4 := events[0], events[1], events[2], events[3];
    var f1 := ApplyChange(InitialForm, e1);
    var f2 := ApplyChange(f1, e2);
    var f3 := ApplyChange(f2, e3);
    var f4 := ApplyChange(f3, e4);
    var r1 := map[Email := None];
    var r2 := r1[Password := None];
    var r3 := r2[ConfirmPassword := None];
    var r4 := r3[AcceptTerms := None];
    assert ValidateField(Email, Text(email), f1) == map[];
    StepWithoutError(InitialForm, InitialErrors, e1);
    assert ValidateField(Password, Text(password), f2) == map[];
    StepWithoutError(f1, r1, e2);
    assert ValidateField(ConfirmPassword, Text(password), f3) == map[];
    StepWithoutError(f2, r2, e3);
    assert ValidateField(AcceptTerms, Flag(true), f4) == map[];
    StepWithoutError(f3, r3, e4);
    RunCons(InitialForm, InitialErrors, events);
    RunCons(f1, r1, events[1..]);
    RunCons(f2, r2, events[2..]);
    RunCons(f3, r3, events[3..]);
    assert events[4..] == [];
  }

  lemma RunCons(form: FormState, errors: FormErrors, events: seq<ChangeEvent>)
    requires events != []
    ensures Run(form, errors, events)
         == Run(Step(form, errors, events[0]).0, Step(form, errors, events[0]).1, events[1..])
  {
  }

  /**
   * Editing the password leaves an earlier confirmPassword error in place,
   * even when the two texts now agree: typing the confirmation first keeps
   * the form blocked until the confirmation is typed again.
   */
  lemma StaleConfirmError(password: string)
    requires password != ""
    ensures var s := Run(InitialForm, InitialErrors,
                         [ChangeEvent(ConfirmPassword, password, false), ChangeEvent(Password, password, false)]);
            && s.0.password == s.0.confirmPassword
            && Lookup(s.1, ConfirmPassword) == Some(PasswordsDiffer)
            && !IsFormValid(s.0, s.1)
  {
    var e1 := ChangeEvent(ConfirmPassword, password, false);
    var e2 := ChangeEvent(Password, password, false);
    var s1 := Step(InitialForm, InitialErrors, e1);
    assert s1.1 == map[ConfirmPassword := Some(PasswordsDiffer)];
    var s2 := Step(s1.0, s1.1, e2);
    assert Truthy(s2.1[ConfirmPassword]);
    assert Run(s2.0, s2.1, []) == s2;
    assert Run(s1.0, s1.1, [e2]) == s2;
    assert [e1, e2][1..] == [e2];
  }
}
