/** The sign-up wizard (`register.jsx`): three steps, each guarded by a
    validator that replaces the error map, and a change handler. Rendering,
    the submit delay and the redirect are not part of this model. */
module RegisterPage {
  import opened Wrappers
  import opened Js
  import opened Text
  import opened EmailPattern
  import opened Forms

  /** The fields the page edits as text (every field but `agreeToTerms`). */
  const TextKeys: set<string> := {
    "firstName", "lastName", "email", "password", "confirmPassword", "dateOfBirth", "gender",
    "phoneNumber", "address", "city", "state", "zipCode", "emergencyContactName", "emergencyContactPhone"
  }

  const InitialForm: Obj := map[
    "firstName" := Str(""), "lastName" := Str(""), "email" := Str(""), "password" := Str(""),
    "confirmPassword" := Str(""), "dateOfBirth" := Str(""), "gender" := Str(""),
    "phoneNumber" := Str(""), "address" := Str(""), "city" := Str(""), "state" := Str(""),
    "zipCode" := Str(""), "emergencyContactName" := Str(""), "emergencyContactPhone" := Str(""),
    "agreeToTerms" := Bool(false)]

  const FirstNameRequired: string := "First name is required"
  const LastNameRequired: string := "Last name is required"
  const PasswordTooShort: string := "Password must be at least 8 characters"
  const ConfirmRequired: string := "Please confirm your password"
  const PasswordsDiffer: string := "Passwords do not match"
  const BirthDateRequired: string := "Date of birth is required"
  const GenderRequired: string := "Gender is required"
  const PhoneRequired: string := "Phone number is required"
  const TermsRequired: string := "You must agree to the terms and conditions"
  const RegistrationFailed: string := "Registration failed. Please try again."

  /** The fields the validators read as text hold strings. */
  predicate WellFormed(form: Obj) {
    && HasText(form, "firstName") && HasText(form, "lastName") && HasText(form, "email")
    && HasText(form, "password") && HasText(form, "confirmPassword") && HasText(form, "dateOfBirth")
    && HasText(form, "gender") && HasText(form, "phoneNumber")
  }

  /** The blank form holds text in every field the validators read. */
  lemma InitialFormWellFormed()
    ensures WellFormed(InitialForm)
  {
    assert InitialForm["firstName"] == Str("") && InitialForm["lastName"] == Str("");
    assert InitialForm["email"] == Str("") && InitialForm["password"] == Str("");
    assert InitialForm["confirmPassword"] == Str("") && InitialForm["dateOfBirth"] == Str("");
    assert InitialForm["gender"] == Str("") && InitialForm["phoneNumber"] == Str("");
  }

  // ---------------------------------------------------------------------------
  // The checks, field by field.

  /** A required field: an empty text gets `message`. */
  function Required(v: string, message: string): Option<string> {
    if v == [] then Some(message) else None
  }

  /** `password.length < 8` measures UTF-16 code units, as JavaScript does. */
  function PasswordMessage(password: string): Option<string> {
    if password == [] then Some(PasswordRequired)
    else if Utf16Length(password) < 8 then Some(PasswordTooShort)
    else None
  }

  /** `confirmPassword` is compared with `!==` against the password. */
  function ConfirmMessage(password: Value, confirm: string): Option<string> {
    if confirm == [] then Some(ConfirmRequired)
    else if password != Str(confirm) then Some(PasswordsDiffer)
    else None
  }

  /** The error map of step 1: one entry per failing field. */
  function Step1Errors(form: Obj): Obj
    requires WellFormed(form)
  {
    Entry("firstName", Required(Trim(TextOf(form, "firstName")), FirstNameRequired)) +
    Entry("lastName", Required(Trim(TextOf(form, "lastName")), LastNameRequired)) +
    Entry("email", EmailMessage(TextOf(form, "email"))) +
    Entry("password", PasswordMessage(TextOf(form, "password"))) +
    Entry("confirmPassword", ConfirmMessage(form["password"], TextOf(form, "confirmPassword")))
  }

  /** The error map of step 2. */
  function Step2Errors(form: Obj): Obj
    requires WellFormed(form)
  {
    Entry("dateOfBirth", Required(TextOf(form, "dateOfBirth"), BirthDateRequired)) +
    Entry("gender", Required(TextOf(form, "gender"), GenderRequired)) +
    Entry("phoneNumber", Required(Trim(TextOf(form, "phoneNumber")), PhoneRequired))
  }

  /** The error map of step 3. */
  function Step3Errors(form: Obj): Obj {
    Entry("agreeToTerms", if Truthy(Get(form, "agreeToTerms")) then None else Some(TermsRequired))
  }

  /** Step 1 passes exactly when both names are non-blank, the email is
      non-blank and matches the pattern, the password is at least eight
      UTF-16 code units long and the confirmation equals it. */
  lemma Step1Valid(form: Obj)
    requires WellFormed(form)
    ensures Step1Errors(form) == map[] <==>
      && Trim(TextOf(form, "firstName")) != []
      && Trim(TextOf(form, "lastName")) != []
      && Trim(TextOf(form, "email")) != [] && Matches(TextOf(form, "email"))
      && Utf16Length(TextOf(form, "password")) >= 8
      && TextOf(form, "confirmPassword") == TextOf(form, "password")
  {
    var f := TextOf(form, "firstName");
    var l := TextOf(form, "lastName");
    var e := TextOf(form, "email");
    var p := TextOf(form, "password");
    var c := TextOf(form, "confirmPassword");
    var m1 := Entry("firstName", Required(Trim(f), FirstNameRequired));
    var m2 := m1 + Entry("lastName", Required(Trim(l), LastNameRequired));
    var m3 := m2 + Entry("email", EmailMessage(e));
    var m4 := m3 + Entry("password", PasswordMessage(p));
    EntryUnionEmpty(map[], "firstName", Required(Trim(f), FirstNameRequired));
    EntryUnionEmpty(m1, "lastName", Required(Trim(l), LastNameRequired));
    EntryUnionEmpty(m2, "email", EmailMessage(e));
    EntryUnionEmpty(m3, "password", PasswordMessage(p));
    EntryUnionEmpty(m4, "confirmPassword", ConfirmMessage(form["password"], c));
    assert map[] + m1 == m1;
  }

  /** Each field gets at most one message, the first check that fails: a
      blank email is only "required", a malformed one only "invalid". */
  lemma Step1EmailMessage(form: Obj)
    requires WellFormed(form)
    ensures Trim(TextOf(form, "email")) == [] ==> Step1Errors(form)["email"] == Str(EmailRequired)
    ensures Trim(TextOf(form, "email")) != [] && !Matches(TextOf(form, "email")) ==>
      Step1Errors(form)["email"] == Str(EmailInvalid)
  {
  }

  /** A non-empty password shorter than eight UTF-16 code units is reported
      as too short (so seven characters including an emoji pass). */
  lemma Step1PasswordMessage(form: Obj)
    requires WellFormed(form)
    ensures TextOf(form, "password") == [] ==> Step1Errors(form)["password"] == Str(PasswordRequired)
    ensures 0 < Utf16Length(TextOf(form, "password")) < 8 ==> Step1Errors(form)["password"] == Str(PasswordTooShort)
  {
  }

  /** A non-empty confirmation that differs from the password is a mismatch. */
  lemma Step1ConfirmMessage(form: Obj)
    requires WellFormed(form)
    ensures TextOf(form, "confirmPassword") == [] ==> Step1Errors(form)["confirmPassword"] == Str(ConfirmRequired)
    ensures TextOf(form, "confirmPassword") != [] && TextOf(form, "confirmPassword") != TextOf(form, "password") ==>
      Step1Errors(form)["confirmPassword"] == Str(PasswordsDiffer)
  {
  }

  /** Step 1 reports only on its own five fields. */
  lemma Step1Keys(form: Obj)
    requires WellFormed(form)
    ensures Step1Errors(form).Keys <= {"firstName", "lastName", "email", "password", "confirmPassword"}
  {
  }

  /** Step 2 passes exactly when the birth date and gender are non-empty
      (not trimmed) and the phone number is non-blank. */
  lemma Step2Valid(form: Obj)
    requires WellFormed(form)
    ensures Step2Errors(form) == map[] <==>
      TextOf(form, "dateOfBirth") != [] && TextOf(form, "gender") != [] && Trim(TextOf(form, "phoneNumber")) != []
  {
    var m1 := Entry("dateOfBirth", Required(TextOf(form, "dateOfBirth"), BirthDateRequired));
    var m2 := m1 + Entry("gender", Required(TextOf(form, "gender"), GenderRequired));
    EntryUnionEmpty(map[], "dateOfBirth", Required(TextOf(form, "dateOfBirth"), BirthDateRequired));
    EntryUnionEmpty(m1, "gender", Required(TextOf(form, "gender"), GenderRequired));
    EntryUnionEmpty(m2, "phoneNumber", Required(Trim(TextOf(form, "phoneNumber")), PhoneRequired));
    assert map[] + m1 == m1;
  }

  lemma Step3Valid(form: Obj)
    ensures Step3Errors(form) == map[] <==> Truthy(Get(form, "agreeToTerms"))
  {
    if !Truthy(Get(form, "agreeToTerms")) {
      assert "agreeToTerms" in Step3Errors(form);
    }
  }

  // ---------------------------------------------------------------------------
  // The step machine.

  /** `handleNextStep`: forward only from a step whose check passes. */
  function NextStep(step: int, form: Obj): int
    requires WellFormed(form)
  {
    if step == 1 && Step1Errors(form) == map[] then 2
    else if step == 2 && Step2Errors(form) == map[] then 3
    else step
  }

  /** `handlePrevStep`. */
  function PrevStep(step: int): int {
    if step > 1 then step - 1 else step
  }

  datatype Move = Next(form: Obj) | Prev

  predicate WellFormedMoves(moves: seq<Move>) {
    forall i :: 0 <= i < |moves| && moves[i].Next? ==> WellFormed(moves[i].form)
  }

  /** The step after a sequence of clicks on "next" (with the form as it
      was then) and "back". */
  function Run(step: int, moves: seq<Move>): int
    requires WellFormedMoves(moves)
    decreases |moves|
  {
    if moves == [] then step
    else
      var s := if moves[0].Next? then NextStep(step, moves[0].form) else PrevStep(step);
      Run(s, moves[1..])
  }

  /** From any step in 1..3 every sequence of moves stays in 1..3. */
  lemma {:induction false} RunStaysInRange(step: int, moves: seq<Move>)
    requires 1 <= step <= 3
    requires WellFormedMoves(moves)
    ensures 1 <= Run(step, moves) <= 3
    decreases |moves|
  {
    if moves != [] {
      var s := if moves[0].Next? then NextStep(step, moves[0].form) else PrevStep(step);
      assert WellFormedMoves(moves[1..]) by {
        forall i | 0 <= i < |moves[1..]| && moves[1..][i].Next? ensures WellFormed(moves[1..][i].form) {
          assert moves[1..][i] == moves[i + 1];
        }
      }
      RunStaysInRange(s, moves[1..]);
    }
  }

  lemma StepMoves(step: int, form: Obj)
    requires 1 <= step <= 3 && WellFormed(form)
    ensures step <= NextStep(step, form) <= step + 1 && NextStep(step, form) <= 3
    ensures step - 1 <= PrevStep(step) <= step && PrevStep(step) >= 1
    ensures step == 3 ==> NextStep(step, form) == 3
    ensures NextStep(step, form) == 2 <==> (step == 1 && Step1Errors(form) == map[]) || (step == 2 && Step2Errors(form) != map[])
  {
  }

  // ---------------------------------------------------------------------------
  // The page.

  class Register {
    var step: int
    var formData: Obj
    var errors: Obj

    predicate Valid()
      reads this
    {
      1 <= step <= 3 && WellFormed(formData)
    }

    constructor ()
      ensures Valid() && step == 1 && formData == InitialForm && errors == map[]
    {
      InitialFormWellFormed();
      step := 1;
      formData := InitialForm;
      errors := map[];
    }

    /** `handleChange(e)`; checkboxes only ever name `agreeToTerms`. */
    method HandleChange(ev: ChangeEvent)
      requires Valid()
      requires ev.isCheckbox ==> ev.name !in TextKeys
      modifies this`formData, this`errors
      ensures Valid()
      ensures formData == ApplyChange(old(formData), ev)
      ensures errors == ClearError(old(errors), ev.name)
    {
      if ev.isCheckbox {
        formData := formData[ev.name := Bool(ev.checked)];
      } else {
        formData := formData[ev.name := Str(ev.value)];
      }
      if Truthy(Get(errors, ev.name)) {
        errors := errors[ev.name := Str("")];
      }
    }

    /** `validateStep1()`: builds a fresh error map key by key, installs it,
        and reports whether it is empty. */
    method ValidateStep1() returns (ok: bool)
      requires Valid()
      modifies this`errors
      ensures errors == Step1Errors(formData)
      ensures ok <==> errors == map[]
    {
      var form := formData;
      var newErrors: Obj := map[];
      newErrors := AddError(newErrors, "firstName", Required(Trim(TextOf(form, "firstName")), FirstNameRequired));
      newErrors := AddError(newErrors, "lastName", Required(Trim(TextOf(form, "lastName")), LastNameRequired));
      newErrors := AddError(newErrors, "email", EmailMessage(TextOf(form, "email")));
      newErrors := AddError(newErrors, "password", PasswordMessage(TextOf(form, "password")));
      newErrors := AddError(newErrors, "confirmPassword", ConfirmMessage(form["password"], TextOf(form, "confirmPassword")));
      assert map[] + Entry("firstName", Required(Trim(TextOf(form, "firstName")), FirstNameRequired))
        == Entry("firstName", Required(Trim(TextOf(form, "firstName")), FirstNameRequired));
      errors := newErrors;
      ok := newErrors.Keys == {};
    }

    /** `validateStep2()`. */
    method ValidateStep2() returns (ok: bool)
      requires Valid()
      modifies this`errors
      ensures errors == Step2Errors(formData)
      ensures ok <==> errors == map[]
    {
      var form := formData;
      var newErrors: Obj := map[];
      newErrors := AddError(newErrors, "dateOfBirth", Required(TextOf(form, "dateOfBirth"), BirthDateRequired));
      newErrors := AddError(newErrors, "gender", Required(TextOf(form, "gender"), GenderRequired));
      newErrors := AddError(newErrors, "phoneNumber", Required(Trim(TextOf(form, "phoneNumber")), PhoneRequired));
      assert map[] + Entry("dateOfBirth", Required(TextOf(form, "dateOfBirth"), BirthDateRequired))
        == Entry("dateOfBirth", Required(TextOf(form, "dateOfBirth"), BirthDateRequired));
      errors := newErrors;
      ok := newErrors.Keys == {};
    }

    /** `validateStep3()`. */
    method ValidateStep3() returns (ok: bool)
      modifies this`errors
      ensures errors == Step3Errors(formData)
      ensures ok <==> errors == map[]
    {
      var form := formData;
      var newErrors: Obj := map[];
      if !Truthy(Get(form, "agreeToTerms")) {
        newErrors := newErrors["agreeToTerms" := Str(TermsRequired)];
      }
      errors := newErrors;
      ok := newErrors.Keys == {};
    }

    /** `handleNextStep()`: the check of the current step runs (and replaces
        the errors) only at steps 1 and 2. */
    method HandleNextStep()
      requires Valid()
      modifies this`step, this`errors
      ensures Valid()
      ensures step == NextStep(old(step), formData)
      ensures old(step) == 1 ==> errors == Step1Errors(formData)
      ensures old(step) == 2 ==> errors == Step2Errors(formData)
      ensures old(step) == 3 ==> errors == old(errors)
    {
      var ok := false;
      if step == 1 {
        ok := ValidateStep1();
      }
      if step == 1 && ok {
        step := 2;
      } else if step == 2 {
        ok := ValidateStep2();
        if ok {
          step := 3;
        }
      }
    }

    /** `handlePrevStep()`. */
    method HandlePrevStep()
      requires Valid()
      modifies this`step
      ensures Valid()
      ensures step == PrevStep(old(step))
    {
      if step > 1 {
        step := step - 1;
      }
    }

    /** The guard of `handleSubmit`: submission goes ahead only at step 3
        with the terms accepted; the step-3 check runs only at step 3. */
    method HandleSubmit() returns (proceeds: bool)
      modifies this`errors
      ensures proceeds <==> step == 3 && Truthy(Get(formData, "agreeToTerms"))
      ensures step == 3 ==> errors == Step3Errors(formData)
      ensures step != 3 ==> errors == old(errors)
    {
      proceeds := false;
      if step == 3 {
        proceeds := ValidateStep3();
        Step3Valid(formData);
      }
    }

    /** The `catch` branch of `handleSubmit`: the whole map becomes one form-level message. */
    method SubmitFailed()
      modifies this`errors
      ensures errors == map["form" := Str(RegistrationFailed)]
    {
      errors := map["form" := Str(RegistrationFailed)];
    }
  }
}
