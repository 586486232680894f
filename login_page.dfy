/** The sign-in page (`login.jsx`): the form, its change handler, the
    validator behind the submit button and the "registered" banner flag.
    The submit delay and the redirect are not part of this model; the
    banner timer's five-second delay is not modelled, only its firing. */
module LoginPage {
  import opened Wrappers
  import opened Js
  import opened Text
  import opened EmailPattern
  import opened Forms

  /** The fields the page edits as text. */
  const TextKeys: set<string> := {"email", "password"}

  const InitialForm: Obj := map["email" := Str(""), "password" := Str(""), "rememberMe" := Bool(false)]

  const LoginFailed: string := "Invalid email or password. Please try again."

  predicate WellFormed(form: Obj) {
    HasText(form, "email") && HasText(form, "password")
  }

  /** The password is only required, never measured. */
  function PasswordMessage(password: string): (m: Option<string>)
    ensures m.None? <==> password != []
    ensures m.Some? ==> m.value == PasswordRequired
  {
    if password == [] then Some(PasswordRequired) else None
  }

  /** The error map `validate` builds. */
  function LoginErrors(form: Obj): Obj
    requires WellFormed(form)
  {
    Entry("email", EmailMessage(TextOf(form, "email"))) +
    Entry("password", PasswordMessage(TextOf(form, "password")))
  }

  /** The form passes exactly when the email is non-blank and matches
      `\S+@\S+\.\S+`, and the password is non-empty (untrimmed: a password
      of spaces passes). */
  lemma LoginValid(form: Obj)
    requires WellFormed(form)
    ensures LoginErrors(form) == map[] <==>
      Trim(TextOf(form, "email")) != [] && Matches(TextOf(form, "email")) && TextOf(form, "password") != []
  {
    var e := Entry("email", EmailMessage(TextOf(form, "email")));
    EntryUnionEmpty(map[], "email", EmailMessage(TextOf(form, "email")));
    EntryUnionEmpty(e, "password", PasswordMessage(TextOf(form, "password")));
    assert map[] + e == e;
  }

  /** The messages each field can get, and only these two keys. */
  lemma LoginMessages(form: Obj)
    requires WellFormed(form)
    ensures LoginErrors(form).Keys <= {"email", "password"}
    ensures Trim(TextOf(form, "email")) == [] ==> LoginErrors(form)["email"] == Str(EmailRequired)
    ensures Trim(TextOf(form, "email")) != [] && !Matches(TextOf(form, "email")) ==>
      LoginErrors(form)["email"] == Str(EmailInvalid)
    ensures TextOf(form, "password") == [] ==> LoginErrors(form)["password"] == Str(PasswordRequired)
  {
  }

  class Login {
    var formData: Obj
    var errors: Obj
    var showSuccessMessage: bool

    predicate Valid()
      reads this
    {
      WellFormed(formData)
    }

    constructor ()
      ensures Valid() && formData == InitialForm && errors == map[] && !showSuccessMessage
    {
      formData := InitialForm;
      errors := map[];
      showSuccessMessage := false;
    }

    /** The effect on the `registered` query value: the banner is switched
        on only by exactly `registered=true`; any other value, or none,
        leaves it as it was. */
    method RegisteredEffect(registered: Option<string>)
      modifies this`showSuccessMessage
      ensures registered == Some("true") ==> showSuccessMessage
      ensures registered != Some("true") ==> showSuccessMessage == old(showSuccessMessage)
    {
      if registered == Some("true") {
        showSuccessMessage := true;
      }
    }

    /** The banner's timer firing: the banner is switched off. */
    method BannerTimeout()
      modifies this`showSuccessMessage
      ensures !showSuccessMessage
    {
      showSuccessMessage := false;
    }

    /** `handleChange(e)`; the only checkbox is `rememberMe`. */
    method HandleChange(ev: ChangeEvent)
      requires Valid()
      requires ev.isCheckbox ==> ev.name !in TextKeys
      modifies this`formData, this`errors
      ensures Valid()
      ensures formData == ApplyChange(old(formData), ev)
      ensures errors == ClearError(old(errors), ev.name)
    {
      if ev.isCheckbox {
        formData := formData[ev.name := Bool(ev.checked)];
      } else {
        formData := formData[ev.name := Str(ev.value)];
      }
      if Truthy(Get(errors, ev.name)) {
        errors := errors[ev.name := Str("")];
      }
    }

    /** `validate()`: builds a fresh error map, installs it, and reports
        whether it is empty. */
    method Validate() returns (ok: bool)
      requires Valid()
      modifies this`errors
      ensures errors == LoginErrors(formData)
      ensures ok <==> errors == map[]
    {
      var form := formData;
      var newErrors: Obj := map[];
      if Trim(TextOf(form, "email")) == [] {
        newErrors := newErrors["email" := Str(EmailRequired)];
      } else if !EmailPatternTest(TextOf(form, "email")) {
        newErrors := newErrors["email" := Str(EmailInvalid)];
      }
      if TextOf(form, "password") == [] {
        newErrors := newErrors["password" := Str(PasswordRequired)];
      }
      errors := newErrors;
      ok := newErrors.Keys == {};
    }

    /** The guard of `handleSubmit`: sign-in goes ahead exactly when the
        form validates, and the validator's map is what the page shows. */
    method HandleSubmit() returns (proceeds: bool)
      requires Valid()
      modifies this`errors
      ensures errors == LoginErrors(formData)
      ensures proceeds <==>
        Trim(TextOf(formData, "email")) != [] && Matches(TextOf(formData, "email")) &&
        TextOf(formData, "password") != []
    {
      proceeds := Validate();
      LoginValid(formData);
    }

    /** The `catch` branch of `handleSubmit`: the whole map becomes one form-level message. */
    method SubmitFailed()
      modifies this`errors
      ensures errors == map["form" := Str(LoginFailed)]
    {
      errors := map["form" := Str(LoginFailed)];
    }
  }
}
