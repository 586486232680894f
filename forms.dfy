/** What the sign-in and sign-up pages share: the change handler's effect on
    the form and on the error map, and the field checks both pages make. */
module Forms {
  import opened Wrappers
  import opened Js
  import opened Text
  import opened EmailPattern

  /** The part of an input event the handlers read: `name`, `value`,
      whether `type === 'checkbox'`, and `checked`. */
  datatype ChangeEvent = ChangeEvent(name: string, value: string, isCheckbox: bool, checked: bool)

  /** `{ ...formData, [name]: type === 'checkbox' ? checked : value }`. */
  function ApplyChange(form: Obj, ev: ChangeEvent): (r: Obj)
    ensures r.Keys == form.Keys + {ev.name}
    ensures r[ev.name] == (if ev.isCheckbox then Bool(ev.checked) else Str(ev.value))
    ensures forall k :: k in form && k != ev.name ==> r[k] == form[k]
  {
    form[ev.name := if ev.isCheckbox then Bool(ev.checked) else Str(ev.value)]
  }

  /** `if (errors[name]) setErrors({ ...errors, [name]: '' })`. */
  function ClearError(errors: Obj, name: string): (r: Obj)
    ensures Truthy(Get(errors, name)) ==> r == errors[name := Str("")]
    ensures !Truthy(Get(errors, name)) ==> r == errors
  {
    if Truthy(Get(errors, name)) then errors[name := Str("")] else errors
  }

  /** After a change no error of the changed field is showing, and every
      other field keeps its error. */
  lemma ClearErrorEffect(errors: Obj, name: string)
    ensures !Truthy(Get(ClearError(errors, name), name))
    ensures forall k :: k != name ==> Get(ClearError(errors, name), k) == Get(errors, k)
    ensures ClearError(ClearError(errors, name), name) == ClearError(errors, name)
  {
  }

  /** Every key of `keys` holds a string. */
  predicate TextFields(form: Obj, keys: set<string>) {
    forall k :: k in keys ==> HasText(form, k)
  }

  /** A non-checkbox change keeps the text fields strings; a checkbox
      change does too as long as it does not name one of them. */
  lemma ApplyChangeKeepsText(form: Obj, keys: set<string>, ev: ChangeEvent)
    requires TextFields(form, keys)
    requires ev.isCheckbox ==> ev.name !in keys
    ensures TextFields(ApplyChange(form, ev), keys)
  {
  }

  const EmailRequired: string := "Email is required"
  const EmailInvalid: string := "Email is invalid"
  const PasswordRequired: string := "Password is required"

  /** The email check both pages make: blank after trimming, else the
      pattern `\S+@\S+\.\S+` on the untrimmed text. */
  function EmailMessage(email: string): (m: Option<string>)
    ensures m == None <==> Trim(email) != [] && Matches(email)
    ensures m == Some(EmailRequired) <==> Trim(email) == []
    ensures m == Some(EmailInvalid) <==> Trim(email) != [] && !Matches(email)
  {
    EmailPatternTestCorrect(email);
    if Trim(email) == [] then Some(EmailRequired)
    else if !EmailPatternTest(email) then Some(EmailInvalid)
    else None
  }

  /** `newErrors[key] = message` when a check produced one. */
  function Entry(key: string, m: Option<string>): (r: Obj)
    ensures m.None? ==> r == map[]
    ensures m.Some? ==> r == map[key := Str(m.value)]
  {
    if m.Some? then map[key := Str(m.value)] else map[]
  }

  /** One step of a validator: `if (message) newErrors[key] = message`. */
  method AddError(errors: Obj, key: string, m: Option<string>) returns (r: Obj)
    ensures r == errors + Entry(key, m)
    ensures m.Some? ==> r == errors[key := Str(m.value)]
    ensures m.None? ==> r == errors
  {
    r := errors;
    if m.Some? {
      r := r[key := Str(m.value)];
    }
  }

  /** An error map built entry by entry is empty exactly when no check
      produced a message. */
  lemma EntryUnionEmpty(rest: Obj, key: string, m: Option<string>)
    ensures rest + Entry(key, m) == map[] <==> rest == map[] && m.None?
  {
    if m.Some? {
      assert key in rest + Entry(key, m);
    } else if rest != map[] {
      var k :| k in rest;
      assert k in rest + Entry(key, m);
    }
  }
}
