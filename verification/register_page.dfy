/** The registration form: required-field validation, the guarded submit
    and how its outcome is reported. */
module RegisterPage {
  import opened Wrappers
  import opened Json
  import opened Http
  import Text
  import AuthRoutes

  datatype Form = Form(email: string, password: string, name: string, gender: string)

  /** The form on first render; the gender select starts on "male". */
  const InitialForm := Form("", "", "", "male")

  datatype Field = EmailField | PasswordField | NameField | GenderField

  /** `handleChange` for the input named after `f`. */
  function Change(form: Form, f: Field, value: string): (r: Form)
    ensures Value(r, f) == value
    ensures forall g :: g != f ==> Value(r, g) == Value(form, g)
  {
    match f
    case EmailField => form.(email := value)
    case PasswordField => form.(password := value)
    case NameField => form.(name := value)
    case GenderField => form.(gender := value)
  }

  function Value(form: Form, f: Field): string {
    match f
    case EmailField => form.email
    case PasswordField => form.password
    case NameField => form.name
    case GenderField => form.gender
  }

  function Key(f: Field): string {
    match f
    case EmailField => "email"
    case PasswordField => "password"
    case NameField => "name"
    case GenderField => "gender"
  }

  function Required(f: Field): string {
    match f
    case EmailField => "Email is required"
    case PasswordField => "Password is required"
    case NameField => "Name is required"
    case GenderField => "Gender is required"
  }

  /** The entry `newErrors[key] = message` for field `f`. */
  function Entry(f: Field): (string, string) {
    (Key(f), Required(f))
  }

  /** The error for field `f` when it is empty. */
  function ErrorFor(form: Form, f: Field): seq<(string, string)> {
    if Value(form, f) == "" then [Entry(f)] else []
  }

  /** Each field has its own key. */
  lemma KeysDistinct()
    ensures forall f: Field, g: Field :: Key(f) == Key(g) ==> f == g
  {
    assert "email" != "password" && "email" != "name" && "email" != "gender";
    assert "password" != "name" && "password" != "gender" && "name" != "gender";
  }

  /** The errors `validateForm` records, in the order it checks the fields. */
  function Validate(form: Form): (errors: seq<(string, string)>)
    ensures forall f :: Entry(f) in errors <==> Value(form, f) == ""
    ensures |errors| <= 4
    ensures |errors| == 0 <==> form.email != "" && form.password != "" && form.name != "" && form.gender != ""
  {
    var errors := ErrorFor(form, EmailField) + ErrorFor(form, PasswordField)
                + ErrorFor(form, NameField) + ErrorFor(form, GenderField);
    KeysDistinct();
    forall f ensures Entry(f) in errors <==> Value(form, f) == "" {
      assert forall g :: Entry(f) in ErrorFor(form, g) <==> g == f && Value(form, f) == "";
    }
    errors
  }

  /** `validateForm()`'s answer: `Object.keys(newErrors).length === 0`. */
  function Valid(form: Form): (b: bool)
    ensures b <==> forall f :: Value(form, f) != ""
  {
    var b := |Validate(form)| == 0;
    assert b <==> Value(form, EmailField) != "" && Value(form, PasswordField) != ""
                  && Value(form, NameField) != "" && Value(form, GenderField) != "";
    b
  }

  /** The gender select starts filled, so an untouched form misses only the
      three text fields. */
  lemma InitialFormErrors()
    ensures Validate(InitialForm) == [("email", "Email is required"), ("password", "Password is required"),
                                      ("name", "Name is required")]
    ensures !Valid(InitialForm)
  {
    assert ErrorFor(InitialForm, EmailField) == [("email", "Email is required")];
    assert ErrorFor(InitialForm, PasswordField) == [("password", "Password is required")];
    assert ErrorFor(InitialForm, NameField) == [("name", "Name is required")];
    assert ErrorFor(InitialForm, GenderField) == [];
  }

  /** The body sent: `JSON.stringify(formData)`. */
  function FormJson(form: Form): Json {
    Obj([("email", Str(form.email)), ("password", Str(form.password)),
         ("name", Str(form.name)), ("gender", Str(form.gender))])
  }

  const FailureFallback := "Registration failed"
  const LoginPath := "/login"

  datatype Alert = SuccessAlert | ErrorAlert(text: string)

  datatype Submitted = Submitted(
    errors: seq<(string, string)>, request: Option<Outbound>, alert: Option<Alert>,
    navigate: Option<string>, loading: bool)

  /** `handleSubmit`; `reply` is the outcome of posting to `/api/register`
      and reading the JSON answer. */
  function Submit(form: Form, reply: Reply): (s: Submitted)
    ensures s.errors == Validate(form)
    ensures !s.loading
    ensures s.request.Some? <==> Valid(form)
    ensures !Valid(form) ==> s.alert.None? && s.navigate.None?
    ensures s.request.Some? ==> s.request.value == Outbound(POST, "/api/register", [JsonContent], Some(FormJson(form)))
    ensures Valid(form) && reply.Ok() ==> s.alert == Some(SuccessAlert) && s.navigate == Some(LoginPath)
    ensures Valid(form) && !reply.Ok() ==>
      s.navigate.None? && s.alert.Some? && s.alert.value.ErrorAlert? && s.alert.value.text != ""
    ensures Valid(form) && reply.Answered? && !reply.Ok() && reply.body.Obj? ==>
      s.alert == Some(ErrorAlert(Text.OrElse(ErrorMessage(Lookup(reply.body.members, "error"), FailureFallback), FailureFallback)))
    ensures Valid(form) && reply.Threw? ==> s.alert == Some(ErrorAlert(Text.OrElse(reply.message, FailureFallback)))
  {
    var errors := Validate(form);
    if !Valid(form) then Submitted(errors, None, None, None, false)
    else
      var request := Outbound(POST, "/api/register", [JsonContent], Some(FormJson(form)));
      if reply.Ok() then Submitted(errors, Some(request), Some(SuccessAlert), Some(LoginPath), false)
      else
        var message :=
          match reply
          case Threw(m) => m
          case Answered(_, data) =>
            match Get(data, "error")
            case Failure(m) => m
            case Success(e) => ErrorMessage(e, FailureFallback);
        Submitted(errors, Some(request), Some(ErrorAlert(Text.OrElse(message, FailureFallback))), None, false)
  }

  /** The redirect effect and the placeholder: a signed-in visitor is sent
      to the inventory and never sees the form. */
  function Gate(authLoading: bool, user: Json): (r: (bool, Option<string>))
    ensures r.0 <==> !authLoading && !JsTruthy(Some(user))
    ensures r.1 == Some("/dashboard/inventory") <==> !authLoading && JsTruthy(Some(user))
    ensures r.1.None? || r.1 == Some("/dashboard/inventory")
  {
    (!authLoading && !JsTruthy(Some(user)),
     if !authLoading && JsTruthy(Some(user)) then Some("/dashboard/inventory") else None)
  }

  /** Each field of the body can be read back. */
  lemma FormJsonMembers(form: Form)
    ensures Member(FormJson(form), "email") == Some(Str(form.email))
    ensures Member(FormJson(form), "password") == Some(Str(form.password))
    ensures Member(FormJson(form), "name") == Some(Str(form.name))
    ensures Member(FormJson(form), "gender") == Some(Str(form.gender))
  {
    var m := FormJson(form).members;
    assert m[1..] == [("password", Str(form.password)), ("name", Str(form.name)), ("gender", Str(form.gender))];
    assert m[1..][1..] == [("name", Str(form.name)), ("gender", Str(form.gender))];
    assert m[1..][1..][1..] == [("gender", Str(form.gender))];
    assert Lookup(m, "password") == Lookup(m[1..], "password");
    assert Lookup(m, "name") == Lookup(m[1..], "name") == Lookup(m[1..][1..], "name");
    assert Lookup(m, "gender") == Lookup(m[1..], "gender") == Lookup(m[1..][1..], "gender")
        == Lookup(m[1..][1..][1..], "gender");
  }

  /** The register handler forwards the submitted form field for field. */
  lemma FormForwarded(form: Form, backend: Reply)
    requires Valid(form)
    ensures var x := AuthRoutes.RegisterRoute(Parsed(FormJson(form)), backend);
      && x.sent.Some? && x.sent.value.body.Some?
      && Lookup(x.sent.value.body.value.members, "email") == Some(Str(form.email))
      && Lookup(x.sent.value.body.value.members, "password") == Some(Str(form.password))
      && Lookup(x.sent.value.body.value.members, "name") == Some(Str(form.name))
      && Lookup(x.sent.value.body.value.members, "gender") == Some(Str(form.gender))
  {
    var j := FormJson(form);
    var keys := ["email", "password", "name", "gender"];
    FormJsonMembers(form);
    var p := AuthRoutes.Pick(j, keys);
    assert Lookup(p.members, "email") == Some(Str(form.email));
    assert Lookup(p.members, "password") == Some(Str(form.password));
    assert Lookup(p.members, "name") == Some(Str(form.name));
    assert Lookup(p.members, "gender") == Some(Str(form.gender));
    var x := AuthRoutes.RegisterRoute(Parsed(j), backend);
    assert x.sent.value.body == Some(p);
  }
}
