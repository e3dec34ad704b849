/** The registration page (frontend/src/pages/Register.js): a form of three
    fields updated one input at a time, and a submit that refuses an
    incomplete form and otherwise calls `registerUser` with the form and reports
    the outcome. The API outcome is a parameter. */
module RegisterForm {
  import opened Common
  import opened AuthContext

  /** The form object, field name to value; `{ ...form, [name]: value }`
      may add any key, so it is a map. */
  type Form = map<string, string>

  const EmptyForm: Form := map["username" := "", "email" := "", "password" := ""]

  const FieldsRequired := "Tous les champs sont obligatoires"
  const RegisteredAlert := "Utilisateur créé avec succès"
  const RegisterErrorFallback := "Erreur lors de l'inscription"

  /** `form.field` is truthy. */
  predicate Filled(form: Form, field: string) {
    Truthy(GetItem(form, field))
  }

  predicate Complete(form: Form) {
    Filled(form, "username") && Filled(form, "email") && Filled(form, "password")
  }

  /** `handleChange`: the named field takes the typed value and every other
      field keeps its value. */
  function HandleChange(form: Form, name: string, value: string): (f: Form)
    ensures GetItem(f, name) == Some(value)
    ensures forall k :: k != name ==> GetItem(f, k) == GetItem(form, k)
    ensures f.Keys == form.Keys + {name}
  {
    form[name := value]
  }

  /** What one submit does: the `registerUser` call made (if any) with its
      argument, the alert shown, and the path navigated to. */
  datatype SubmitEffects = SubmitEffects(apiCall: Option<Form>, alert: string, navigate: Option<string>)

  /** `handleSubmit`: an incomplete form only alerts; a complete one is sent
      as it is, and then the page alerts success and goes to `/login`, or
      alerts the server's message (or the default) and stays. */
  function HandleSubmit(form: Form, outcome: RegisterOutcome): (e: SubmitEffects)
    ensures e.apiCall.Some? <==> Complete(form)
    ensures e.apiCall.Some? ==> e.apiCall.value == form
    ensures !Complete(form) ==> e == SubmitEffects(None, FieldsRequired, None)
    ensures Complete(form) && outcome.RegisterOk? ==>
              e.alert == RegisteredAlert && e.navigate == Some(LoginPath)
    ensures Complete(form) && outcome.RegisterFailed? ==>
              e.alert == MessageOr(outcome.message, RegisterErrorFallback) && e.navigate == None
  {
    if !Complete(form) then SubmitEffects(None, FieldsRequired, None)
    else match outcome
      case RegisterOk(_) => SubmitEffects(Some(form), RegisteredAlert, Some(LoginPath))
      case RegisterFailed(message) => SubmitEffects(Some(form), MessageOr(message, RegisterErrorFallback), None)
  }

  /** Submitting the untouched form never calls the API. */
  lemma EmptyFormNotSent(outcome: RegisterOutcome)
    ensures HandleSubmit(EmptyForm, outcome) == SubmitEffects(None, FieldsRequired, None)
  {
  }

  /** Typing the three fields into the untouched form and submitting sends
      exactly what was typed. */
  lemma TypedFormSent(username: string, email: string, password: string, outcome: RegisterOutcome)
    requires username != "" && email != "" && password != ""
    ensures var form := HandleChange(HandleChange(HandleChange(EmptyForm, "username", username),
                                                  "email", email), "password", password);
            HandleSubmit(form, outcome).apiCall
              == Some(map["username" := username, "email" := email, "password" := password])
  {
    var form := HandleChange(HandleChange(HandleChange(EmptyForm, "username", username),
                                          "email", email), "password", password);
    assert form == map["username" := username, "email" := email, "password" := password];
  }

  /** Edits to two different fields give the same form in either order. */
  lemma ChangesCommute(form: Form, a: string, x: string, b: string, y: string)
    requires a != b
    ensures HandleChange(HandleChange(form, a, x), b, y) == HandleChange(HandleChange(form, b, y), a, x)
  {
  }
}
