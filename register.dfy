/**
 * The sign-up page: a four-field form updated one input at a time, and a submit handler that
 * checks the two passwords match, then that the password is long enough, and only then hands
 * name, e-mail and password to `signup` with the loading flag raised around the call.
 */
module Register {

  /** The form's fields, by the `name` attribute of their inputs. */
  const FieldNames: set<string> := {"name", "email", "password", "confirmPassword"}

  /** The form as the page starts with it: every field empty. */
  const InitialForm: map<string, string> :=
    map["name" := "", "email" := "", "password" := "", "confirmPassword" := ""]

  const ErrorTitle := "Erro no cadastro"
  const MismatchText := "As senhas não coincidem."
  const TooShortText := "A senha deve ter pelo menos 6 caracteres."
  const MinPasswordLength := 6

  /** A toast notification: title, description and variant. */
  datatype Toast = Toast(title: string, description: string, variant: string)

  /** The error toast the page raises for a rejected submission. */
  function ErrorToast(description: string): Toast {
    Toast(ErrorTitle, description, "destructive")
  }

  /** What `signup` receives: the confirmation is not among its fields. */
  datatype SignupData = SignupData(name: string, email: string, password: string)

  /** One call of `signup`, with the value of the loading flag while it ran. */
  datatype SignupCall = SignupCall(data: SignupData, loadingDuringCall: bool)

  /** `handleChange`: the named field takes the input's value; every other field is kept. */
  function HandleChange(form: map<string, string>, name: string, value: string): (r: map<string, string>)
    ensures r.Keys == form.Keys + {name}
    ensures name in r && r[name] == value
    ensures forall k :: k in form && k != name ==> k in r && r[k] == form[k]
  {
    form[name := value]
  }

  /** A change to one of the form's own inputs keeps the form's four fields. */
  lemma HandleChangeKeepsFields(form: map<string, string>, name: string, value: string)
    requires form.Keys == FieldNames && name in FieldNames
    ensures HandleChange(form, name, value).Keys == FieldNames
  {
  }

  /** Changes to two different fields do not interfere: their order does not matter. */
  lemma ChangesCommute(form: map<string, string>, n1: string, v1: string, n2: string, v2: string)
    requires n1 != n2
    ensures HandleChange(HandleChange(form, n1, v1), n2, v2) == HandleChange(HandleChange(form, n2, v2), n1, v1)
  {
  }

  /**
   * The two checks of `handleSubmit`, in their order: the error description of the first that
   * fails, or nothing when the submission may proceed.
   */
  datatype Verdict = Rejected(description: string) | Accepted

  function Validate(password: string, confirmPassword: string): (v: Verdict)
    ensures v == Rejected(MismatchText) <==> password != confirmPassword
    ensures v == Rejected(TooShortText) <==> password == confirmPassword && |password| < MinPasswordLength
    ensures v == Accepted <==> password == confirmPassword && |password| >= MinPasswordLength
  {
    if password != confirmPassword then Rejected(MismatchText)
    else if |password| < MinPasswordLength then Rejected(TooShortText)
    else Accepted
  }

  /** The mismatch check runs first: when both checks fail, only the mismatch is reported. */
  lemma MismatchReportedFirst(password: string, confirmPassword: string)
    requires password != confirmPassword && |password| < MinPasswordLength
    ensures Validate(password, confirmPassword) == Rejected(MismatchText)
  {
  }

  /** What `signup` receives from a well-formed form. */
  function Forwarded(form: map<string, string>): (d: SignupData)
    requires form.Keys == FieldNames
    ensures d.name == form["name"] && d.email == form["email"] && d.password == form["password"]
  {
    SignupData(form["name"], form["email"], form["password"])
  }

  /**
   * The confirmation is never forwarded: two forms that differ only in it send the same data
   * (when both are accepted).
   */
  lemma ConfirmationNotForwarded(f: map<string, string>, g: map<string, string>)
    requires f.Keys == FieldNames && g.Keys == FieldNames
    requires forall k :: k in FieldNames && k != "confirmPassword" ==> f[k] == g[k]
    ensures Forwarded(f) == Forwarded(g)
  {
    assert "name" != "confirmPassword" && "email" != "confirmPassword" && "password" != "confirmPassword";
  }

  /** The page's state: the form, the loading flag, and the toasts and sign-up calls so far. */
  class RegisterPage {
    var formData: map<string, string>
    var loading: bool
    var toasts: seq<Toast>
    var signups: seq<SignupCall>

    /** The form always holds exactly its four fields. */
    predicate Valid()
      reads this
    {
      formData.Keys == FieldNames
    }

    constructor()
      ensures Valid()
      ensures formData == InitialForm && !loading && toasts == [] && signups == []
    {
      formData := InitialForm;
      loading := false;
      toasts := [];
      signups := [];
    }

    /** An input's change event. */
    method Change(name: string, value: string)
      requires Valid() && name in FieldNames
      modifies this
      ensures Valid()
      ensures formData == HandleChange(old(formData), name, value)
      ensures loading == old(loading) && toasts == old(toasts) && signups == old(signups)
    {
      formData := formData[name := value];
    }

    /**
     * `handleSubmit`: a rejected submission adds one error toast and calls nothing; an accepted
     * one calls `signup` exactly once, with the loading flag raised, and lowers it afterwards.
     */
    method HandleSubmit()
      requires Valid()
      modifies this
      ensures Valid() && formData == old(formData)
      ensures Validate(formData["password"], formData["confirmPassword"]).Rejected? ==>
        && toasts == old(toasts) + [ErrorToast(Validate(formData["password"], formData["confirmPassword"]).description)]
        && signups == old(signups)
        && loading == old(loading)
      ensures Validate(formData["password"], formData["confirmPassword"]) == Accepted ==>
        && toasts == old(toasts)
        && signups == old(signups) + [SignupCall(Forwarded(formData), true)]
        && !loading
    {
      if formData["password"] != formData["confirmPassword"] {
        toasts := toasts + [ErrorToast(MismatchText)];
        return;
      }
      if |formData["password"]| < MinPasswordLength {
        toasts := toasts + [ErrorToast(TooShortText)];
        return;
      }

      loading := true;
      var data := SignupData(formData["name"], formData["email"], formData["password"]);
      signups := signups + [SignupCall(data, loading)];
      loading := false;
    }
  }
}
