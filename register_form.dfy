/**
 * The registration form: its submit handler clears the messages, checks the four
 * fields in a fixed order (all filled, passwords equal, password long enough),
 * reports the first failing check, and only when every check passes calls the
 * account service's `register` once; a successful registration clears the fields.
 *
 * `register` is an oracle from its arguments to its outcome; the form keeps a ghost
 * log of the registrations it asked for.
 */
module RegisterForm {
  import opened Wrappers

  const FillAllFields := "Por favor, preencha todos os campos"
  const PasswordsDiffer := "As senhas não coincidem"
  const PasswordTooShort := "A senha deve ter pelo menos 6 caracteres"
  const Registered := "Usuário registrado com sucesso! Você pode fazer login agora."
  const RegistrationFailed := "Erro no registro"
  const ConnectionError := "Erro de conexão"

  const MinPasswordLength := 6

  /** The four inputs of the form. */
  datatype Fields = Fields(username: string, email: string, password: string, confirmPassword: string)

  const EmptyFields := Fields("", "", "", "")

  /** Every input is filled in (a JavaScript string is falsy exactly when empty). */
  predicate Complete(f: Fields) {
    f.username != "" && f.email != "" && f.password != "" && f.confirmPassword != ""
  }

  predicate Matching(f: Fields) {
    f.password == f.confirmPassword
  }

  predicate LongEnough(f: Fields) {
    |f.password| >= MinPasswordLength
  }

  /** The message of the first check the fields fail, in the handler's order; none when all pass. */
  function Validate(f: Fields): (r: Option<string>)
    ensures r.None? <==> Complete(f) && Matching(f) && LongEnough(f)
  {
    if !Complete(f) then Some(FillAllFields)
    else if !Matching(f) then Some(PasswordsDiffer)
    else if !LongEnough(f) then Some(PasswordTooShort)
    else None
  }

  /**
   * Only the first failing check is reported: each message is given exactly when its
   * check fails and every earlier check passes.
   */
  lemma ValidateFirstFailure(f: Fields)
    ensures Validate(f) == Some(FillAllFields) <==> !Complete(f)
    ensures Validate(f) == Some(PasswordsDiffer) <==> Complete(f) && !Matching(f)
    ensures Validate(f) == Some(PasswordTooShort) <==> Complete(f) && Matching(f) && !LongEnough(f)
  {
    assert FillAllFields[0] != PasswordsDiffer[0] && FillAllFields[0] != PasswordTooShort[0];
    assert PasswordsDiffer[2] != PasswordTooShort[2];
  }

  /** Fields that pass every check carry one password, at least six characters long, and no empty input. */
  lemma ValidateAccepts(f: Fields)
    requires Validate(f).None?
    ensures f.password == f.confirmPassword && |f.password| >= 6
    ensures f.username != "" && f.email != ""
  {
  }

  /** The arguments of one `register` call, in the order the handler passes them. */
  datatype Registration = Registration(username: string, password: string, email: string)

  /** What `register` gives: `{success, error?}`, or a thrown failure. */
  datatype RegisterOutcome = Replied(success: bool, error: Option<string>) | Threw

  /** The error shown after an unsuccessful `register`. */
  function FailureMessage(o: RegisterOutcome): (r: string)
    requires !(o.Replied? && o.success)
    ensures o.Threw? ==> r == ConnectionError
    ensures o.Replied? && o.error.Some? && o.error.value != "" ==> r == o.error.value
    ensures o.Replied? && (o.error.None? || o.error.value == "") ==> r == RegistrationFailed
    ensures r != ""
  {
    match o
    case Threw => ConnectionError
    case Replied(_, e) => if e.Some? && e.value != "" then e.value else RegistrationFailed
  }

  class Form {
    var username: string
    var email: string
    var password: string
    var confirmPassword: string
    var error: string
    var success: string
    var isLoading: bool
    /** Every `register` call made so far. */
    ghost var registrations: seq<Registration>

    function Entered(): Fields
      reads this
    {
      Fields(username, email, password, confirmPassword)
    }

    constructor ()
      ensures Entered() == EmptyFields && error == "" && success == "" && !isLoading
      ensures registrations == []
    {
      username, email, password, confirmPassword := "", "", "", "";
      error, success := "", "";
      isLoading := false;
      registrations := [];
    }

    /**
     * `handleSubmit`. When a check fails, its message is shown, the inputs are kept and
     * `register` is not called. Otherwise `register` is called once with
     * (username, password, email): on success the inputs are cleared and the success
     * message shown, on failure the inputs are kept and the failure message shown.
     * Loading is off on every exit.
     */
    method HandleSubmit(register: Registration -> RegisterOutcome)
      modifies this
      ensures !isLoading
      ensures var v := Validate(old(Entered()));
        v.Some? ==>
          && error == v.value && success == ""
          && Entered() == old(Entered()) && registrations == old(registrations)
      ensures var f := old(Entered());
        var call := Registration(f.username, f.password, f.email);
        var o := register(call);
        Validate(f).None? ==>
          && registrations == old(registrations) + [call]
          && (o.Replied? && o.success ==> Entered() == EmptyFields && success == Registered && error == "")
          && (!(o.Replied? && o.success) ==> Entered() == f && success == "" && error == FailureMessage(o))
    {
      error := "";
      success := "";
      isLoading := true;

      if username == "" || email == "" || password == "" || confirmPassword == "" {
        error := FillAllFields;
        isLoading := false;
        return;
      }
      if password != confirmPassword {
        error := PasswordsDiffer;
        isLoading := false;
        return;
      }
      if |password| < MinPasswordLength {
        error := PasswordTooShort;
        isLoading := false;
        return;
      }

      var call := Registration(username, password, email);
      registrations := registrations + [call];
      var result := register(call);
      match result {
        case Replied(true, _) =>
          success := Registered;
          username := "";
          email := "";
          password := "";
          confirmPassword := "";
        case Replied(false, e) =>
          error := if e.Some? && e.value != "" then e.value else RegistrationFailed;
        case Threw =>
          error := ConnectionError;
      }
      isLoading := false;
    }
  }
}
