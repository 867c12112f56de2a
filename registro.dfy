/** The sign-up page: an email and a password are checked, an account is
    created, and the user is taken home; failures show a message. */
module Registro {
  import opened Wrappers
  import opened JsString
  import opened Backend

  const FALLBACK_ERROR := "No se pudo registrar"
  const MIN_PASSWORD: nat := 6

  /** `mapAuthError`: the three sign-up error codes the page explains, and nothing for any other. */
  function MapAuthError(code: Option<string>): (r: Option<string>)
    ensures code == Some("auth/email-already-in-use") ==> r == Some("El usuario ya está registrado")
    ensures code == Some("auth/invalid-email") ==> r == Some("Email inválido")
    ensures code == Some("auth/weak-password") ==> r == Some("La contraseña es demasiado débil")
    ensures r.None? <==>
      code.None? || code.value !in {"auth/email-already-in-use", "auth/invalid-email", "auth/weak-password"}
  {
    match code
    case Some("auth/email-already-in-use") => Some("El usuario ya está registrado")
    case Some("auth/invalid-email") => Some("Email inválido")
    case Some("auth/weak-password") => Some("La contraseña es demasiado débil")
    case _ => None
  }

  /** The message shown for a failure with `code` and `message`: the
      explained code, else a non-empty message, else the fallback. */
  function ShownError(code: Option<string>, message: Option<string>): (shown: string)
    ensures MapAuthError(code).Some? ==> shown == MapAuthError(code).value
    ensures MapAuthError(code).None? && message.Some? && message.value != "" ==> shown == message.value
    ensures MapAuthError(code).None? && (message.None? || message.value == "") ==> shown == FALLBACK_ERROR
  {
    match MapAuthError(code)
    case Some(m) => m
    case None => if message.Some? && message.value != "" then message.value else FALLBACK_ERROR
  }

  /** Whatever fails, some message is shown. */
  lemma ShownErrorNonEmpty(code: Option<string>, message: Option<string>)
    ensures ShownError(code, message) != ""
  {
  }

  /** The form's rule: an email the email validator accepts, and a password
      of at least 6 code units. */
  predicate FormValid(email: string, emailAccepted: bool, password: string) {
    email != "" && emailAccepted && Utf16Length(password) >= MIN_PASSWORD
  }

  /** For a password without astral characters the bound is on its
      characters: valid exactly when it has at least six. */
  lemma PasswordBoundBmp(email: string, emailAccepted: bool, password: string)
    requires forall i | 0 <= i < |password| :: password[i] as int < 0x1_0000
    ensures FormValid(email, emailAccepted, password) <==>
      email != "" && emailAccepted && |password| >= MIN_PASSWORD
  {
    Utf16LengthBmp(password);
  }

  /** How account creation settled: created, or an auth error with an
      optional code and message. */
  datatype SignUp = Created | SignUpFailed(code: Option<string>, message: Option<string>)

  datatype Credentials = Credentials(email: string, password: string)

  class Registration {
    var email: string
    var password: string
    var loading: bool
    var error: Option<string>
    var ok: bool
    /** The account-creation requests sent, in order. */
    var requests: seq<Credentials>
    /** Requests sent to the router. */
    var effects: seq<Effect>

    ghost predicate Valid()
      reads this
    {
      !loading
    }

    constructor ()
      ensures Valid()
      ensures email == "" && password == "" && error == None && !ok && requests == [] && effects == []
    {
      email, password := "", "";
      loading, error, ok := false, None, false;
      requests, effects := [], [];
    }

    /** The user fills in the form. */
    method Edit(e: string, p: string)
      requires Valid()
      modifies this
      ensures Valid()
      ensures email == e && password == p
      ensures error == old(error) && ok == old(ok) && requests == old(requests) && effects == old(effects)
    {
      email, password := e, p;
    }

    /** Submits the form; `emailAccepted` is the email validator's verdict,
        `create` how account creation settles and `nav` how the navigation
        home settles. An invalid form is refused with no error and no
        request. Failure to create shows the mapped error; a created account
        sets `ok` and navigates home, and a refused navigation then also
        shows its error, leaving `ok` set. */
    method Submit(emailAccepted: bool, create: SignUp, nav: Outcome)
      requires Valid()
      modifies this
      ensures Valid()
      ensures email == old(email) && password == old(password)
      ensures !FormValid(old(email), emailAccepted, old(password)) ==>
        error == None && !ok && requests == old(requests) && effects == old(effects)
      ensures FormValid(old(email), emailAccepted, old(password)) ==>
        && requests == old(requests) + [Credentials(email, password)]
        && (create.SignUpFailed? ==>
              !ok && error == Some(ShownError(create.code, create.message)) && effects == old(effects))
        && (create.Created? ==>
              && ok && effects == old(effects) + [Navigate("/home")]
              && (nav.Resolved? ==> error == None)
              && (nav.Rejected? ==> error == Some(ShownError(None, nav.message))))
    {
      error := None;
      ok := false;
      if !FormValid(email, emailAccepted, password) {
        return;
      }
      loading := true;
      requests := requests + [Credentials(email, password)];
      match create {
        case SignUpFailed(code, message) =>
          error := Some(ShownError(code, message));
        case Created =>
          ok := true;
          effects := effects + [Navigate("/home")];
          match nav {
            case Resolved =>
            case Rejected(message) =>
              error := Some(ShownError(None, message));
          }
      }
      loading := false;
    }
  }
}
