// src/pages/Login.jsx: the sign-in form. It normalises and checks the e-mail, asks for a password of at
// least eight characters, calls the auth store's `login` and, once that settles, goes on to where the
// visitor came from or shows the store's message.

module Login {
  import opened Js
  import opened Auth
  import opened RequireAuth

  const EmailInvalid: string := "Enter a valid email address"
  const PasswordTooShort: string := "Password must be at least 8 characters"

  /** `submit`'s two checks, in order: the normalised e-mail, then the password length (no upper bound). */
  function LoginCheck(email: string, password: string): (r: Option<string>)
    ensures r.None? <==> ValidEmail(NormalizeEmail(email)) && JsLength(password) >= 8
    ensures !ValidEmail(NormalizeEmail(email)) ==> r == Some(EmailInvalid)
    ensures ValidEmail(NormalizeEmail(email)) && JsLength(password) < 8 ==> r == Some(PasswordTooShort)
  {
    if !ValidEmail(NormalizeEmail(email)) then Some(EmailInvalid)
    else if JsLength(password) < 8 then Some(PasswordTooShort)
    else None
  }

  /** What the page hands to `login`: the normalised e-mail and the password as typed. */
  function CredentialsFor(email: string, password: string): (r: Credentials)
    ensures r.identifier.None? && r.password == Some(password)
    ensures LoginBodyFor(r).Some? <==> NormalizeEmail(email) != ""
  {
    Credentials(Some(NormalizeEmail(email)), None, Some(password))
  }

  /** The store posts the page's e-mail unchanged: it is already normalised, so `login` never reports
      "Missing credentials" for it. */
  lemma PageCredentialsArePosted(email: string, password: string)
    requires LoginCheck(email, password).None?
    ensures LoginBodyFor(CredentialsFor(email, password)) == Some(EmailLogin(NormalizeEmail(email), Some(password)))
  {
    NormalizeEmailFixed(email);
  }

  class LoginPage {
    var submitting: bool
    var err: string
    var navigatedTo: Option<string>

    constructor ()
      ensures !submitting && err == "" && navigatedTo == None
    {
      submitting := false;
      err := "";
      navigatedTo := None;
    }

    /** `submit` up to the `login` call: ignored while submitting; a failed check shows its message and
        sends nothing; otherwise `submitting` goes up and the credentials are sent. */
    method Submit(email: string, password: string) returns (sent: Option<Credentials>)
      modifies this
      ensures old(submitting) ==> sent.None? && submitting && err == old(err)
      ensures !old(submitting) && LoginCheck(email, password).Some? ==>
                sent.None? && !submitting && err == LoginCheck(email, password).value
      ensures !old(submitting) && LoginCheck(email, password).None? ==>
                sent == Some(CredentialsFor(email, password)) && submitting && err == ""
      ensures navigatedTo == old(navigatedTo)
    {
      sent := None;
      if submitting {
        return;
      }
      err := "";
      var em := NormalizeEmail(email);
      if !ValidEmail(em) {
        err := EmailInvalid;
        return;
      }
      if JsLength(password) < 8 {
        err := PasswordTooShort;
        return;
      }
      submitting := true;
      sent := Some(Credentials(Some(em), None, Some(password)));
    }

    /** `login` settled: success goes to `from` (default "/"); failure shows the store's message, else
        "Invalid credentials". */
    method Settled(res: AuthResult, from: Option<string>)
      modifies this
      ensures !submitting
      ensures res.AuthOk? ==> navigatedTo == Some(ReturnTo(from)) && err == old(err)
      ensures res.AuthFailed? ==> navigatedTo == old(navigatedTo)
                                  && err == (if res.message != "" then res.message else "Invalid credentials")
    {
      submitting := false;
      match res
      case AuthOk(_) =>
        navigatedTo := Some(ReturnTo(from));
      case AuthFailed(message) =>
        err := if message != "" then message else "Invalid credentials";
    }

    /** The effect on `isAuthed`: a signed-in visitor is sent home. */
    method AuthedChanged(isAuthed: bool)
      modifies this
      ensures navigatedTo == (if isAuthed then Some("/") else old(navigatedTo))
      ensures submitting == old(submitting) && err == old(err)
    {
      if isAuthed {
        navigatedTo := Some("/");
      }
    }
  }
}
