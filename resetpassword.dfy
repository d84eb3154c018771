// src/pages/ResetPassword.jsx: the page a reset link opens. It reads the token from the query, checks the
// new password, calls the auth store's `resetPassword` and, on success, shows a confirmation and goes to
// /login after a short delay (an armed timer here).

module ResetPassword {
  import opened Js
  import opened Auth

  /** `params.get("token") || ""`. */
  function TokenOf(query: map<string, string>): (r: string)
    ensures "token" in query ==> r == query["token"]
    ensures "token" !in query ==> r == ""
  {
    if "token" in query then query["token"] else ""
  }

  const TokenMissing: string := "Reset token missing. Use the link from your email."
  const PasswordLength: string := "Password must be 8\U{2013}16 characters"
  const Mismatch: string := "Passwords do not match"

  /** `handleSubmit`'s checks, in order: a token, a password of 8 to 16 code units, a matching confirmation. */
  function ResetCheck(token: string, password: string, confirm: string): (r: Option<string>)
    ensures r.None? <==> token != "" && 8 <= JsLength(password) <= 16 && password == confirm
    ensures token == "" ==> r == Some(TokenMissing)
    ensures token != "" && !(8 <= JsLength(password) <= 16) ==> r == Some(PasswordLength)
    ensures token != "" && 8 <= JsLength(password) <= 16 && password != confirm ==> r == Some(Mismatch)
  {
    if token == "" then Some(TokenMissing)
    else if JsLength(password) < 8 || JsLength(password) > 16 then Some(PasswordLength)
    else if password != confirm then Some(Mismatch)
    else None
  }

  class ResetPasswordPage {
    const token: string
    var submitting: bool
    var err: string
    var ok: bool
    /** The navigation the 1200 ms timer will perform. */
    var pendingNav: Option<string>
    var navigatedTo: Option<string>

    constructor (query: map<string, string>)
      ensures token == TokenOf(query)
      ensures !submitting && err == "" && !ok && pendingNav == None && navigatedTo == None
    {
      token := TokenOf(query);
      submitting := false;
      err := "";
      ok := false;
      pendingNav := None;
      navigatedTo := None;
    }

    /** `handleSubmit` up to the request: ignored while submitting; a failed check sets `err` and sends
        nothing; otherwise `submitting` goes up and the token and password are sent. */
    method Submit(password: string, confirm: string) returns (sent: Option<ResetRequest>)
      modifies this
      ensures old(submitting) ==> sent.None? && submitting && err == old(err)
      ensures !old(submitting) && ResetCheck(token, password, confirm).Some? ==>
                sent.None? && !submitting && err == ResetCheck(token, password, confirm).value
      ensures !old(submitting) && ResetCheck(token, password, confirm).None? ==>
                sent == Some(ResetRequest(token, password)) && submitting && err == ""
      ensures ok == old(ok) && pendingNav == old(pendingNav) && navigatedTo == old(navigatedTo)
    {
      sent := None;
      if submitting {
        return;
      }
      err := "";
      var invalid := ResetCheck(token, password, confirm);
      if invalid.Some? {
        err := invalid.value;
        return;
      }
      submitting := true;
      sent := Some(ResetRequest(token, password));
    }

    /** `resetPassword` settled: `ok` shows the confirmation and arms the timer to /login; otherwise the
        store's message, else a default. */
    method Settled(res: ForgotResult)
      modifies this
      ensures !submitting && navigatedTo == old(navigatedTo)
      ensures res.ok ==> ok && pendingNav == Some("/login") && err == old(err)
      ensures !res.ok ==> err == OrElse(res.message, "Reset failed. Request a new link.") && err != ""
                          && ok == old(ok) && pendingNav == old(pendingNav)
    {
      submitting := false;
      if res.ok {
        ok := true;
        pendingNav := Some("/login");
      } else {
        err := OrElse(res.message, "Reset failed. Request a new link.");
      }
    }

    /** The timer fires. */
    method TimerFired()
      requires pendingNav.Some?
      modifies this
      ensures navigatedTo == old(pendingNav) && pendingNav == None
      ensures submitting == old(submitting) && err == old(err) && ok == old(ok)
    {
      navigatedTo := pendingNav;
      pendingNav := None;
    }
  }

  /** The store's verdict on a reply the server answered: only `success` counts, so a reply without it
      shows the default message. */
  lemma AnsweredWithoutSuccessFails()
    ensures ResetPassword(ResetAnswered(false)) == ForgotResult(false, None)
    ensures OrElse(ResetPassword(ResetAnswered(false)).message, "Reset failed. Request a new link.")
            == "Reset failed. Request a new link."
  {
  }
}
