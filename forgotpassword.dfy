// src/pages/ForgotPassword.jsx: the "forgot password" page. It asks the auth store for a reset link for a
// normalised e-mail; when the reply carries the link, it shows it (as an in-app link when it points at this
// site) together with an inline form that resets the password with the link's token.

module ForgotPassword {
  import opened Js
  import opened Auth

  /** `toRelativeIfSameOrigin(link)`: a link to this site becomes its path, query and fragment; any other
      link, or one `new URL` rejects, is kept as it is. */
  function ToRelativeIfSameOrigin(link: string, parse: UrlParser, hereOrigin: string): (r: string)
    ensures parse(link).None? ==> r == link
    ensures parse(link).Some? && parse(link).value.origin != hereOrigin ==> r == link
    ensures parse(link).Some? && parse(link).value.origin == hereOrigin ==>
              r == parse(link).value.pathname + parse(link).value.search + parse(link).value.hash
  {
    match parse(link)
    case None => link
    case Some(u) => if u.origin == hereOrigin then u.pathname + u.search + u.hash else link
  }

  /** `new URL(link).searchParams.get("token") || ""`; a link that does not parse leaves the cleared "". */
  function TokenFromLink(link: string, parse: UrlParser): (r: string)
    ensures parse(link).Some? && "token" in parse(link).value.query ==> r == parse(link).value.query["token"]
    ensures parse(link).None? || "token" !in parse(link).value.query ==> r == ""
  {
    match parse(link)
    case None => ""
    case Some(u) => if "token" in u.query then u.query["token"] else ""
  }

  const NeutralStatus: string := "If an account exists for that email, we\U{2019}ve sent a reset link."
  const MissingToken: string := "Missing token. Please use the link above."
  const PasswordLength: string := "Password must be 8\U{2013}128 characters."
  const Mismatch: string := "Passwords do not match."
  const Updated: string := "\U{2705} Password updated. You can sign in with your new password."

  /** `onInlineReset`'s checks, in order: a token, a password of 8 to 128 code units, a matching confirmation. */
  function InlineResetCheck(token: string, pwd: string, pwd2: string): (r: Option<string>)
    ensures r.None? <==> token != "" && 8 <= JsLength(pwd) <= 128 && pwd == pwd2
    ensures token == "" ==> r == Some(MissingToken)
    ensures token != "" && !(8 <= JsLength(pwd) <= 128) ==> r == Some(PasswordLength)
    ensures token != "" && 8 <= JsLength(pwd) <= 128 && pwd != pwd2 ==> r == Some(Mismatch)
  {
    if token == "" then Some(MissingToken)
    else if JsLength(pwd) < 8 || JsLength(pwd) > 128 then Some(PasswordLength)
    else if pwd != pwd2 then Some(Mismatch)
    else None
  }

  const ResetExpired: string := "Could not reset password. The link may be expired."

  /** The message once the inline reset settles: the confirmation on `ok` (the store never sets `success`),
      else the store's message, else the expiry hint. */
  function ResetMessage(res: ForgotResult): (r: string)
    ensures r != ""
    ensures res.ok ==> r == Updated
    ensures !res.ok && Truthy(res.message) ==> r == res.message.value
  {
    if res.ok then Updated else OrElse(res.message, ResetExpired)
  }

  /** Against the auth store: the confirmation when the server answered with `success`, the expiry hint when
      it answered without it, and the store's own message when the request failed. */
  lemma InlineResetAgainstStore(outcome: ResetOutcome)
    ensures outcome == ResetAnswered(true) ==> ResetMessage(ResetPassword(outcome)) == Updated
    ensures outcome == ResetAnswered(false) ==> ResetMessage(ResetPassword(outcome)) == ResetExpired
    ensures outcome.ResetThrew? ==> ResetMessage(ResetPassword(outcome)) == ResetPassword(outcome).message.value
  {
  }

  class ForgotPasswordPage {
    var submitting: bool
    var err: string
    var status: string
    var resetLink: string
    var token: string
    var resetting: bool
    var resetMsg: string

    constructor ()
      ensures !submitting && err == "" && status == "" && resetLink == "" && token == "" && !resetting && resetMsg == ""
    {
      submitting := false;
      err := "";
      status := "";
      resetLink := "";
      token := "";
      resetting := false;
      resetMsg := "";
    }

    /** `onSubmit` up to the request: ignored while submitting; otherwise everything shown is cleared, and a
        normalised e-mail that fails the pattern shows an error instead of being sent. */
    method Submit(email: string) returns (sent: Option<string>)
      modifies this
      ensures old(submitting) ==> sent.None? && submitting && err == old(err) && status == old(status)
                                  && resetLink == old(resetLink) && token == old(token) && resetMsg == old(resetMsg)
      ensures !old(submitting) ==> status == "" && resetLink == "" && token == "" && resetMsg == ""
      ensures !old(submitting) && !ValidEmail(NormalizeEmail(email)) ==> sent.None? && err == "Enter a valid email" && !submitting
      ensures !old(submitting) && ValidEmail(NormalizeEmail(email)) ==> sent == Some(NormalizeEmail(email)) && err == "" && submitting
      ensures resetting == old(resetting)
    {
      sent := None;
      if submitting {
        return;
      }
      err := "";
      status := "";
      resetLink := "";
      token := "";
      resetMsg := "";
      var value := NormalizeEmail(email);
      if !ValidEmail(value) {
        err := "Enter a valid email";
        return;
      }
      submitting := true;
      sent := Some(value);
    }

    /** The request settled with `res.link`: a link is shown with the token taken from it; without one, the
        neutral status. */
    method Settled(link: Option<string>, parse: UrlParser)
      modifies this
      ensures !submitting && err == old(err) && resetMsg == old(resetMsg) && resetting == old(resetting)
      ensures Truthy(link) ==> resetLink == link.value && status == ""
                               && token == (if parse(link.value).Some? then TokenFromLink(link.value, parse) else old(token))
      ensures !Truthy(link) ==> status == NeutralStatus && resetLink == old(resetLink) && token == old(token)
    {
      if Truthy(link) {
        resetLink := link.value;
        status := "";
        if parse(link.value).Some? {
          token := TokenFromLink(link.value, parse);
        }
      } else {
        status := NeutralStatus;
      }
      submitting := false;
    }

    /** `onInlineReset` up to the request: ignored while resetting; a failed check shows its message. */
    method InlineReset(pwd: string, pwd2: string) returns (sent: Option<ResetRequest>)
      modifies this
      ensures old(resetting) ==> sent.None? && resetting && resetMsg == old(resetMsg)
      ensures !old(resetting) && InlineResetCheck(token, pwd, pwd2).Some? ==>
                sent.None? && !resetting && resetMsg == InlineResetCheck(token, pwd, pwd2).value
      ensures !old(resetting) && InlineResetCheck(token, pwd, pwd2).None? ==>
                sent == Some(ResetRequest(token, pwd)) && resetting && resetMsg == ""
      ensures submitting == old(submitting) && err == old(err) && status == old(status)
      ensures resetLink == old(resetLink) && token == old(token)
    {
      sent := None;
      if resetting {
        return;
      }
      resetMsg := "";
      var invalid := InlineResetCheck(token, pwd, pwd2);
      if invalid.Some? {
        resetMsg := invalid.value;
        return;
      }
      resetting := true;
      sent := Some(ResetRequest(token, pwd));
    }

    /** The inline reset settled. */
    method InlineResetSettled(res: ForgotResult)
      modifies this
      ensures !resetting && resetMsg == ResetMessage(res)
      ensures submitting == old(submitting) && err == old(err) && status == old(status)
      ensures resetLink == old(resetLink) && token == old(token)
    {
      resetMsg := ResetMessage(res);
      resetting := false;
    }
  }
}
