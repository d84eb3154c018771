// src/pages/Register.jsx: the sign-up form. It previews a generated avatar, checks the fields in a fixed
// order, builds the payload for the auth store's `register` and, once that settles, goes on to where the
// visitor came from or shows the store's message. `new URL(...)` and `encodeURIComponent` are inputs.

module Register {
  import opened Js
  import opened Auth
  import opened RequireAuth

  // ---------------------------------------------------------------- default avatar

  /** `s.replace(/\s+/g, "-")`: every run of white space becomes one dash. */
  function DashRuns(s: string): (r: string)
    ensures NoSpace(r) && |r| <= |s|
    decreases |s|
  {
    if s == [] then []
    else if IsSpace(s[0]) then
      TrimStartDrops(s[1..]);
      "-" + DashRuns(TrimStart(s[1..]))
    else [s[0]] + DashRuns(s[1..])
  }

  /** A run of white space in front of a part that does not start with white space is trimmed off whole. */
  lemma {:induction false} TrimStartOfRun(sp: string, rest: string)
    requires forall i :: 0 <= i < |sp| ==> IsSpace(sp[i])
    requires rest == [] || !IsSpace(rest[0])
    ensures TrimStart(sp + rest) == rest
  {
    if sp == [] {
      assert sp + rest == rest;
    } else {
      assert (sp + rest)[1..] == sp[1..] + rest;
      TrimStartOfRun(sp[1..], rest);
    }
  }

  /** A word, then a run of white space, then the rest: the word is kept as it is and the whole run
      becomes one dash. */
  lemma {:induction false} DashRunsSplits(w: string, sp: string, rest: string)
    requires NoSpace(w)
    requires sp != [] && forall i :: 0 <= i < |sp| ==> IsSpace(sp[i])
    requires rest == [] || !IsSpace(rest[0])
    ensures DashRuns(w + sp + rest) == w + "-" + DashRuns(rest)
  {
    if w == [] {
      assert w + sp + rest == sp + rest;
      assert (sp + rest)[1..] == sp[1..] + rest;
      TrimStartOfRun(sp[1..], rest);
    } else {
      assert (w + sp + rest)[1..] == w[1..] + sp + rest;
      DashRunsSplits(w[1..], sp, rest);
      assert [w[0]] + (w[1..] + "-" + DashRuns(rest)) == w + "-" + DashRuns(rest);
    }
  }

  /** A string without white space goes through unchanged. */
  lemma {:induction false} DashRunsKeepsPlain(s: string)
    requires NoSpace(s)
    ensures DashRuns(s) == s
  {
    if s != [] {
      DashRunsKeepsPlain(s[1..]);
    }
  }

  /** The avatar seed: the trimmed username, else the trimmed full name, else "friend", with runs of white
      space as dashes and lower-cased. */
  function AvatarSeed(username: string, fullname: string): (r: string)
    ensures NoSpace(r) && r != ""
    ensures Trim(username) != "" ==> r == Seed(Trim(username))
    ensures Trim(username) == "" && Trim(fullname) != "" ==> r == Seed(Trim(fullname))
    ensures Trim(username) == "" && Trim(fullname) == "" ==> r == "friend"
  {
    var name := if Trim(username) != "" then Trim(username) else if Trim(fullname) != "" then Trim(fullname) else "friend";
    FriendIsItsOwnSeed();
    Seed(name)
  }

  /** `.replace(/\s+/g, "-").toLowerCase()` of a name that is not empty. */
  function Seed(name: string): (r: string)
    requires name != ""
    ensures NoSpace(r) && r != ""
  {
    var dashed := DashRuns(name);
    ToLowerKeepsSpace(dashed);
    ToLower(dashed)
  }

  /** A word of lower-case ASCII letters is its own seed. */
  lemma LowerWordIsItsOwnSeed(w: string)
    requires w != [] && forall i :: 0 <= i < |w| ==> 'a' <= w[i] <= 'z'
    ensures Seed(w) == w
  {
    DashRunsKeepsPlain(w);
    assert ToLower(w) == w;
  }

  lemma FriendIsItsOwnSeed()
    ensures Seed("friend") == "friend"
  {
    LowerWordIsItsOwnSeed("friend");
  }

  /** A username that is already a lower-case word is the seed as it is, whatever the full name. */
  lemma PlainUsernameIsSeed(username: string, fullname: string)
    requires username != [] && NoSpace(username) && ToLower(username) == username
    ensures AvatarSeed(username, fullname) == username
  {
    TrimNoop(username);
    DashRunsKeepsPlain(username);
  }

  const DicebearPrefix: string := "https://api.dicebear.com/7.x/initials/svg?seed="
  const DicebearSuffix: string := "&backgroundType=gradientLinear"

  /** `buildDefaultAvatar(form)`: a dicebear initials image seeded as above; the encoded seed sits between
      the fixed prefix and suffix, so it can be read back. */
  function DefaultAvatar(username: string, fullname: string, encode: string -> string): (r: string)
    ensures StartsWith(r, DicebearPrefix) && EndsWith(r, DicebearSuffix)
    ensures |r| == |DicebearPrefix| + |encode(AvatarSeed(username, fullname))| + |DicebearSuffix|
    ensures r[|DicebearPrefix|..|r| - |DicebearSuffix|] == encode(AvatarSeed(username, fullname))
  {
    var r := DicebearPrefix + encode(AvatarSeed(username, fullname)) + DicebearSuffix;
    assert r[..|DicebearPrefix|] == DicebearPrefix;
    assert r[|r| - |DicebearSuffix|..] == DicebearSuffix;
    r
  }

  // ---------------------------------------------------------------- validation

  datatype RegisterForm = RegisterForm(fullname: string, username: string, email: string, phone: string,
                                       password: string, confirm: string)

  /** The avatar controls: the automatic preview or a URL of the user's own. */
  datatype AvatarChoice = Auto | Custom(url: string)

  /** `resolvedAvatar`: the preview in auto mode, the trimmed URL in custom mode. */
  function ResolvedAvatar(form: RegisterForm, choice: AvatarChoice, encode: string -> string): (r: string)
    ensures choice.Auto? ==> r == DefaultAvatar(form.username, form.fullname, encode)
    ensures choice.Auto? ==> StartsWith(r, DicebearPrefix) && r != ""
    ensures choice.Custom? ==> r == Trim(choice.url) && Trim(r) == r
  {
    TrimIdempotent(if choice.Custom? then choice.url else "");
    match choice
    case Auto => DefaultAvatar(form.username, form.fullname, encode)
    case Custom(url) => Trim(url)
  }

  const PhoneInvalid: string := "Phone must be 10\U{2013}15 digits (numbers only)"
  const PasswordLength: string := "Password must be 8\U{2013}16 characters"

  /** The first two checks of `validate`: both names are there once trimmed. */
  predicate NamesPass(form: RegisterForm) {
    Trim(form.fullname) != "" && Trim(form.username) != ""
  }

  /** The first four checks: the names, an e-mail of the pattern, and 10 to 15 phone digits. */
  predicate ContactPasses(form: RegisterForm) {
    NamesPass(form) && ValidEmail(Trim(form.email)) && 10 <= |DigitsOnly(form.phone)| <= 15
  }

  /** The two password checks: 8 to 16 code units, and the confirmation equal to it. */
  predicate PasswordPasses(form: RegisterForm) {
    8 <= JsLength(form.password) <= 16 && form.password == form.confirm
  }

  /** `validate()`: the first failing check's message, in the order the checks are made, or "" when every
      check passes. */
  function Validate(form: RegisterForm, choice: AvatarChoice, parse: UrlParser): (r: string)
    ensures r == "" <==>
              Trim(form.fullname) != "" && Trim(form.username) != "" && ValidEmail(Trim(form.email))
              && 10 <= |DigitsOnly(form.phone)| <= 15
              && 8 <= JsLength(form.password) <= 16 && form.password == form.confirm
              && (choice.Custom? ==> Trim(choice.url) != "" && parse(Trim(choice.url)).Some?
                                     && HttpProtocol(parse(Trim(choice.url)).value))
    ensures Trim(form.fullname) == "" ==> r == "Full name is required"
    ensures Trim(form.fullname) != "" && Trim(form.username) == "" ==> r == "Username is required"
    ensures NamesPass(form) && !ValidEmail(Trim(form.email)) ==> r == "Enter a valid email"
    ensures NamesPass(form) && ValidEmail(Trim(form.email)) && !(10 <= |DigitsOnly(form.phone)| <= 15) ==>
              r == PhoneInvalid
    ensures ContactPasses(form) && !(8 <= JsLength(form.password) <= 16) ==> r == PasswordLength
    ensures ContactPasses(form) && 8 <= JsLength(form.password) <= 16 && form.password != form.confirm ==>
              r == "Passwords do not match"
    ensures ContactPasses(form) && PasswordPasses(form) && choice.Custom? ==>
              (Trim(choice.url) == "" ==> r == "Enter an avatar URL or switch to Auto")
              && (Trim(choice.url) != "" && parse(Trim(choice.url)).None? ==> r == "Enter a valid avatar URL")
              && (Trim(choice.url) != "" && parse(Trim(choice.url)).Some? && !HttpProtocol(parse(Trim(choice.url)).value)
                  ==> r == "Avatar URL must be http(s)")
    ensures ContactPasses(form) && PasswordPasses(form) && choice.Auto? ==> r == ""
  {
    var digits := DigitsOnly(form.phone);
    var len := JsLength(form.password);
    if Trim(form.fullname) == "" then "Full name is required"
    else if Trim(form.username) == "" then "Username is required"
    else if !ValidEmail(Trim(form.email)) then "Enter a valid email"
    else if !(10 <= |digits| <= 15) then PhoneInvalid
    else if len < 8 || len > 16 then PasswordLength
    else if form.password != form.confirm then "Passwords do not match"
    else if choice.Custom? then
      var url := Trim(choice.url);
      if url == "" then "Enter an avatar URL or switch to Auto"
      else if parse(url).None? then "Enter a valid avatar URL"
      else if !HttpProtocol(parse(url).value) then "Avatar URL must be http(s)"
      else ""
    else ""
  }

  // ---------------------------------------------------------------- payload

  /** The body handed to `register`; `avatar` is a key only a custom URL adds. */
  datatype RegisterPayload = RegisterPayload(fullname: string, username: string, email: string,
                                             contactPhone: string, password: string, avatar: Option<string>)

  function Payload(form: RegisterForm, choice: AvatarChoice, encode: string -> string): (r: RegisterPayload)
    ensures r.fullname == Trim(form.fullname) && r.username == Trim(form.username)
    ensures r.password == form.password && r.email == NormalizeEmail(form.email)
    ensures r.contactPhone == DigitsOnly(form.phone) && AllDigits(r.contactPhone)
    ensures r.avatar.Some? <==> choice.Custom? && Trim(choice.url) != ""
    ensures r.avatar.Some? ==> r.avatar.value == Trim(choice.url)
  {
    var resolved := ResolvedAvatar(form, choice, encode);
    RegisterPayload(Trim(form.fullname), Trim(form.username), NormalizeEmail(form.email), DigitsOnly(form.phone),
                    form.password, if choice.Custom? && resolved != "" then Some(resolved) else None)
  }

  /** What a form that passes `validate` sends: names present, 10 to 15 phone digits, a password of 8 to 16
      code units, and only an http(s) avatar. */
  lemma ValidFormPayload(form: RegisterForm, choice: AvatarChoice, parse: UrlParser, encode: string -> string)
    requires Validate(form, choice, parse) == ""
    ensures var p := Payload(form, choice, encode);
            p.fullname != "" && p.username != "" && 10 <= |p.contactPhone| <= 15
            && 8 <= JsLength(p.password) <= 16
            && (p.avatar.Some? ==> parse(p.avatar.value).Some? && HttpProtocol(parse(p.avatar.value).value))
  {
  }

  // ---------------------------------------------------------------- the page

  class RegisterPage {
    var submitting: bool
    var error: string
    var navigatedTo: Option<string>

    constructor ()
      ensures !submitting && error == "" && navigatedTo == None
    {
      submitting := false;
      error := "";
      navigatedTo := None;
    }

    /** `onSubmit` up to the `register` call: ignored while submitting; a failed check shows its message and
        sends nothing; otherwise `submitting` goes up and the payload is sent. */
    method Submit(form: RegisterForm, choice: AvatarChoice, parse: UrlParser, encode: string -> string)
      returns (sent: Option<RegisterPayload>)
      modifies this
      ensures old(submitting) ==> sent.None? && submitting && error == old(error)
      ensures !old(submitting) && Validate(form, choice, parse) != "" ==>
                sent.None? && !submitting && error == Validate(form, choice, parse)
      ensures !old(submitting) && Validate(form, choice, parse) == "" ==>
                sent == Some(Payload(form, choice, encode)) && submitting && error == ""
      ensures navigatedTo == old(navigatedTo)
    {
      sent := None;
      if submitting {
        return;
      }
      error := "";
      var msg := Validate(form, choice, parse);
      if msg != "" {
        error := msg;
        return;
      }
      submitting := true;
      sent := Some(Payload(form, choice, encode));
    }

    /** `register` settled: success goes to `from` (default "/"), replacing the entry; failure shows the
        store's message, else a default. */
    method Settled(res: AuthResult, from: Option<string>)
      modifies this
      ensures !submitting
      ensures res.AuthOk? ==> navigatedTo == Some(ReturnTo(from)) && error == old(error)
      ensures res.AuthFailed? ==> navigatedTo == old(navigatedTo) && error != ""
                                  && (res.message != "" ==> error == res.message)
    {
      submitting := false;
      match res
      case AuthOk(_) =>
        navigatedTo := Some(ReturnTo(from));
      case AuthFailed(message) =>
        error := if message != "" then message else "Registration failed. Please try again.";
    }

    /** The effect on `isAuthed`: a signed-in visitor is sent home. */
    method AuthedChanged(isAuthed: bool)
      modifies this
      ensures navigatedTo == (if isAuthed then Some("/") else old(navigatedTo))
      ensures submitting == old(submitting) && error == old(error)
    {
      if isAuthed {
        navigatedTo := Some("/");
      }
    }
  }
}
