// src/pages/Profile.jsx: the signed-in user's profile. The page shows the avatar (uploaded, or a generated
// one), a WhatsApp link for the phone, and an edit form whose submit validates the fields and PATCHes only
// what changed. The PATCH's reply is an input, and the `loadMe()` refresh that follows a successful one is
// the auth store's business.

module Profile {
  import opened Js
  import opened Session
  import opened Uploads

  /** The edit form. */
  datatype ProfileForm = ProfileForm(fullname: string, username: string, phone: string, avatar: string)

  const BlankForm: ProfileForm := ProfileForm("", "", "", "")

  /** The form filled from the user, missing fields as "". */
  function FormOf(user: Option<User>): (r: ProfileForm)
    ensures user.None? ==> r == BlankForm
    ensures user.Some? ==> r.fullname == OrElse(user.value.fullname, "") && r.username == OrElse(user.value.username, "")
                           && r.phone == OrElse(user.value.phone, "") && r.avatar == OrElse(user.value.avatar, "")
  {
    if user.None? then BlankForm
    else ProfileForm(OrElse(user.value.fullname, ""), OrElse(user.value.username, ""),
                     OrElse(user.value.phone, ""), OrElse(user.value.avatar, ""))
  }

  // ---------------------------------------------------------------- identity card

  /** The header image: the resolved avatar, else a generated one seeded by the name. */
  function AvatarSrc(user: Option<User>, baseURL: string, encode: string -> string): (r: string)
    ensures r != ""
    ensures user.Some? && ResolveAgainstApiBase(user.value.avatar, baseURL).Some? ==>
              r == ResolveAgainstApiBase(user.value.avatar, baseURL).value
  {
    var resolved := if user.Some? then ResolveAgainstApiBase(user.value.avatar, baseURL) else None;
    if Truthy(resolved) then resolved.value
    else
      var seed := if user.Some? then OrElse(Or(user.value.fullname, user.value.username), "Friend") else "Friend";
      "https://api.dicebear.com/7.x/initials/svg?seed=" + encode(seed) + "&backgroundType=gradientLinear"
  }

  /** The WhatsApp link: only when the phone has a digit, and it dials those digits. */
  function WaLink(user: Option<User>, encode: string -> string): (r: Option<string>)
    ensures r.Some? <==> user.Some? && DigitsOf(user.value.phone) != ""
    ensures r.Some? ==> StartsWith(r.value, "https://wa.me/" + DigitsOf(user.value.phone) + "?text=")
  {
    var digits := if user.Some? then DigitsOf(user.value.phone) else "";
    if digits == "" then None
    else
      var name := if user.Some? then OrElse(Or(user.value.fullname, user.value.username), "") else "";
      var head := "https://wa.me/" + digits + "?text=";
      var link := head + encode("Hi " + name + "!");
      assert link[..|head|] == head;
      Some(link)
  }

  // ---------------------------------------------------------------- the diff

  /** The PATCH body: a key is present only when the field is to change. */
  datatype Diff = Diff(fullname: Option<string>, username: Option<string>, phone: Option<string>, avatar: Option<string>)

  const NoChanges: Diff := Diff(None, None, None, None)

  /** A name is sent when the trimmed value is non-empty and differs from the user's. */
  function NameChange(candidate: string, current: Option<string>): Option<string> {
    if candidate != "" && candidate != OrElse(current, "") then Some(candidate) else None
  }

  /** The phone is compared as digits, and an empty one is never sent. */
  function PhoneChange(candidate: string, current: Option<string>): Option<string> {
    if candidate != DigitsOnly(OrElse(current, "")) && candidate != "" then Some(candidate) else None
  }

  /** The avatar is sent whenever it differs, "" included, which clears it. */
  function AvatarChange(candidate: string, current: Option<string>): Option<string> {
    if candidate != OrElse(current, "") then Some(candidate) else None
  }

  /** `buildDiffPayload()`: null without a user, else the changed fields. */
  function DiffFor(user: Option<User>, form: ProfileForm): (r: Option<Diff>)
    ensures r.None? <==> user.None?
  {
    if user.None? then None
    else
      var u := user.value;
      Some(Diff(NameChange(Trim(form.fullname), u.fullname), NameChange(Trim(form.username), u.username),
                PhoneChange(DigitsOnly(form.phone), u.phone), AvatarChange(Trim(form.avatar), u.avatar)))
  }

  /** `buildDiffPayload`, as the page writes it: start from `{}` and add each changed field in turn. */
  method BuildDiffPayload(user: Option<User>, form: ProfileForm) returns (diff: Option<Diff>)
    ensures diff == DiffFor(user, form)
  {
    if user.None? {
      return None;
    }
    var u := user.value;
    var phoneDigits := DigitsOnly(form.phone);
    var fullname, username, avatar := Trim(form.fullname), Trim(form.username), Trim(form.avatar);
    var d := NoChanges;
    if fullname != "" && fullname != OrElse(u.fullname, "") {
      d := d.(fullname := Some(fullname));
    }
    if username != "" && username != OrElse(u.username, "") {
      d := d.(username := Some(username));
    }
    if phoneDigits != DigitsOnly(OrElse(u.phone, "")) {
      if phoneDigits != "" {
        d := d.(phone := Some(phoneDigits));
      }
    }
    if avatar != OrElse(u.avatar, "") {
      if avatar != "" {
        d := d.(avatar := Some(avatar));
      } else {
        d := d.(avatar := Some(""));
      }
    }
    diff := Some(d);
  }

  /** Every key the diff carries holds a real change, in its normalised form. */
  lemma DiffOnlyChanges(u: User, form: ProfileForm)
    ensures var d := DiffFor(Some(u), form).value;
            (d.fullname.Some? ==> d.fullname.value == Trim(form.fullname) && d.fullname.value != ""
                                  && d.fullname.value != OrElse(u.fullname, ""))
            && (d.username.Some? ==> d.username.value == Trim(form.username) && d.username.value != ""
                                     && d.username.value != OrElse(u.username, ""))
            && (d.phone.Some? ==> d.phone.value == DigitsOnly(form.phone) && AllDigits(d.phone.value)
                                  && d.phone.value != "" && d.phone.value != DigitsOnly(OrElse(u.phone, "")))
            && (d.avatar.Some? ==> d.avatar.value == Trim(form.avatar) && d.avatar.value != OrElse(u.avatar, ""))
  {
  }

  /** Every real change is in the diff, except a phone or a name cleared to nothing. */
  lemma DiffHasEveryChange(u: User, form: ProfileForm)
    ensures var d := DiffFor(Some(u), form).value;
            (Trim(form.fullname) != "" && Trim(form.fullname) != OrElse(u.fullname, "") ==> d.fullname.Some?)
            && (Trim(form.username) != "" && Trim(form.username) != OrElse(u.username, "") ==> d.username.Some?)
            && (DigitsOnly(form.phone) != "" && DigitsOnly(form.phone) != DigitsOnly(OrElse(u.phone, "")) ==> d.phone.Some?)
            && (Trim(form.avatar) != OrElse(u.avatar, "") ==> d.avatar.Some?)
  {
  }

  /** Saving the form as it was filled from the user sends nothing, when the stored text fields carry no
      surrounding white space. */
  lemma UntouchedFormSendsNothing(u: User)
    requires Trimmed(OrElse(u.fullname, "")) && Trimmed(OrElse(u.username, "")) && Trimmed(OrElse(u.avatar, ""))
    ensures DiffFor(Some(u), FormOf(Some(u))) == Some(NoChanges)
  {
    TrimNoop(OrElse(u.fullname, ""));
    TrimNoop(OrElse(u.username, ""));
    TrimNoop(OrElse(u.avatar, ""));
  }

  /** The user as the server stores it once the diff is applied. */
  function Applied(u: User, d: Diff): (r: User)
    ensures r.oid == u.oid && r.id == u.id
    ensures d == NoChanges ==> r == u
  {
    u.(fullname := Coalesce(d.fullname, u.fullname), username := Coalesce(d.username, u.username),
       phone := Coalesce(d.phone, u.phone), avatar := Coalesce(d.avatar, u.avatar))
  }

  /** Once the server has applied the diff, the same form has nothing left to send. */
  lemma DiffSettles(u: User, form: ProfileForm)
    ensures DiffFor(Some(Applied(u, DiffFor(Some(u), form).value)), form) == Some(NoChanges)
  {
    var phone := DigitsOnly(form.phone);
    DigitsOnlyIdempotent(form.phone);
    assert DigitsOnly(phone) == phone;
  }

  // ---------------------------------------------------------------- validation

  const FullnameRequired: string := "Full name is required."
  const UsernameRequired: string := "Username is required."
  const PhoneInvalid: string := "Phone must be 10\U{2013}15 digits (numbers only)."
  const AvatarInvalid: string := "Avatar URL must be a valid http(s) link."

  /** `new URL(avatar)` succeeds with an http or https protocol. */
  predicate AvatarAccepted(avatar: string, parse: UrlParser) {
    parse(avatar).Some? && HttpProtocol(parse(avatar).value)
  }

  /** `submit`'s checks, first failure first: the names are required, a phone needs 10 to 15 digits, and an
      avatar must be an http(s) URL. */
  function ValidationError(form: ProfileForm, parse: UrlParser): (r: Option<string>)
    ensures r.None? <==> Trim(form.fullname) != "" && Trim(form.username) != ""
                         && (DigitsOnly(form.phone) == "" || 10 <= |DigitsOnly(form.phone)| <= 15)
                         && (form.avatar == "" || AvatarAccepted(form.avatar, parse))
    ensures Trim(form.fullname) == "" ==> r == Some(FullnameRequired)
    ensures Trim(form.fullname) != "" && Trim(form.username) == "" ==> r == Some(UsernameRequired)
    ensures (Trim(form.fullname) != "" && Trim(form.username) != ""
             && DigitsOnly(form.phone) != "" && !(10 <= |DigitsOnly(form.phone)| <= 15))
            ==> r == Some(PhoneInvalid)
    ensures (Trim(form.fullname) != "" && Trim(form.username) != ""
             && (DigitsOnly(form.phone) == "" || 10 <= |DigitsOnly(form.phone)| <= 15)
             && form.avatar != "" && !AvatarAccepted(form.avatar, parse))
            ==> r == Some(AvatarInvalid)
  {
    var digits := DigitsOnly(form.phone);
    if Trim(form.fullname) == "" then Some(FullnameRequired)
    else if Trim(form.username) == "" then Some(UsernameRequired)
    else if digits != "" && !(10 <= |digits| <= 15) then Some(PhoneInvalid)
    else if form.avatar != "" && !AvatarAccepted(form.avatar, parse) then Some(AvatarInvalid)
    else None
  }

  /** A form that passes validation never sends a phone outside 10 to 15 digits. */
  lemma ValidFormSendsValidPhone(u: User, form: ProfileForm, parse: UrlParser)
    requires ValidationError(form, parse).None?
    ensures var p := DiffFor(Some(u), form).value.phone;
            p.Some? ==> AllDigits(p.value) && 10 <= |p.value| <= 15
  {
    var digits := DigitsOnly(form.phone);
    assert digits == "" || 10 <= |digits| <= 15;
    assert DiffFor(Some(u), form).value.phone == PhoneChange(digits, u.phone);
  }

  /** What `submit` does once it is not ignored. */
  datatype Decision = Rejected(message: string) | NothingToUpdate | Send(diff: Diff)

  /** The first failed check rejects the form; a missing user or an empty diff sends nothing. */
  function SubmitDecision(user: Option<User>, form: ProfileForm, parse: UrlParser): (r: Decision)
    ensures r.Rejected? <==> ValidationError(form, parse).Some?
    ensures r.Rejected? ==> r.message == ValidationError(form, parse).value
    ensures r.Send? <==> ValidationError(form, parse).None? && user.Some? && DiffFor(user, form).value != NoChanges
    ensures r.Send? ==> Some(r.diff) == DiffFor(user, form)
  {
    var invalid := ValidationError(form, parse);
    if invalid.Some? then Rejected(invalid.value)
    else
      var payload := DiffFor(user, form);
      if payload.None? || payload.value == NoChanges then NothingToUpdate else Send(payload.value)
  }

  /** A profile PATCH always carries at least one change, and never an invalid phone. */
  lemma SentDiffIsValid(user: Option<User>, form: ProfileForm, parse: UrlParser)
    requires SubmitDecision(user, form, parse).Send?
    ensures var d := SubmitDecision(user, form, parse).diff;
            d != NoChanges && (d.phone.Some? ==> AllDigits(d.phone.value) && 10 <= |d.phone.value| <= 15)
  {
    ValidFormSendsValidPhone(user.value, form, parse);
  }

  // ---------------------------------------------------------------- the page

  class ProfilePage {
    var editing: bool
    var saving: bool
    var err: string
    var ok: string
    var form: ProfileForm

    constructor ()
      ensures !editing && !saving && err == "" && ok == "" && form == BlankForm
    {
      editing := false;
      saving := false;
      err := "";
      ok := "";
      form := BlankForm;
    }

    /** The effect on `user`: a signed-in user refills the form; signing out leaves it. */
    method UserChanged(user: Option<User>)
      modifies this
      ensures user.Some? ==> form == FormOf(user)
      ensures user.None? ==> form == old(form)
      ensures editing == old(editing) && saving == old(saving) && err == old(err) && ok == old(ok)
    {
      if user.Some? {
        form := FormOf(user);
      }
    }

    /** "Edit profile". */
    method StartEditing()
      modifies this
      ensures editing && saving == old(saving) && err == old(err) && ok == old(ok) && form == old(form)
    {
      editing := true;
    }

    /** "Cancel": leave editing, clear the messages and refill the form from the user. */
    method Cancel(user: Option<User>)
      modifies this
      ensures !editing && err == "" && ok == "" && form == FormOf(user) && saving == old(saving)
    {
      editing := false;
      err := "";
      ok := "";
      form := FormOf(user);
    }

    /** `submit` up to the request: ignored while saving; a failed check sets `err`; an empty diff says
        "Nothing to update." and leaves editing; otherwise `saving` goes up and the diff is sent. */
    method Submit(user: Option<User>, parse: UrlParser) returns (sent: Option<Diff>)
      modifies this
      ensures old(saving) ==> sent.None? && err == old(err) && ok == old(ok) && editing == old(editing) && saving
      ensures !old(saving) ==>
                match SubmitDecision(user, form, parse)
                case Rejected(message) => sent.None? && err == message && ok == "" && editing == old(editing) && !saving
                case NothingToUpdate => sent.None? && err == "" && ok == "Nothing to update." && !editing && !saving
                case Send(diff) => sent == Some(diff) && err == "" && ok == "" && editing == old(editing) && saving
      ensures form == old(form)
    {
      sent := None;
      if saving {
        return;
      }
      err := "";
      ok := "";
      var invalid := ValidationError(form, parse);
      if invalid.Some? {
        err := invalid.value;
        return;
      }
      var payload := BuildDiffPayload(user, form);
      if payload.None? || payload.value == NoChanges {
        ok := "Nothing to update.";
        editing := false;
        return;
      }
      saving := true;
      sent := payload;
    }

    /** The PATCH settles: None when it succeeded, else what it threw. */
    method PatchSettled(thrown: Option<Thrown>)
      modifies this
      ensures !saving && form == old(form)
      ensures thrown.None? ==> ok == "Profile updated!" && !editing && err == old(err)
      ensures thrown.Some? ==> err == ErrorText(thrown.value, "Failed to update profile.") && err != ""
                               && ok == old(ok) && editing == old(editing)
    {
      if thrown.None? {
        ok := "Profile updated!";
        editing := false;
      } else {
        err := ErrorText(thrown.value, "Failed to update profile.");
      }
      saving := false;
    }
  }
}
