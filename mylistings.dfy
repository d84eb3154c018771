// src/pages/MyListings.jsx: the card the owner's listings page draws for each pet. It resolves the first
// stored photo against the API origin, writes the age as "Ny Mm", maps the status to a badge, links to
// the pet's page and keeps a local "liked" heart.

module MyListings {
  import opened Js
  import opened PetData
  import opened Uploads

  /** The card's photo: the first stored photo, resolved against the origin. */
  function CardPhoto(p: Pet, origin: string): (r: Option<string>)
    ensures p.photos.None? || p.photos.value == [] ==> r.None?
    ensures p.photos.Some? && p.photos.value != [] ==> r == ResolveAgainstOrigin(p.photos.value[0], origin)
  {
    var raw := if p.photos.Some? && |p.photos.value| > 0 then p.photos.value[0] else None;
    ResolveAgainstOrigin(raw, origin)
  }

  /** Photos added later do not change the card: it keeps showing the oldest one. */
  lemma NewPhotoKeepsCard(p: Pet, added: seq<Option<string>>, origin: string)
    requires p.photos.Some? && p.photos.value != []
    ensures CardPhoto(p.(photos := Some(p.photos.value + added)), origin) == CardPhoto(p, origin)
  {
    assert (p.photos.value + added)[0] == p.photos.value[0];
  }

  // ---------------------------------------------------------------- age chip

  const Dash: string := "\U{2014}"

  /** A number is truthy unless it is 0. */
  predicate Counts(n: Option<int>) {
    n.Some? && n.value != 0
  }

  /** `ageText`: the years as "Ny" and the months as "Mm", joined by a space, each left out when missing or
      zero; "—" when both are. */
  function AgeText(years: Option<int>, months: Option<int>): (r: string)
    ensures r == Dash <==> !Counts(years) && !Counts(months)
    ensures Counts(years) ==> StartsWith(r, IntToString(years.value) + "y")
    ensures Counts(months) ==> EndsWith(r, IntToString(months.value) + "m")
    ensures !Counts(months) && Counts(years) ==> r[|r| - 1] == 'y'
  {
    if Counts(years) && Counts(months) then
      var y := IntToString(years.value) + "y";
      var m := IntToString(months.value) + "m";
      assert (y + " " + m)[..|y|] == y;
      assert (y + " " + m)[|y + " " + m| - |m|..] == m;
      y + " " + m
    else if Counts(years) then IntToString(years.value) + "y"
    else if Counts(months) then IntToString(months.value) + "m"
    else Dash
  }

  /** The digits a shown age opens with. */
  function AgeLead(y: nat, m: nat): string {
    if y != 0 then NatToString(y) else NatToString(m)
  }

  /** What follows the opening digits. */
  function AgeRest(y: nat, m: nat): string {
    if y != 0 && m != 0 then "y " + NatToString(m) + "m" else if y != 0 then "y" else "m"
  }

  lemma AgeTextSplits(y: nat, m: nat)
    requires y != 0 || m != 0
    ensures AgeText(Some(y), Some(m)) == AgeLead(y, m) + AgeRest(y, m)
  {
    if y != 0 && m != 0 {
      assert NatToString(y) + "y" + " " + (NatToString(m) + "m") == NatToString(y) + ("y " + NatToString(m) + "m");
    }
  }

  /** Non-negative ages are told apart by their text. */
  lemma AgeTextInjective(y1: nat, m1: nat, y2: nat, m2: nat)
    requires AgeText(Some(y1), Some(m1)) == AgeText(Some(y2), Some(m2))
    ensures y1 == y2 && m1 == m2
  {
    if (y1 != 0 || m1 != 0) && (y2 != 0 || m2 != 0) {
      AgeTextSplits(y1, m1);
      AgeTextSplits(y2, m2);
      SplitInjective(y1, m1, y2, m2);
    }
  }

  lemma SplitInjective(y1: nat, m1: nat, y2: nat, m2: nat)
    requires y1 != 0 || m1 != 0
    requires y2 != 0 || m2 != 0
    requires AgeLead(y1, m1) + AgeRest(y1, m1) == AgeLead(y2, m2) + AgeRest(y2, m2)
    ensures y1 == y2 && m1 == m2
  {
    var rest1, rest2 := AgeRest(y1, m1), AgeRest(y2, m2);
    DigitsThenRest(AgeLead(y1, m1), rest1, AgeLead(y2, m2), rest2);
    assert (y1 != 0) == (y2 != 0) by { assert rest1[0] == rest2[0]; }
    if y1 != 0 {
      NatToStringInjective(y1, y2);
      assert (m1 != 0) == (m2 != 0) by { assert |rest1| == |rest2|; }
      if m1 != 0 {
        assert rest1[2..] == NatToString(m1) + "m" && rest2[2..] == NatToString(m2) + "m";
        DigitsThenRest(NatToString(m1), "m", NatToString(m2), "m");
        NatToStringInjective(m1, m2);
      }
    } else {
      NatToStringInjective(m1, m2);
    }
  }

  // ---------------------------------------------------------------- status badge

  /** The badge: "Reserved" and "Adopted" for those statuses in any letter case, "Available" for anything else. */
  function StatusLabel(status: Option<string>): (r: string)
    ensures r == "Reserved" || r == "Adopted" || r == "Available"
    ensures r == "Reserved" <==> status.Some? && ToUpper(status.value) == "RESERVED"
    ensures r == "Adopted" <==> status.Some? && ToUpper(status.value) == "ADOPTED"
  {
    if status.None? then "Available"
    else
      var u := ToUpper(status.value);
      if u == "RESERVED" then "Reserved" else if u == "ADOPTED" then "Adopted" else "Available"
  }

  /** The letter case of the status does not change the badge. */
  lemma StatusIgnoresCase(s: string)
    ensures StatusLabel(Some(ToLower(s))) == StatusLabel(Some(s))
    ensures StatusLabel(Some(ToUpper(s))) == StatusLabel(Some(s))
  {
    assert ToUpper(ToLower(s)) == ToUpper(s);
    assert ToUpper(ToUpper(s)) == ToUpper(s);
  }

  // ---------------------------------------------------------------- link

  /** A value interpolated into a template literal: a missing one reads "undefined". */
  function Template(o: Option<string>): string {
    if o.Some? then o.value else "undefined"
  }

  /** `to ?? "/pets/" + (pet._id || pet.id)`. */
  function CardHref(to: Option<string>, p: Pet): (r: string)
    ensures to.Some? ==> r == to.value
    ensures to.None? && Truthy(PetId(p)) ==> r == "/pets/" + PetId(p).value
    ensures to.None? && PetId(p).None? ==> r == "/pets/undefined"
  {
    if to.Some? then to.value else "/pets/" + Template(PetId(p))
  }

  /** An empty `to` is not nullish: it is used as it is rather than the pet's page. */
  lemma EmptyToIsKept(p: Pet)
    ensures CardHref(Some(""), p) == ""
  {
  }

  // ---------------------------------------------------------------- card state

  /** The card's local state; `photo` is the memoised `CardPhoto` of the pet. */
  class ListingCard {
    var liked: bool
    var imageError: bool
    var photo: Option<string>

    constructor (p: Pet, origin: string)
      ensures !liked && !imageError && photo == CardPhoto(p, origin)
    {
      liked := false;
      imageError := false;
      photo := CardPhoto(p, origin);
    }

    /** The image is drawn when there is a photo that has not failed; otherwise the "No photo" box. */
    predicate ShowsPhoto()
      reads this
    {
      photo.Some? && !imageError
    }

    /** The heart flips `liked` and nothing else. */
    method ToggleLiked()
      modifies this
      ensures liked == !old(liked) && imageError == old(imageError) && photo == old(photo)
    {
      liked := !liked;
    }

    /** The image's `onError`. */
    method ImageFailed()
      modifies this
      ensures imageError && !ShowsPhoto() && liked == old(liked) && photo == old(photo)
    {
      imageError := true;
    }

    /** The pet's photos or the origin change: the photo is derived again, and the error is cleared
        only when the derived photo differs from the memoised one, so a new resolvable photo is shown
        again while one that failed stays hidden. */
    method PhotoChanged(p: Pet, origin: string)
      modifies this
      ensures photo == CardPhoto(p, origin) && liked == old(liked)
      ensures photo != old(photo) ==> !imageError && (ShowsPhoto() <==> photo.Some?)
      ensures photo == old(photo) ==> imageError == old(imageError)
    {
      var next := CardPhoto(p, origin);
      if next != photo {
        imageError := false;
      }
      photo := next;
    }
  }
}
