// src/pages/PetDetails.jsx: the detail page of one listing. Its helpers format
// the age, resolve photo paths against the api base, and gather the owner's
// contact details; the page keeps the selected photo, the broken thumbnails
// and whether the owner card is shown. `encodeURIComponent` is an input.

module PetDetails {
  import opened Js
  import opened PetData
  import opened Uploads
  import Pets

  // ---------------------------------------------------------------- formatAge

  /** What `formatAge` shows for a missing age: the source text holds these three characters
      (a mis-encoded em dash), and they are kept as written. */
  const NoAgeText: string := "\U{00E2}\U{20AC}\U{201D}"

  /** JavaScript's `a % b` for `b > 0`: the remainder takes the sign of `a`. */
  function JsRem(a: int, b: int): (r: int)
    requires b > 0
    ensures a >= 0 ==> r == a % b
    ensures a < 0 ==> -b < r <= 0
  {
    if a >= 0 then a % b else -((-a) % b)
  }

  /** `[y ? "<y> yr" : null, m ? "<m> mo" : null].filter(Boolean).join(" ")`. */
  function YearsMonthsText(y: int, m: int): string {
    var parts := (if y != 0 then [IntToString(y) + " yr"] else []) + (if m != 0 then [IntToString(m) + " mo"] else []);
    if |parts| == 2 then parts[0] + " " + parts[1] else if |parts| == 1 then parts[0] else ""
  }

  /** `formatAge(months)`: whole years by `Math.floor`, the rest by `%`. */
  function FormatAge(months: Option<int>): (r: string)
    ensures months.None? ==> r == NoAgeText
    ensures months.Some? ==> (r == "" <==> months.value == 0)
    ensures months.Some? && months.value >= 12 ==> StartsWith(r, NatToString(months.value / 12) + " yr")
    ensures months.Some? && months.value >= 0 && months.value % 12 != 0 ==> EndsWith(r, NatToString(months.value % 12) + " mo")
  {
    match months
    case None => NoAgeText
    case Some(m) =>
      var y := m / 12;
      var rest := JsRem(m, 12);
      var r := YearsMonthsText(y, rest);
      assert m >= 12 ==> y >= 1 && StartsWith(r, NatToString(y) + " yr") by {
        if m >= 12 {
          var p := NatToString(y) + " yr";
          if rest != 0 {
            assert (p + " " + IntToString(rest) + " mo")[..|p|] == p;
          }
        }
      }
      assert m >= 0 && m % 12 != 0 ==> EndsWith(r, NatToString(m % 12) + " mo") by {
        if m >= 0 && m % 12 != 0 {
          var q := NatToString(m % 12) + " mo";
          if y != 0 {
            var p := IntToString(y) + " yr" + " ";
            assert (p + q)[|p + q| - |q|..] == q;
          }
        }
      }
      r
  }

  /** For a non-negative age, the text is the digits of its leading part, then the rest. */
  lemma AgeTextShape(m: nat)
    requires m != 0
    ensures var y, r := m / 12, m % 12;
            var t := FormatAge(Some(m));
            (y > 0 && r > 0 ==> t == NatToString(y) + (" yr " + NatToString(r) + " mo"))
            && (y > 0 && r == 0 ==> t == NatToString(y) + " yr")
            && (y == 0 ==> t == NatToString(r) + " mo")
  {
    var y, r := m / 12, m % 12;
    assert FormatAge(Some(m)) == YearsMonthsText(y, r);
    if y > 0 && r > 0 {
      BothParts(y, r);
    }
  }

  /** Both parts present: the years, " yr ", then the months. */
  lemma BothParts(y: nat, r: nat)
    requires y > 0 && r > 0
    ensures YearsMonthsText(y, r) == NatToString(y) + (" yr " + NatToString(r) + " mo")
  {
    var a, b := NatToString(y) + " yr", NatToString(r) + " mo";
    assert YearsMonthsText(y, r) == a + " " + b;
    assert a + " " + b == NatToString(y) + (" yr " + NatToString(r) + " mo");
  }

  /** Distinct non-negative ages are shown differently. */
  lemma FormatAgeInjective(a: nat, b: nat)
    requires FormatAge(Some(a)) == FormatAge(Some(b))
    ensures a == b
  {
    if a != 0 && b != 0 {
      AgeTextShape(a);
      AgeTextShape(b);
      var ya, ra, yb, rb := a / 12, a % 12, b / 12, b % 12;
      var lead_a := if ya > 0 then NatToString(ya) else NatToString(ra);
      var lead_b := if yb > 0 then NatToString(yb) else NatToString(rb);
      var rest_a := if ya > 0 && ra > 0 then " yr " + NatToString(ra) + " mo" else if ya > 0 then " yr" else " mo";
      var rest_b := if yb > 0 && rb > 0 then " yr " + NatToString(rb) + " mo" else if yb > 0 then " yr" else " mo";
      assert FormatAge(Some(a)) == lead_a + rest_a;
      assert FormatAge(Some(b)) == lead_b + rest_b;
      DigitsThenRest(lead_a, rest_a, lead_b, rest_b);
      assert rest_a[1] == rest_b[1];
      assert (ya > 0) == (yb > 0);
      if ya > 0 {
        assert |rest_a| == |rest_b|;
        assert (ra > 0) == (rb > 0);
        NatToStringInjective(ya, yb);
        if ra > 0 {
          assert rest_a[4..] == NatToString(ra) + " mo";
          assert rest_b[4..] == NatToString(rb) + " mo";
          DigitsThenRest(NatToString(ra), " mo", NatToString(rb), " mo");
          NatToStringInjective(ra, rb);
        }
      } else {
        NatToStringInjective(ra, rb);
      }
    }
  }

  // ---------------------------------------------------------------- owner details

  /** What `getOwnerInfo` gathers for the contact card. */
  datatype OwnerInfo = OwnerInfo(ownerId: Option<string>, ownerName: string, ownerPhone: string, ownerAvatar: Option<string>)

  /** `pet?.ownerId ?? listedBy._id ?? listedBy.id ?? (listedBy if it is a string)`, before `|| null`. */
  function OwnerIdChain(p: Pet): (r: Option<string>)
    ensures p.ownerId.Some? ==> r == p.ownerId
    ensures r.Some? ==> r == p.ownerId
                        || (p.listedBy.ListedByUser? && (r == p.listedBy.oid || r == p.listedBy.id))
                        || p.listedBy == ListedById(r.value)
    ensures r.None? <==> p.ownerId.None? && (p.listedBy.NoListing? || (p.listedBy.ListedByUser? && p.listedBy.oid.None? && p.listedBy.id.None?))
  {
    match p.listedBy
    case ListedByUser(oid, id, _, _, _, _) => Coalesce(p.ownerId, Coalesce(oid, id))
    case ListedById(ref) => Coalesce(p.ownerId, Some(ref))
    case NoListing => p.ownerId
  }

  /** `getOwnerInfo(pet)`: the name falls back through the listing user to "Owner", the phone through the
      pet's two phone fields to the user's, and an id that comes out empty becomes null. */
  function GetOwnerInfo(p: Pet, baseURL: string): (r: OwnerInfo)
    ensures r.ownerName != ""
    ensures Truthy(p.ownerName) ==> r.ownerName == p.ownerName.value
    ensures (!Truthy(p.ownerName) && p.listedBy.ListedByUser? && Truthy(p.listedBy.fullname))
            ==> r.ownerName == p.listedBy.fullname.value
    ensures (!Truthy(p.ownerName) && p.listedBy.ListedByUser? && !Truthy(p.listedBy.fullname)
             && Truthy(p.listedBy.username)) ==> r.ownerName == p.listedBy.username.value
    ensures (!Truthy(p.ownerName)
             && !(p.listedBy.ListedByUser? && (Truthy(p.listedBy.fullname) || Truthy(p.listedBy.username))))
            ==> r.ownerName == "Owner"
    ensures r.ownerId.None? || r.ownerId.value != ""
    ensures Truthy(p.ownerId) ==> r.ownerId == p.ownerId
    ensures Truthy(p.contactPhone) ==> r.ownerPhone == p.contactPhone.value
    ensures !Truthy(p.contactPhone) && Truthy(p.ownerPhone) ==> r.ownerPhone == p.ownerPhone.value
    ensures (!Truthy(p.contactPhone) && !Truthy(p.ownerPhone) && p.listedBy.ListedByUser? && Truthy(p.listedBy.phone))
            ==> r.ownerPhone == p.listedBy.phone.value
    ensures (!Truthy(p.contactPhone) && !Truthy(p.ownerPhone) && !(p.listedBy.ListedByUser? && Truthy(p.listedBy.phone)))
            ==> r.ownerPhone == ""
    ensures p.listedBy.ListedByUser? && Truthy(p.listedBy.avatar) ==>
              r.ownerAvatar == ResolveAgainstApiBase(p.listedBy.avatar, baseURL)
    ensures !(p.listedBy.ListedByUser? && Truthy(p.listedBy.avatar)) ==> r.ownerAvatar.None?
  {
    var user := p.listedBy.ListedByUser?;
    var name := OrElse(Or(p.ownerName, if user then Or(p.listedBy.fullname, p.listedBy.username) else None), "Owner");
    var phone := OrElse(Or(p.contactPhone, Or(p.ownerPhone, if user then p.listedBy.phone else None)), "");
    var id := OwnerIdChain(p);
    var avatar := if user && Truthy(p.listedBy.avatar) then ResolveAgainstApiBase(p.listedBy.avatar, baseURL) else None;
    OwnerInfo(if Truthy(id) then id else None, name, phone, avatar)
  }

  /** An `ownerId` of "" is not nullish, so `??` stops there and `|| null` then drops it: the listing user's id is never consulted. */
  lemma EmptyOwnerIdHidesListedBy(p: Pet, baseURL: string)
    requires p.ownerId == Some("")
    ensures GetOwnerInfo(p, baseURL).ownerId == None
  {
  }

  /** Without an `ownerId`, the id comes from the listing: its `_id`, its `id`, or the bare id string. */
  lemma OwnerIdFromListing(p: Pet, baseURL: string)
    requires p.ownerId.None?
    ensures p.listedBy.ListedByUser? && Truthy(p.listedBy.oid) ==> GetOwnerInfo(p, baseURL).ownerId == p.listedBy.oid
    ensures p.listedBy.ListedByUser? && p.listedBy.oid.None? ==> GetOwnerInfo(p, baseURL).ownerId == (if Truthy(p.listedBy.id) then p.listedBy.id else None)
    ensures p.listedBy.ListedById? ==> GetOwnerInfo(p, baseURL).ownerId == (if p.listedBy.ref != "" then Some(p.listedBy.ref) else None)
    ensures p.listedBy.NoListing? ==> GetOwnerInfo(p, baseURL).ownerId == None
  {
  }

  /** The contact links of the owner card. */
  datatype ContactLinks = ContactLinks(call: Option<string>, whatsapp: Option<string>)

  /** The greeting the WhatsApp link carries, before encoding. */
  function Greeting(ownerName: string, petName: Option<string>): string {
    "Hi " + (if ownerName != "" then ownerName else "there") + ", I'm interested in adopting \""
    + (if petName.Some? then petName.value else "undefined") + "\". Is it still available?"
  }

  /** `tel:<digits>` and `https://wa.me/<digits>?text=...` exist only when the phone holds a digit. */
  function Links(info: OwnerInfo, petName: Option<string>, encode: string -> string): (r: ContactLinks)
    ensures r.call.Some? <==> DigitsOnly(info.ownerPhone) != ""
    ensures r.whatsapp.Some? <==> r.call.Some?
    ensures r.call.Some? ==> r.call.value == "tel:" + DigitsOnly(info.ownerPhone)
  {
    var digits := DigitsOnly(info.ownerPhone);
    if digits == "" then ContactLinks(None, None)
    else ContactLinks(Some("tel:" + digits),
                      Some("https://wa.me/" + digits + "?text=" + encode(Greeting(info.ownerName, petName))))
  }

  /** Both links are there exactly when the phone has at least one digit, and the number they dial is all digits. */
  lemma LinksNeedADigit(info: OwnerInfo, petName: Option<string>, encode: string -> string)
    ensures Links(info, petName, encode).call.Some?
            <==> exists i :: 0 <= i < |info.ownerPhone| && IsDigit(info.ownerPhone[i])
    ensures Links(info, petName, encode).call.Some? ==> AllDigits(Links(info, petName, encode).call.value[4..])
  {
    DigitsOnlyEmpty(info.ownerPhone);
    var l := Links(info, petName, encode);
    if l.call.Some? {
      assert l.call.value[4..] == DigitsOnly(info.ownerPhone);
    }
  }

  // ---------------------------------------------------------------- photos

  /** `current.photos.map(resolvePhoto).filter(Boolean)`. */
  function ResolvedPhotos(photos: seq<Option<string>>, baseURL: string): (r: seq<string>)
    ensures |r| <= |photos|
  {
    if photos == [] then []
    else
      var last := ResolveAgainstApiBase(photos[|photos| - 1], baseURL);
      ResolvedPhotos(photos[..|photos| - 1], baseURL) + (if last.Some? then [last.value] else [])
  }

  /** Every photo shown is the resolution of one of the pet's photos ... */
  lemma {:induction false} ShownPhotoResolved(photos: seq<Option<string>>, baseURL: string, u: string) returns (i: nat)
    requires u in ResolvedPhotos(photos, baseURL)
    ensures i < |photos| && ResolveAgainstApiBase(photos[i], baseURL) == Some(u)
  {
    var init := photos[..|photos| - 1];
    if u in ResolvedPhotos(init, baseURL) {
      i := ShownPhotoResolved(init, baseURL, u);
      assert photos[i] == init[i];
    } else {
      i := |photos| - 1;
    }
  }

  /** ... and every photo that resolves is shown. */
  lemma {:induction false} EveryResolvedPhotoShown(photos: seq<Option<string>>, baseURL: string, i: nat)
    requires i < |photos| && ResolveAgainstApiBase(photos[i], baseURL).Some?
    ensures ResolveAgainstApiBase(photos[i], baseURL).value in ResolvedPhotos(photos, baseURL)
  {
    var init := photos[..|photos| - 1];
    if i < |photos| - 1 {
      EveryResolvedPhotoShown(init, baseURL, i);
      assert init[i] == photos[i];
    }
  }

  /** The gallery: the resolved photos, or a single empty slot. */
  function Gallery(current: Option<Pet>, baseURL: string): (r: seq<Option<string>>)
    ensures |r| >= 1
  {
    var resolved := if current.Some? && current.value.photos.Some? then ResolvedPhotos(current.value.photos.value, baseURL) else [];
    if |resolved| > 0 then seq(|resolved|, i requires 0 <= i < |resolved| => Some(resolved[i])) else [None]
  }

  /** `Math.min(mainIdx, Math.max(photos.length - 1, 0))`. */
  function SafeIdx(mainIdx: nat, len: nat): (r: nat)
    ensures len > 0 ==> r < len
    ensures mainIdx < len ==> r == mainIdx
    ensures mainIdx >= len > 0 ==> r == len - 1
  {
    var top := if len - 1 > 0 then len - 1 else 0;
    if mainIdx < top then mainIdx else top
  }

  /** `photos[safeIdx] || null`: the selected photo, or the last one when the selection is past the end. */
  function MainPhoto(current: Option<Pet>, baseURL: string, mainIdx: nat): (r: Option<string>)
    ensures var g := Gallery(current, baseURL); r == g[SafeIdx(mainIdx, |g|)]
    ensures r.None? <==> Gallery(current, baseURL) == [None]
  {
    var g := Gallery(current, baseURL);
    g[SafeIdx(mainIdx, |g|)]
  }

  /** A thumbnail shows the "No photo" tile when it failed to load or has no source. */
  predicate ThumbBroken(thumbErrors: set<nat>, src: Option<string>, i: nat) {
    i in thumbErrors || src.None?
  }

  // ---------------------------------------------------------------- the page

  /** What the page renders, decided in this order. */
  datatype View = Loading | LoadFailed | NotFound | Details

  /** `loading && !current` first, then `!!error`, then `!current`; `current` is the store's detail. */
  function ViewOf(loading: bool, failed: bool, current: Pets.Detail): (r: View)
    ensures r == Loading <==> loading && current.NoDetail?
    ensures r == LoadFailed <==> failed && !(loading && current.NoDetail?)
    ensures r == Details <==> !current.NoDetail? && !failed
  {
    if loading && current.NoDetail? then Loading
    else if failed then LoadFailed
    else if current.NoDetail? then NotFound
    else Details
  }

  /** As written: `error` comes from a store that never defines it, so `showError` is always false. */
  function ViewAsWritten(loading: bool, current: Pets.Detail): (r: View)
    ensures r != LoadFailed
    ensures r == NotFound <==> !loading && current.NoDetail?
    ensures r == Details <==> !current.NoDetail?
  {
    ViewOf(loading, false, current)
  }

  /** As written, a fetch that throws (and `fetchOne` never sets `loading`) shows "Pet not found.". */
  lemma FailedFetchShowsNotFoundAsWritten(loading: bool)
    requires !loading
    ensures ViewAsWritten(loading, Pets.CurrentAfterFetch(None)) == NotFound
  {
  }

  /** Corrected: the error box follows the fetch outcome itself; `resp` is None when the request threw. */
  function FetchView(loading: bool, resp: Option<Pets.Body>): (r: View)
    ensures r == LoadFailed <==> resp.None? && !loading
    ensures r == NotFound <==> !loading && resp == Some(Pets.NoBody)
    ensures r == Details <==> resp.Some? && !resp.value.NoBody?
  {
    ViewOf(loading, resp.None?, Pets.CurrentAfterFetch(resp))
  }

  /** Corrected, a fetch that throws shows the error box, never "Pet not found.". */
  lemma FailedFetchShowsError(loading: bool)
    requires !loading
    ensures FetchView(loading, None) == LoadFailed
    ensures FetchView(loading, None) != NotFound
  {
  }

  class PetDetailsPage {
    /** The id in the route. */
    const id: string
    var mainIdx: nat
    var mainError: bool
    var thumbErrors: set<nat>
    var showOwnerCard: bool
    /** The last `navigate(...)` target, if any. */
    var navigatedTo: Option<string>

    constructor (routeId: string)
      ensures id == routeId && mainIdx == 0 && !mainError && thumbErrors == {} && !showOwnerCard && navigatedTo == None
    {
      id := routeId;
      mainIdx := 0;
      mainError := false;
      thumbErrors := {};
      showOwnerCard := false;
      navigatedTo := None;
    }

    /** A thumbnail click selects that photo. */
    method SelectPhoto(i: nat)
      modifies this
      ensures mainIdx == i
      ensures mainError == old(mainError) && thumbErrors == old(thumbErrors)
      ensures showOwnerCard == old(showOwnerCard) && navigatedTo == old(navigatedTo)
    {
      mainIdx := i;
    }

    /** A thumbnail failed to load: only that one is marked broken. */
    method ThumbFailed(i: nat)
      modifies this
      ensures thumbErrors == old(thumbErrors) + {i}
      ensures mainIdx == old(mainIdx) && mainError == old(mainError)
      ensures showOwnerCard == old(showOwnerCard) && navigatedTo == old(navigatedTo)
    {
      thumbErrors := thumbErrors + {i};
    }

    /** The main image failed to load. */
    method MainFailed()
      modifies this
      ensures mainError
      ensures mainIdx == old(mainIdx) && thumbErrors == old(thumbErrors)
      ensures showOwnerCard == old(showOwnerCard) && navigatedTo == old(navigatedTo)
    {
      mainError := true;
    }

    /** The effect on a new main photo: its error flag starts clear. */
    method MainPhotoChanged()
      modifies this
      ensures !mainError
      ensures mainIdx == old(mainIdx) && thumbErrors == old(thumbErrors)
      ensures showOwnerCard == old(showOwnerCard) && navigatedTo == old(navigatedTo)
    {
      mainError := false;
    }

    /** `handleAdopt`: without a user, go to the login page with a way back and keep the card hidden;
        with one, reveal the owner card. */
    method HandleAdopt(signedIn: bool)
      modifies this
      ensures !signedIn ==> navigatedTo == Some("/login?redirect=/pets/" + id) && showOwnerCard == old(showOwnerCard)
      ensures signedIn ==> showOwnerCard && navigatedTo == old(navigatedTo)
      ensures mainIdx == old(mainIdx) && mainError == old(mainError) && thumbErrors == old(thumbErrors)
    {
      if !signedIn {
        navigatedTo := Some("/login?redirect=/pets/" + id);
        return;
      }
      showOwnerCard := true;
    }
  }
}
