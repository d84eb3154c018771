// src/components/PetCard.jsx: the card of the browse grid. It works out who listed the pet, whether that is
// the signed-in user, which photo to show (the newest, else a placeholder from picsum.photos), where its
// button leads, and swaps a broken image for the placeholder once.

module PetCard {
  import opened Js
  import opened PetData
  import opened Session
  import opened Uploads

  /** `me?._id || me?.id || null`. */
  function MyId(me: Option<User>): (r: Option<string>)
    ensures r.None? || r.value != ""
    ensures me.Some? && Truthy(me.value.oid) ==> r == me.value.oid
  {
    if me.None? then None
    else
      var id := Or(me.value.oid, me.value.id);
      if Truthy(id) then id else None
  }

  /** `pet.ownerId ?? pet.owner._id ?? pet.owner.id ?? pet.listedBy._id ?? pet.listedBy.id
      ?? (typeof pet.listedBy === "string" ? pet.listedBy : null)`. */
  function OwnerId(p: Pet): (r: Option<string>)
    ensures p.ownerId.Some? ==> r == p.ownerId
    ensures r.Some? ==> r == p.ownerId
                        || (p.owner.Some? && (r == p.owner.value.oid || r == p.owner.value.id))
                        || (p.listedBy.ListedByUser? && (r == p.listedBy.oid || r == p.listedBy.id))
                        || p.listedBy == ListedById(r.value)
    ensures r.None? <==> p.ownerId.None? && (p.owner.None? || (p.owner.value.oid.None? && p.owner.value.id.None?))
                         && (p.listedBy.NoListing? || (p.listedBy.ListedByUser? && p.listedBy.oid.None? && p.listedBy.id.None?))
  {
    var fromOwner := if p.owner.Some? then Coalesce(p.owner.value.oid, p.owner.value.id) else None;
    var fromListing := match p.listedBy
      case ListedByUser(oid, id, _, _, _, _) => Coalesce(oid, id)
      case ListedById(ref) => Some(ref)
      case NoListing => None;
    Coalesce(p.ownerId, Coalesce(fromOwner, fromListing))
  }

  /** The chain stops at the first place that holds an id at all, empty or not. */
  lemma OwnerIdPrecedence(p: Pet)
    ensures p.ownerId.Some? ==> OwnerId(p) == p.ownerId
    ensures p.ownerId.None? && p.owner.Some? && p.owner.value.oid.Some? ==> OwnerId(p) == p.owner.value.oid
    ensures p.ownerId.None? && p.owner.Some? && p.owner.value.oid.None? && p.owner.value.id.Some? ==>
              OwnerId(p) == p.owner.value.id
    ensures p.ownerId.None? && (p.owner.None? || p.owner.value == OwnerRef(None, None)) ==>
              OwnerId(p) == match p.listedBy
                case ListedByUser(oid, id, _, _, _, _) => Coalesce(oid, id)
                case ListedById(ref) => Some(ref)
                case NoListing => None
    ensures OwnerId(p).Some? <==>
              (p.ownerId.Some? || (p.owner.Some? && (p.owner.value.oid.Some? || p.owner.value.id.Some?))
               || p.listedBy.ListedById? || (p.listedBy.ListedByUser? && (p.listedBy.oid.Some? || p.listedBy.id.Some?)))
  {
  }

  /** `isMine`: both ids present and non-empty, and equal. */
  function IsMine(myId: Option<string>, ownerId: Option<string>): (r: bool)
    ensures r <==> Truthy(myId) && Truthy(ownerId) && myId.value == ownerId.value
  {
    Truthy(myId) && Truthy(ownerId) && ownerId.value == myId.value
  }

  /** Nobody owns a listing while signed out, and a listing with an empty owner id is nobody's. */
  lemma SignedOutOwnsNothing(p: Pet, me: Option<User>)
    ensures me.None? ==> !IsMine(MyId(me), OwnerId(p))
    ensures OwnerId(p) == Some("") ==> !IsMine(MyId(me), OwnerId(p))
  {
  }

  // ---------------------------------------------------------------- photo

  /** The picsum.photos placeholder, seeded by the pet's id when it has one. */
  function Placeholder(id: Option<string>): (r: string)
    ensures r != ""
  {
    if Truthy(id) then "https://picsum.photos/seed/" + id.value + "/600/400" else "https://picsum.photos/600/400"
  }

  /** A resolved card photo is never the empty string. */
  lemma ResolvedNotEmpty(raw: Option<string>, origin: string)
    ensures ResolveForCard(raw, origin).Some? ==> ResolveForCard(raw, origin).value != ""
  {
    var r := ResolveForCard(raw, origin);
    if r.Some? && !IsAbsolutePhoto(Trim(raw.value)) {
      assert |r.value| >= |StripTrailingSlashes(origin) + "/uploads/"|;
    }
  }

  /** The newest stored photo: the last element, or null. */
  function NewestPhoto(p: Pet): (r: Option<string>)
    ensures p.photos.None? || p.photos.value == [] ==> r.None?
    ensures p.photos.Some? && p.photos.value != [] ==> r == p.photos.value[|p.photos.value| - 1]
  {
    var arr := if p.photos.Some? then p.photos.value else [];
    if |arr| > 0 then arr[|arr| - 1] else None
  }

  /** The card's photo: the newest photo, resolved, or else the placeholder. */
  function CardPhoto(p: Pet, origin: string): (r: string)
    ensures r != ""
    ensures ResolveForCard(NewestPhoto(p), origin).Some? ==> r == ResolveForCard(NewestPhoto(p), origin).value
    ensures ResolveForCard(NewestPhoto(p), origin).None? ==> r == Placeholder(PetId(p))
  {
    var resolved := ResolveForCard(NewestPhoto(p), origin);
    ResolvedNotEmpty(NewestPhoto(p), origin);
    if Truthy(resolved) then resolved.value else Placeholder(PetId(p))
  }

  /** A newly added photo takes over the card at once, where the owner's listing page keeps its first one. */
  lemma NewestPhotoShown(p: Pet, added: string, origin: string)
    requires Trim(added) != ""
    ensures CardPhoto(p.(photos := Some(OrEmpty(p.photos) + [Some(added)])), origin) == ResolveForCard(Some(added), origin).value
  {
    var q := p.(photos := Some(OrEmpty(p.photos) + [Some(added)]));
    assert NewestPhoto(q) == Some(added);
  }

  function OrEmpty(photos: Option<seq<Option<string>>>): seq<Option<string>> {
    if photos.Some? then photos.value else []
  }

  // ---------------------------------------------------------------- button

  /** `onOpen`: nowhere without an id, the edit page for one's own listing, the details page otherwise. */
  function OnOpen(id: Option<string>, mine: bool): (r: Option<string>)
    ensures r.None? <==> !Truthy(id)
    ensures r.Some? && mine ==> r.value == "/pets/" + id.value + "/edit"
    ensures r.Some? && !mine ==> r.value == "/pets/" + id.value
  {
    if !Truthy(id) then None
    else if mine then Some("/pets/" + id.value + "/edit")
    else Some("/pets/" + id.value)
  }

  /** The edit page of a pet is offered only to its signed-in owner. */
  lemma EditOnlyForOwner(p: Pet, me: Option<User>)
    requires Truthy(PetId(p))
    ensures OnOpen(PetId(p), IsMine(MyId(me), OwnerId(p))) == Some("/pets/" + PetId(p).value + "/edit")
            <==> me.Some? && Truthy(OwnerId(p)) && OwnerId(p) == MyId(me)
  {
    var id := PetId(p).value;
    assert |"/pets/" + id| != |"/pets/" + id + "/edit"|;
  }

  // ---------------------------------------------------------------- image element

  /** The `<img>` element, with the `data-fallback-applied` flag its `onError` sets. */
  class CardImage {
    var src: string
    var fallbackApplied: bool

    constructor (photo: string)
      ensures src == photo && !fallbackApplied
    {
      src := photo;
      fallbackApplied := false;
    }

    /** `onError`: the first failure swaps in the placeholder; later ones change nothing. */
    method Failed(id: Option<string>)
      modifies this
      ensures fallbackApplied
      ensures old(fallbackApplied) ==> src == old(src)
      ensures !old(fallbackApplied) ==> src == Placeholder(id)
    {
      if fallbackApplied {
        return;
      }
      fallbackApplied := true;
      src := Placeholder(id);
    }
  }
}
