// src/pages/EditPet.jsx: the owner's edit form for one listing. The page loads
// the pet and normalises it into form fields, shows the newest photo (or the
// first newly picked file) as the primary preview, sends every field and the
// new files as a multipart PATCH, and deletes the listing on "mark as adopted".
// HTTP replies, `window.confirm`, `URL.createObjectURL` and `Number(...)` are
// inputs; the two delayed navigations are armed slots that a timer fires.

module EditPet {
  import opened Js
  import opened PetData
  import opened Uploads

  /** The form's fields, as the page keeps them. */
  datatype EditData = EditData(
    name: string, species: string, breed: string, gender: string, ageMonths: string,
    size: string, city: string, vaccinated: bool, dewormed: bool, sterilized: bool, description: string)

  const InitialData: EditData := EditData("", "dog", "", "male", "", "", "", false, false, false, "")

  const LoadError: string := "Couldn’t load this pet."
  const SaveError: string := "Failed to save changes."
  const DeleteError: string := "Couldn’t delete the listing. Please try again."
  const DeletedMessage: string := "Listing deleted. Marked as adopted."

  // ---------------------------------------------------------------- loading

  /** `!!flag`. */
  function Bool(b: Option<bool>): bool {
    b == Some(true)
  }

  /** The fields `loadPet` derives from the pet: missing text becomes "", the species "dog", the gender "male",
      a numeric age its decimal text, the flags booleans. */
  function LoadedData(p: Pet): (r: EditData)
    ensures r.species != "" && r.gender != ""
    ensures Truthy(p.species) ==> r.species == p.species.value
    ensures !Truthy(p.species) ==> r.species == "dog"
    ensures Truthy(p.gender) ==> r.gender == p.gender.value
    ensures !Truthy(p.gender) ==> r.gender == "male"
    ensures p.ageMonths.None? <==> r.ageMonths == ""
    ensures p.ageMonths.Some? && p.ageMonths.value >= 0 ==> AllDigits(r.ageMonths)
    ensures r.name == OrElse(p.name, "") && r.breed == OrElse(p.breed, "") && r.size == OrElse(p.size, "")
    ensures r.city == OrElse(p.city, "") && r.description == OrElse(p.description, "")
    ensures (r.vaccinated <==> p.vaccinated == Some(true)) && (r.dewormed <==> p.dewormed == Some(true))
            && (r.sterilized <==> p.sterilized == Some(true))
  {
    EditData(OrElse(p.name, ""), OrElse(p.species, "dog"), OrElse(p.breed, ""), OrElse(p.gender, "male"),
             if p.ageMonths.Some? then IntToString(p.ageMonths.value) else "",
             OrElse(p.size, ""), OrElse(p.city, ""),
             Bool(p.vaccinated), Bool(p.dewormed), Bool(p.sterilized), OrElse(p.description, ""))
  }

  /** A non-negative age survives the trip into the text field: its digits read back as the same number. */
  lemma LoadedAgeReadsBack(p: Pet)
    requires p.ageMonths.Some? && p.ageMonths.value >= 0
    ensures AllDigits(LoadedData(p).ageMonths) && ParseDigits(LoadedData(p).ageMonths) == p.ageMonths.value
  {
    NatToStringRoundTrip(p.ageMonths.value);
  }

  /** Loading a pet whose fields are all filled in keeps them as they are. */
  lemma LoadKeepsFilledFields(p: Pet)
    requires Truthy(p.name) && Truthy(p.species) && Truthy(p.breed) && Truthy(p.gender)
    requires Truthy(p.size) && Truthy(p.city) && Truthy(p.description)
    ensures var d := LoadedData(p);
            d.name == p.name.value && d.species == p.species.value && d.breed == p.breed.value
            && d.gender == p.gender.value && d.size == p.size.value && d.city == p.city.value
            && d.description == p.description.value
  {
  }

  /** `Array.isArray(p.photos) ? p.photos.slice() : []`. */
  function LoadedPhotos(p: Pet): (r: seq<Option<string>>)
    ensures p.photos.Some? ==> r == p.photos.value
    ensures p.photos.None? ==> r == []
  {
    if p.photos.Some? then p.photos.value else []
  }

  // ---------------------------------------------------------------- previews

  /** `newestExistingPhoto`: the last element, or null for an empty list. */
  function NewestExistingPhoto(existing: seq<Option<string>>): (r: Option<string>)
    ensures existing == [] ==> r.None?
    ensures existing != [] ==> r == existing[|existing| - 1]
  {
    if |existing| == 0 then None else existing[|existing| - 1]
  }

  /** `primaryPreview`: an object URL for the first newly picked file, else the newest existing photo, resolved. */
  function PrimaryPreview(files: seq<File>, existing: seq<Option<string>>, baseURL: string,
                          objectUrl: File -> Option<string>): (r: Option<string>)
    ensures files != [] ==> r == objectUrl(files[0])
    ensures files == [] ==> r == ResolveAgainstApiBase(NewestExistingPhoto(existing), baseURL)
  {
    if |files| > 0 then objectUrl(files[0]) else ResolveAgainstApiBase(NewestExistingPhoto(existing), baseURL)
  }

  /** The newest photo is the one the preview shows until a file is picked; appending a photo makes it the newest. */
  lemma AppendedPhotoBecomesPrimary(existing: seq<Option<string>>, added: string, baseURL: string,
                                    objectUrl: File -> Option<string>)
    ensures PrimaryPreview([], existing + [Some(added)], baseURL, objectUrl) == ResolveAgainstApiBase(Some(added), baseURL)
  {
  }

  /** `[...existingPhotos].reverse()`: a reversed copy, newest first. */
  function Reversed(s: seq<Option<string>>): (r: seq<Option<string>>)
    ensures |r| == |s| && forall i :: 0 <= i < |s| ==> r[i] == s[|s| - 1 - i]
  {
    if s == [] then [] else [s[|s| - 1]] + Reversed(s[..|s| - 1])
  }

  /** The copy shows the newest photo first, and reversing it back gives the stored order. */
  lemma ReversedShowsNewestFirst(s: seq<Option<string>>)
    ensures s != [] ==> Reversed(s)[0] == NewestExistingPhoto(s)
    ensures Reversed(Reversed(s)) == s
  {
    assert forall i :: 0 <= i < |s| ==> Reversed(Reversed(s))[i] == s[i];
  }

  // ---------------------------------------------------------------- the form

  /** `data.ageMonths === "" ? "" : Number(data.ageMonths)`. */
  function AgeValue(age: string, toNumber: string -> JsNumber): (r: FieldValue)
    ensures age == "" <==> r == Text("")
    ensures age != "" ==> r == Number(toNumber(age))
  {
    if age == "" then Text("") else Number(toNumber(age))
  }

  /** `submit` sends these eleven keys, in this order, whatever their values. */
  const EditFieldCount: nat := 11

  /** The `k`-th entry of `Object.entries({...})` in `submit`. */
  function EditFieldAt(d: EditData, toNumber: string -> JsNumber, k: nat): Entry
    requires k < EditFieldCount
  {
    if k == 0 then Entry("name", Text(d.name))
    else if k == 1 then Entry("species", Text(d.species))
    else if k == 2 then Entry("breed", Text(d.breed))
    else if k == 3 then Entry("gender", Text(d.gender))
    else if k == 4 then Entry("ageMonths", AgeValue(d.ageMonths, toNumber))
    else if k == 5 then Entry("size", Text(d.size))
    else if k == 6 then Entry("city", Text(d.city))
    else if k == 7 then Entry("vaccinated", Flag(d.vaccinated))
    else if k == 8 then Entry("dewormed", Flag(d.dewormed))
    else if k == 9 then Entry("sterilized", Flag(d.sterilized))
    else Entry("description", Text(d.description))
  }

  function EditFields(d: EditData, toNumber: string -> JsNumber): (r: seq<Entry>)
    ensures |r| == EditFieldCount
  {
    seq(EditFieldCount, k requires 0 <= k < EditFieldCount => EditFieldAt(d, toNumber, k))
  }

  /** The FormData `submit` sends: the eleven fields, then the new files under "photos". */
  function EditForm(d: EditData, files: seq<File>, toNumber: string -> JsNumber): seq<Entry> {
    EditFields(d, toNumber) + PhotoEntries(files)
  }

  /** The form is the eleven fields, then one "photos" entry per new file, in the order picked. */
  lemma EditFormLayout(d: EditData, files: seq<File>, toNumber: string -> JsNumber)
    ensures var r := EditForm(d, files, toNumber);
            |r| == EditFieldCount + |files| && r[..EditFieldCount] == EditFields(d, toNumber)
            && forall i :: 0 <= i < |files| ==> r[EditFieldCount + i] == Entry("photos", Upload(files[i]))
  {
    var fields, photos := EditFields(d, toNumber), PhotoEntries(files);
    assert (fields + photos)[..EditFieldCount] == fields;
    forall i | 0 <= i < |files| ensures (fields + photos)[EditFieldCount + i] == Entry("photos", Upload(files[i])) {
      assert (fields + photos)[EditFieldCount + i] == photos[i];
    }
  }

  /** A key that one entry alone uses reads back as that entry's value. */
  lemma {:induction false} OnlyEntryUnder(form: seq<Entry>, key: string, i: nat)
    requires i < |form| && form[i].key == key
    requires forall j :: 0 <= j < |form| && j != i ==> form[j].key != key
    ensures Values(form, key) == [form[i].value]
    decreases |form|
  {
    var init := form[..|form| - 1];
    ValuesAppend(init, [form[|form| - 1]], key);
    assert [form[|form| - 1]][..0] == [];
    if i == |form| - 1 {
      NoEntryUnder(init, key);
    } else {
      OnlyEntryUnder(init, key, i);
    }
  }

  /** A key no entry uses reads back as nothing. */
  lemma {:induction false} NoEntryUnder(form: seq<Entry>, key: string)
    requires forall j :: 0 <= j < |form| ==> form[j].key != key
    ensures Values(form, key) == []
  {
    if form != [] {
      var init := form[..|form| - 1];
      NoEntryUnder(init, key);
      ValuesAppend(init, [form[|form| - 1]], key);
      assert [form[|form| - 1]][..0] == [];
    }
  }

  /** What `submit` sends under the key of its `i`-th field: that field's value, once. */
  lemma {:induction false} SentOnce(d: EditData, files: seq<File>, toNumber: string -> JsNumber, i: nat, key: string)
    requires i < EditFieldCount && EditFieldAt(d, toNumber, i).key == key && key != "photos"
    requires forall j :: 0 <= j < EditFieldCount && j != i ==> EditFieldAt(d, toNumber, j).key != key
    ensures Values(EditForm(d, files, toNumber), key) == [EditFieldAt(d, toNumber, i).value]
  {
    OnlyEntryUnder(EditFields(d, toNumber), key, i);
    ValuesAppend(EditFields(d, toNumber), PhotoEntries(files), key);
    PhotoValues(files, key);
  }

  /** The age is always sent: "" when blank, else `Number(age)` as it is, negative or not. */
  lemma {:induction false} AgeAlwaysSent(d: EditData, files: seq<File>, toNumber: string -> JsNumber)
    ensures Values(EditForm(d, files, toNumber), "ageMonths")
            == [if d.ageMonths == "" then Text("") else Number(toNumber(d.ageMonths))]
  {
    SentOnce(d, files, toNumber, 4, "ageMonths");
  }

  /** Name, breed, city and the vaccinated flag are sent once each, even when empty or false. */
  lemma {:induction false} FieldsAlwaysSent(d: EditData, files: seq<File>, toNumber: string -> JsNumber)
    ensures Values(EditForm(d, files, toNumber), "name") == [Text(d.name)]
    ensures Values(EditForm(d, files, toNumber), "breed") == [Text(d.breed)]
    ensures Values(EditForm(d, files, toNumber), "city") == [Text(d.city)]
    ensures Values(EditForm(d, files, toNumber), "vaccinated") == [Flag(d.vaccinated)]
  {
    SentOnce(d, files, toNumber, 0, "name");
    SentOnce(d, files, toNumber, 2, "breed");
    SentOnce(d, files, toNumber, 6, "city");
    SentOnce(d, files, toNumber, 7, "vaccinated");
  }

  /** The three health flags are sent once each, as "true" or "false", whether set or not. */
  lemma {:induction false} FlagsAlwaysSent(d: EditData, files: seq<File>, toNumber: string -> JsNumber)
    ensures Values(EditForm(d, files, toNumber), "vaccinated") == [Flag(d.vaccinated)]
    ensures Values(EditForm(d, files, toNumber), "dewormed") == [Flag(d.dewormed)]
    ensures Values(EditForm(d, files, toNumber), "sterilized") == [Flag(d.sterilized)]
  {
    SentOnce(d, files, toNumber, 7, "vaccinated");
    SentOnce(d, files, toNumber, 8, "dewormed");
    SentOnce(d, files, toNumber, 9, "sterilized");
  }

  /** Only the new files go under "photos", in the order picked; the stored photos are not re-sent. */
  lemma {:induction false} OnlyNewFilesSent(d: EditData, files: seq<File>, toNumber: string -> JsNumber)
    ensures |Values(EditForm(d, files, toNumber), "photos")| == |files|
    ensures forall i :: 0 <= i < |files| ==> Values(EditForm(d, files, toNumber), "photos")[i] == Upload(files[i])
  {
    var fields := EditFields(d, toNumber);
    NoFieldUnderPhotos(d, toNumber);
    NoEntryUnder(fields, "photos");
    ValuesAppend(fields, PhotoEntries(files), "photos");
    PhotoValues(files, "photos");
    assert Values(EditForm(d, files, toNumber), "photos") == Values(PhotoEntries(files), "photos");
  }

  lemma NoFieldUnderPhotos(d: EditData, toNumber: string -> JsNumber)
    ensures forall j :: 0 <= j < EditFieldCount ==> EditFields(d, toNumber)[j].key != "photos"
  {
  }

  /** `Object.entries({...}).forEach(([k, v]) => fd.append(k, v))`. */
  method AppendEditFields(d: EditData, toNumber: string -> JsNumber) returns (fd: seq<Entry>)
    ensures fd == EditFields(d, toNumber)
  {
    var entries := EditFields(d, toNumber);
    fd := [];
    for k := 0 to |entries|
      invariant fd == entries[..k]
    {
      fd := fd + [entries[k]];
    }
  }

  // ---------------------------------------------------------------- the page

  /** The navigations the page schedules with `setTimeout(..., 600)`. */
  datatype Navigation = Back | ToMyListings

  class EditPetPage {
    var loading: bool
    var saving: bool
    var deleting: bool
    var error: string
    var saved: bool
    var deletedMsg: string
    var data: EditData
    var existingPhotos: seq<Option<string>>
    var files: seq<File>
    /** The navigation a pending timer will perform. */
    var pendingNav: Option<Navigation>
    /** The last navigation performed. */
    var navigatedTo: Option<Navigation>

    constructor ()
      ensures loading && !saving && !deleting && error == "" && !saved && deletedMsg == ""
      ensures data == InitialData && existingPhotos == [] && files == [] && pendingNav == None && navigatedTo == None
    {
      loading := true;
      saving := false;
      deleting := false;
      error := "";
      saved := false;
      deletedMsg := "";
      data := InitialData;
      existingPhotos := [];
      files := [];
      pendingNav := None;
      navigatedTo := None;
    }

    /** `loadPet`: `reply` is None when the request throws, Some(None) when it carries no pet. */
    method LoadPet(reply: Option<Option<Pet>>)
      modifies this
      ensures !loading
      ensures reply.Some? && reply.value.Some? ==>
                data == LoadedData(reply.value.value) && existingPhotos == LoadedPhotos(reply.value.value) && error == ""
      ensures !(reply.Some? && reply.value.Some?) ==>
                error == LoadError && data == old(data) && existingPhotos == old(existingPhotos)
      ensures saving == old(saving) && deleting == old(deleting) && saved == old(saved) && deletedMsg == old(deletedMsg)
      ensures files == old(files) && pendingNav == old(pendingNav) && navigatedTo == old(navigatedTo)
    {
      loading := true;
      if reply.None? || reply.value.None? {
        error := LoadError;
        loading := false;
        return;
      }
      var p := reply.value.value;
      data := LoadedData(p);
      existingPhotos := LoadedPhotos(p);
      error := "";
      loading := false;
    }

    /** The file input replaces the picked files. */
    method PickFiles(picked: seq<File>)
      modifies this
      ensures files == picked
      ensures loading == old(loading) && saving == old(saving) && deleting == old(deleting) && error == old(error)
      ensures saved == old(saved) && deletedMsg == old(deletedMsg) && data == old(data)
      ensures existingPhotos == old(existingPhotos) && pendingNav == old(pendingNav) && navigatedTo == old(navigatedTo)
    {
      files := picked;
    }

    /** `submit`: build the FormData and PATCH it (`patched` is false when the request throws); on success reload,
        clear the picked files, show "saved" and arm the timer that goes back. */
    method Submit(toNumber: string -> JsNumber, patched: bool, reload: Option<Option<Pet>>) returns (fd: seq<Entry>)
      modifies this
      ensures fd == EditForm(old(data), old(files), toNumber)
      ensures !saving
      ensures !patched ==> error == SaveError && !saved && files == old(files) && data == old(data)
                           && pendingNav == old(pendingNav) && !loading == !old(loading)
      ensures patched ==> files == [] && saved && pendingNav == Some(Back) && !loading
      ensures patched && reload.Some? && reload.value.Some? ==> data == LoadedData(reload.value.value) && error == ""
      ensures patched && !(reload.Some? && reload.value.Some?) ==> error == LoadError && data == old(data)
      ensures deleting == old(deleting) && deletedMsg == old(deletedMsg) && navigatedTo == old(navigatedTo)
    {
      saving := true;
      error := "";
      saved := false;
      var fields := AppendEditFields(data, toNumber);
      fd := AppendPhotos(fields, files);
      if !patched {
        error := SaveError;
        saving := false;
        return;
      }
      LoadPet(reload);
      files := [];
      saved := true;
      pendingNav := Some(Back);
      saving := false;
    }

    /** `markAsAdopted`: nothing while deleting, saving or loading, nor when the user does not confirm; otherwise
        DELETE the listing (`deleted` is false when the request throws) and, on success, arm the timer to My Listings. */
    method MarkAsAdopted(confirmed: bool, deleted: bool)
      modifies this
      ensures old(deleting || saving || loading) || !confirmed ==>
                deleting == old(deleting) && error == old(error) && deletedMsg == old(deletedMsg) && pendingNav == old(pendingNav)
      ensures !old(deleting || saving || loading) && confirmed && deleted ==>
                !deleting && error == "" && deletedMsg == DeletedMessage && pendingNav == Some(ToMyListings)
      ensures !old(deleting || saving || loading) && confirmed && !deleted ==>
                !deleting && error == DeleteError && deletedMsg == old(deletedMsg) && pendingNav == old(pendingNav)
      ensures loading == old(loading) && saving == old(saving) && saved == old(saved) && data == old(data)
      ensures existingPhotos == old(existingPhotos) && files == old(files) && navigatedTo == old(navigatedTo)
    {
      if deleting || saving || loading {
        return;
      }
      if !confirmed {
        return;
      }
      deleting := true;
      error := "";
      if deleted {
        deletedMsg := DeletedMessage;
        pendingNav := Some(ToMyListings);
      } else {
        error := DeleteError;
      }
      deleting := false;
    }

    /** The 600 ms timer fires and performs the armed navigation. */
    method TimerFired()
      requires pendingNav.Some?
      modifies this
      ensures navigatedTo == old(pendingNav) && pendingNav == None
      ensures loading == old(loading) && saving == old(saving) && deleting == old(deleting) && error == old(error)
      ensures saved == old(saved) && deletedMsg == old(deletedMsg) && data == old(data)
      ensures existingPhotos == old(existingPhotos) && files == old(files)
    {
      navigatedTo := pendingNav;
      pendingNav := None;
    }
  }
}
