// The pet record the server hands out, as the listing pages and the card read it,
// and the multipart form fields the client posts to create or edit one.

module PetData {
  import opened Js

  /** `pet.owner`: a populated owner reference. */
  datatype OwnerRef = OwnerRef(oid: Option<string>, id: Option<string>)

  /** `pet.listedBy`: absent (null), a bare user id string, or a populated user object. */
  datatype ListedBy =
    | NoListing
    | ListedById(ref: string)
    | ListedByUser(oid: Option<string>, id: Option<string>, fullname: Option<string>,
                   username: Option<string>, phone: Option<string>, avatar: Option<string>)

  /** One pet listing; `oid` is Mongo's `_id`. Every field may be missing. */
  datatype Pet = Pet(
    oid: Option<string>, id: Option<string>,
    name: Option<string>, species: Option<string>, otherSpecies: Option<string>,
    breed: Option<string>, gender: Option<string>, size: Option<string>,
    city: Option<string>, description: Option<string>, status: Option<string>,
    photos: Option<seq<Option<string>>>,
    ageMonths: Option<int>, ageYears: Option<int>,
    ownerId: Option<string>, ownerName: Option<string>,
    contactPhone: Option<string>, ownerPhone: Option<string>,
    owner: Option<OwnerRef>, listedBy: ListedBy,
    vaccinated: Option<bool>, dewormed: Option<bool>, sterilized: Option<bool>)

  /** `pet._id || pet.id`. */
  function PetId(p: Pet): (r: Option<string>)
    ensures Truthy(r) <==> Truthy(p.oid) || Truthy(p.id)
    ensures Truthy(p.oid) ==> r == p.oid
  {
    Or(p.oid, p.id)
  }

  /** A file the user picked; only its identity matters here. */
  datatype File = File(name: string, handle: nat)

  /** A value a FormData entry carries: `append` turns every non-file value into its string form. */
  datatype FieldValue =
    | Text(s: string)
    | Number(n: JsNumber)
    | Flag(b: bool)
    | Upload(f: File)
    | Joined(items: seq<FieldValue>)

  /** One `form.append(key, value)`. */
  datatype Entry = Entry(key: string, value: FieldValue)

  /** One "photos" entry per file, in order. */
  function PhotoEntries(files: seq<File>): (r: seq<Entry>)
    ensures |r| == |files| && forall i :: 0 <= i < |r| ==> r[i] == Entry("photos", Upload(files[i]))
  {
    if files == [] then [] else PhotoEntries(files[..|files| - 1]) + [Entry("photos", Upload(files[|files| - 1]))]
  }

  /** `fd.getAll(key)`: the values appended under `key`, in order. */
  function Values(form: seq<Entry>, key: string): seq<FieldValue> {
    if form == [] then []
    else Values(form[..|form| - 1], key) + (if form[|form| - 1].key == key then [form[|form| - 1].value] else [])
  }

  lemma {:induction false} ValuesAppend(a: seq<Entry>, b: seq<Entry>, key: string)
    ensures Values(a + b, key) == Values(a, key) + Values(b, key)
    decreases |b|
  {
    if b == [] {
      assert a + b == a;
    } else {
      assert (a + b)[..|a + b| - 1] == a + b[..|b| - 1];
      ValuesAppend(a, b[..|b| - 1], key);
    }
  }

  lemma {:induction false} PhotoValues(files: seq<File>, key: string)
    ensures key == "photos" ==> |Values(PhotoEntries(files), key)| == |files|
                                && forall i :: 0 <= i < |files| ==> Values(PhotoEntries(files), key)[i] == Upload(files[i])
    ensures key != "photos" ==> Values(PhotoEntries(files), key) == []
  {
    if files != [] {
      var init := files[..|files| - 1];
      PhotoValues(init, key);
      ValuesAppend(PhotoEntries(init), [Entry("photos", Upload(files[|files| - 1]))], key);
      assert [Entry("photos", Upload(files[|files| - 1]))][..0] == [];
    }
  }

  /** `for (const f of files) fd.append("photos", f)`. */
  method AppendPhotos(fields: seq<Entry>, files: seq<File>) returns (fd: seq<Entry>)
    ensures fd == fields + PhotoEntries(files)
  {
    fd := fields;
    var i := 0;
    while i < |files|
      invariant 0 <= i <= |files|
      invariant fd == fields + PhotoEntries(files[..i])
    {
      assert files[..i + 1][..i] == files[..i];
      fd := fd + [Entry("photos", Upload(files[i]))];
      i := i + 1;
    }
    assert files[..i] == files;
  }
}
