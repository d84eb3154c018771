// src/pages/NewPet.jsx: the "list a pet" form. The picked files are capped at
// five, a file can be removed by its position, and submit appends the fields
// to a FormData one by one before handing it to the listing store's `create`.
// `Number(...)` of the age text is an input, as is the store's reply.

module NewPet {
  import opened Js
  import opened PetData
  import opened Pets

  /** The form's fields, as the page keeps them (every input is text, the three flags are booleans). */
  datatype NewPetData = NewPetData(
    name: string, species: string, otherSpecies: string, breed: string, gender: string,
    ageMonths: string, size: string, city: string, description: string,
    vaccinated: bool, dewormed: bool, sterilized: bool)

  const InitialData: NewPetData :=
    NewPetData("", "dog", "", "", "unknown", "", "medium", "", "", false, false, false)

  /** At most this many files are kept. */
  const MaxFiles: nat := 5

  // ---------------------------------------------------------------- the file list

  /** `[...files, ...picked].slice(0, MAX)`. */
  function Capped(files: seq<File>, picked: seq<File>): (r: seq<File>)
    ensures |r| == if |files| + |picked| < MaxFiles then |files| + |picked| else MaxFiles
    ensures forall i :: 0 <= i < |r| ==> r[i] == (files + picked)[i]
  {
    var all := files + picked;
    if |all| <= MaxFiles then all else all[..MaxFiles]
  }

  /** The earlier selection, cut at five, stays at the front of the new one. */
  lemma {:induction false} CappedKeepsEarlierSelection(files: seq<File>, picked: seq<File>)
    ensures var keep := if |files| < MaxFiles then |files| else MaxFiles;
            keep <= |Capped(files, picked)| && Capped(files, picked)[..keep] == files[..keep]
  {
    var keep := if |files| < MaxFiles then |files| else MaxFiles;
    var r := Capped(files, picked);
    forall i | 0 <= i < keep
      ensures r[..keep][i] == files[..keep][i]
    {
      assert r[i] == (files + picked)[i];
    }
  }

  /** `arr.filter((_, i) => i !== idx)`: an index outside the list removes nothing. */
  function RemoveAt(s: seq<File>, idx: int): (r: seq<File>)
    ensures 0 <= idx < |s| ==> |r| == |s| - 1
    ensures !(0 <= idx < |s|) ==> r == s
  {
    if 0 <= idx < |s| then s[..idx] + s[idx + 1..] else s
  }

  /** Removal keeps every other file, in its order: before `idx` in place, after it moved up by one. */
  lemma {:induction false} RemoveAtKeepsOrder(s: seq<File>, idx: int)
    requires 0 <= idx < |s|
    ensures forall j :: 0 <= j < idx ==> RemoveAt(s, idx)[j] == s[j]
    ensures forall j :: idx <= j < |s| - 1 ==> RemoveAt(s, idx)[j] == s[j + 1]
    ensures multiset(RemoveAt(s, idx)) + multiset{s[idx]} == multiset(s)
  {
    assert s == s[..idx] + [s[idx]] + s[idx + 1..];
  }

  // ---------------------------------------------------------------- the form

  /** `Math.max(0, n)`: NaN stays NaN. */
  function MaxZero(n: JsNumber): (r: JsNumber)
    ensures r.NaN? <==> n.NaN?
    ensures r.Num? ==> r.value >= 0.0
    ensures n.Num? && n.value >= 0.0 ==> r == n
  {
    match n
    case NaN => NaN
    case Num(v) => if v < 0.0 then Num(0.0) else n
  }

  /** `String(b)`. */
  function BoolText(b: bool): string {
    if b then "true" else "false"
  }

  /** One `fd.append(key, value)` of `submit`, made only when `made` holds. */
  datatype FieldAppend = FieldAppend(key: string, made: bool, value: FieldValue)

  /** `submit` makes this many appends before the files. */
  const FieldCount: nat := 12

  /** The appends of `submit` before the files, in order: the other-species name only for "other",
      the optional text fields only when non-empty, the age only when given (as `Math.max(0, Number(age))`),
      the three flags always, as text. */
  function FieldAppends(d: NewPetData, toNumber: string -> JsNumber): (r: seq<FieldAppend>)
    ensures |r| == FieldCount
  {
    seq(FieldCount, k requires 0 <= k < FieldCount => FieldAppendAt(d, toNumber, k))
  }

  /** The `k`-th append. */
  function FieldAppendAt(d: NewPetData, toNumber: string -> JsNumber, k: nat): FieldAppend
    requires k < FieldCount
  {
    if k == 0 then FieldAppend("name", true, Text(d.name))
    else if k == 1 then FieldAppend("species", true, Text(d.species))
    else if k == 2 then FieldAppend("otherSpecies", d.species == "other", Text(Trim(d.otherSpecies)))
    else if k == 3 then FieldAppend("breed", |d.breed| > 0, Text(d.breed))
    else if k == 4 then FieldAppend("gender", true, Text(d.gender))
    else if k == 5 then FieldAppend("ageMonths", |d.ageMonths| > 0, Number(MaxZero(toNumber(d.ageMonths))))
    else if k == 6 then FieldAppend("size", |d.size| > 0, Text(d.size))
    else if k == 7 then FieldAppend("city", |d.city| > 0, Text(d.city))
    else if k == 8 then FieldAppend("description", |d.description| > 0, Text(d.description))
    else if k == 9 then FieldAppend("vaccinated", true, Text(BoolText(d.vaccinated)))
    else if k == 10 then FieldAppend("dewormed", true, Text(BoolText(d.dewormed)))
    else FieldAppend("sterilized", true, Text(BoolText(d.sterilized)))
  }

  /** The entries a run of appends leaves in the FormData: those made, in order. */
  function Made(steps: seq<FieldAppend>): (r: seq<Entry>)
    ensures |r| <= |steps|
  {
    if steps == [] then []
    else
      var last := steps[|steps| - 1];
      Made(steps[..|steps| - 1]) + (if last.made then [Entry(last.key, last.value)] else [])
  }

  /** The FormData `submit` builds: the fields, then one entry per file. */
  function NewPetForm(d: NewPetData, files: seq<File>, toNumber: string -> JsNumber): seq<Entry> {
    Made(FieldAppends(d, toNumber)) + PhotoEntries(files)
  }

  /** A key no append uses gets no value. */
  lemma {:induction false} MadeNotUnder(steps: seq<FieldAppend>, key: string)
    requires forall j :: 0 <= j < |steps| ==> steps[j].key != key
    ensures Values(Made(steps), key) == []
  {
    if steps != [] {
      var init := steps[..|steps| - 1];
      var last := steps[|steps| - 1];
      var tail := if last.made then [Entry(last.key, last.value)] else [];
      assert Made(steps) == Made(init) + tail;
      MadeNotUnder(init, key);
      ValuesAppend(Made(init), tail, key);
      LastValues(last, key);
    }
  }

  /** A key exactly one append uses gets that append's value, if the append is made. */
  lemma {:induction false} MadeUnder(steps: seq<FieldAppend>, key: string, i: nat)
    requires i < |steps| && steps[i].key == key
    requires forall j :: 0 <= j < |steps| && j != i ==> steps[j].key != key
    ensures Values(Made(steps), key) == if steps[i].made then [steps[i].value] else []
    decreases |steps|
  {
    var init := steps[..|steps| - 1];
    var last := steps[|steps| - 1];
    var tail := if last.made then [Entry(last.key, last.value)] else [];
    assert Made(steps) == Made(init) + tail;
    ValuesAppend(Made(init), tail, key);
    LastValues(last, key);
    assert forall j :: 0 <= j < |init| ==> init[j] == steps[j];
    if i == |steps| - 1 {
      MadeNotUnder(init, key);
    } else {
      assert last.key != key;
      MadeUnder(init, key, i);
    }
  }

  /** The values one append contributes under `key`. */
  lemma {:induction false} LastValues(a: FieldAppend, key: string)
    ensures Values(if a.made then [Entry(a.key, a.value)] else [], key) == if a.made && a.key == key then [a.value] else []
  {
    if a.made {
      assert [Entry(a.key, a.value)][..0] == [];
    }
  }

  /** What `submit` sends under the key of exactly one of its appends: that append's value when it is made, else nothing. */
  lemma {:induction false} SentUnder(d: NewPetData, files: seq<File>, toNumber: string -> JsNumber, i: nat, key: string)
    requires i < FieldCount && FieldAppendAt(d, toNumber, i).key == key && key != "photos"
    requires forall j :: 0 <= j < FieldCount && j != i ==> FieldAppendAt(d, toNumber, j).key != key
    ensures var a := FieldAppendAt(d, toNumber, i);
            Values(NewPetForm(d, files, toNumber), key) == if a.made then [a.value] else []
  {
    MadeUnder(FieldAppends(d, toNumber), key, i);
    ValuesAppend(Made(FieldAppends(d, toNumber)), PhotoEntries(files), key);
    PhotoValues(files, key);
  }

  /** The other-species name is sent, trimmed, exactly when the species is "other". */
  lemma {:induction false} OtherSpeciesOnlyForOther(d: NewPetData, files: seq<File>, toNumber: string -> JsNumber)
    ensures Values(NewPetForm(d, files, toNumber), "otherSpecies")
            == (if d.species == "other" then [Text(Trim(d.otherSpecies))] else [])
  {
    SentUnder(d, files, toNumber, 2, "otherSpecies");
  }

  /** The age is sent only when given, and then as a number that is never negative. */
  lemma {:induction false} AgeOnlyWhenGiven(d: NewPetData, files: seq<File>, toNumber: string -> JsNumber)
    ensures Values(NewPetForm(d, files, toNumber), "ageMonths")
            == (if |d.ageMonths| > 0 then [Number(MaxZero(toNumber(d.ageMonths)))] else [])
    ensures forall v :: v in Values(NewPetForm(d, files, toNumber), "ageMonths") && v.Number? && v.n.Num? ==> v.n.value >= 0.0
  {
    SentUnder(d, files, toNumber, 5, "ageMonths");
  }

  /** The breed and the city are sent only when non-empty. */
  lemma {:induction false} OptionalFieldsOnlyWhenFilled(d: NewPetData, files: seq<File>, toNumber: string -> JsNumber)
    ensures Values(NewPetForm(d, files, toNumber), "breed") == (if |d.breed| > 0 then [Text(d.breed)] else [])
    ensures Values(NewPetForm(d, files, toNumber), "city") == (if |d.city| > 0 then [Text(d.city)] else [])
  {
    SentUnder(d, files, toNumber, 3, "breed");
    SentUnder(d, files, toNumber, 7, "city");
  }

  /** The three flags are always sent, as "true" or "false". */
  lemma {:induction false} FlagsAlwaysSent(d: NewPetData, files: seq<File>, toNumber: string -> JsNumber)
    ensures Values(NewPetForm(d, files, toNumber), "vaccinated") == [Text(BoolText(d.vaccinated))]
    ensures Values(NewPetForm(d, files, toNumber), "dewormed") == [Text(BoolText(d.dewormed))]
    ensures Values(NewPetForm(d, files, toNumber), "sterilized") == [Text(BoolText(d.sterilized))]
  {
    SentUnder(d, files, toNumber, 9, "vaccinated");
    SentUnder(d, files, toNumber, 10, "dewormed");
    SentUnder(d, files, toNumber, 11, "sterilized");
  }

  /** Each file is sent once under "photos", in the order held. */
  lemma {:induction false} EveryFileSentInOrder(d: NewPetData, files: seq<File>, toNumber: string -> JsNumber)
    ensures |Values(NewPetForm(d, files, toNumber), "photos")| == |files|
    ensures forall i :: 0 <= i < |files| ==> Values(NewPetForm(d, files, toNumber), "photos")[i] == Upload(files[i])
  {
    var fields := Made(FieldAppends(d, toNumber));
    NoFieldUnderPhotos(d, toNumber);
    MadeNotUnder(FieldAppends(d, toNumber), "photos");
    ValuesAppend(fields, PhotoEntries(files), "photos");
    PhotoValues(files, "photos");
    assert Values(NewPetForm(d, files, toNumber), "photos") == Values(PhotoEntries(files), "photos");
  }

  /** No field is appended under "photos". */
  lemma NoFieldUnderPhotos(d: NewPetData, toNumber: string -> JsNumber)
    ensures forall j :: 0 <= j < FieldCount ==> FieldAppends(d, toNumber)[j].key != "photos"
  {
  }

  /** Whatever the user filled in, the FormData `submit` hands to the store is never empty ... */
  lemma {:induction false} NewPetFormNotEmpty(d: NewPetData, files: seq<File>, toNumber: string -> JsNumber)
    ensures NewPetForm(d, files, toNumber) != []
    ensures Entry("name", Text(d.name)) in NewPetForm(d, files, toNumber)
  {
    SentUnder(d, files, toNumber, 0, "name");
    ValuesMember(NewPetForm(d, files, toNumber), "name", Text(d.name));
  }

  /** A value read back under a key was appended under it. */
  lemma {:induction false} ValuesMember(form: seq<Entry>, key: string, v: FieldValue)
    requires v in Values(form, key)
    ensures Entry(key, v) in form
  {
    if form != [] {
      var init := form[..|form| - 1];
      if v in Values(init, key) {
        ValuesMember(init, key, v);
        assert form == init + [form[|form| - 1]];
      } else {
        assert form[|form| - 1] == Entry(key, v);
      }
    }
  }

  /** ... yet `create` as written rebuilds it from `Object.entries` and posts nothing. */
  lemma {:induction false} NewPetPostsNothingAsWritten(d: NewPetData, files: seq<File>, toNumber: string -> JsNumber)
    ensures NewPetForm(d, files, toNumber) != [] && CreateFormAsWritten(Form(NewPetForm(d, files, toNumber))) == []
  {
    NewPetFormNotEmpty(d, files, toNumber);
  }

  /** ... while the intended `create` posts it whole: every file under "photos", in order, and the name. */
  lemma {:induction false} NewPetPostsEveryField(d: NewPetData, files: seq<File>, toNumber: string -> JsNumber)
    ensures var posted := CreateForm(Form(NewPetForm(d, files, toNumber)));
            |Values(posted, "photos")| == |files|
            && (forall i :: 0 <= i < |files| ==> Values(posted, "photos")[i] == Upload(files[i]))
            && Entry("name", Text(d.name)) in posted
  {
    EveryFileSentInOrder(d, files, toNumber);
    NewPetFormNotEmpty(d, files, toNumber);
  }

  /** The chain of appends of `submit`, taken in order; an append whose guard fails adds nothing. */
  method AppendFields(d: NewPetData, toNumber: string -> JsNumber) returns (fd: seq<Entry>)
    ensures fd == Made(FieldAppends(d, toNumber))
  {
    var steps := FieldAppends(d, toNumber);
    fd := [];
    for k := 0 to |steps|
      invariant fd == Made(steps[..k])
    {
      assert steps[..k + 1][..k] == steps[..k];
      if steps[k].made {
        fd := fd + [Entry(steps[k].key, steps[k].value)];
      }
    }
    assert steps[..|steps|] == steps;
  }

  // ---------------------------------------------------------------- the page

  class NewPetPage {
    var data: NewPetData
    var files: seq<File>
    var submitting: bool
    var error: string
    /** The last `nav(...)` target, if any. */
    var navigatedTo: Option<string>

    /** No more than five files are ever held. */
    predicate Valid()
      reads this
    {
      |files| <= MaxFiles
    }

    constructor ()
      ensures Valid() && data == InitialData && files == [] && !submitting && error == "" && navigatedTo == None
    {
      data := InitialData;
      files := [];
      submitting := false;
      error := "";
      navigatedTo := None;
    }

    /** `handleFiles(fileList)`: the picked files go after the held ones, and the list is cut at five. */
    method HandleFiles(picked: seq<File>)
      requires Valid()
      modifies this
      ensures Valid() && files == Capped(old(files), picked)
      ensures data == old(data) && submitting == old(submitting) && error == old(error) && navigatedTo == old(navigatedTo)
    {
      files := Capped(files, picked);
    }

    /** `removeFileAt(idx)`. */
    method RemoveFileAt(idx: int)
      requires Valid()
      modifies this
      ensures Valid() && files == RemoveAt(old(files), idx)
      ensures data == old(data) && submitting == old(submitting) && error == old(error) && navigatedTo == old(navigatedTo)
    {
      files := RemoveAt(files, idx);
    }

    /** `submit`: the FormData is built by successive appends and handed to the store's `create`;
        the page moves to "/pets" only when a record comes back. */
    method Submit(store: PetsStore, toNumber: string -> JsNumber, reply: Option<Option<Pet>>)
      returns (fd: seq<Entry>, posted: seq<Entry>)
      requires Valid()
      modifies this, store
      ensures Valid()
      ensures fd == NewPetForm(data, files, toNumber) && posted == fd
      ensures data == old(data) && files == old(files)
      ensures !submitting && error == ""
      ensures navigatedTo == (if reply.Some? && reply.value.Some? then Some("/pets") else old(navigatedTo))
      ensures reply.Some? && reply.value.Some? ==> store.myListings == [reply.value.value] + old(store.myListings)
      ensures !(reply.Some? && reply.value.Some?) ==> store.myListings == old(store.myListings)
      ensures store.list == old(store.list) && store.listMeta == old(store.listMeta)
      ensures store.featured == old(store.featured) && store.adopted == old(store.adopted)
      ensures store.adoptedCount == old(store.adoptedCount) && store.waitingCount == old(store.waitingCount)
      ensures store.myListingsMeta == old(store.myListingsMeta) && store.current == old(store.current)
      ensures store.loading == old(store.loading) && store.myListingsLoading == old(store.myListingsLoading)
    {
      error := "";
      submitting := true;
      var fields := AppendFields(data, toNumber);
      fd := AppendPhotos(fields, files);
      var created;
      created, posted := store.Create(Form(fd), reply);
      if created.Some? {
        navigatedTo := Some("/pets");
      }
      submitting := false;
    }
  }
}
