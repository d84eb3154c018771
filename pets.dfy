// src/store/pets.js: the listing store. Three pure readers turn a response
// body into a list, paging metadata and a total; the actions replace, reset
// or prepend the store's collections from a response, or keep them when a
// request fails. The HTTP reply of each action is an input: None stands for
// a request that threw.

module Pets {
  import opened Js
  import opened PetData

  // ---------------------------------------------------------------- response bodies

  /** `meta` or `pagination` of a list response; numbers are taken as integers. */
  datatype Meta = Meta(total: Option<int>, page: Option<int>, limit: Option<int>,
                       hasNext: Option<bool>, sort: Option<string>)

  /** What an object body carries under `data`. */
  datatype Payload = NoData | Items(items: seq<Pet>) | OnePet(pet: Pet)

  /** `resp.data`: missing, a bare array, or an object `{ data, meta, pagination }`. */
  datatype Body =
    | NoBody
    | ArrayBody(items: seq<Pet>)
    | Envelope(data: Payload, meta: Option<Meta>, pagination: Option<Meta>)

  /** The paging metadata the store keeps. */
  datatype ListMeta = ListMeta(total: int, page: int, limit: int, hasNext: bool, sort: Option<string>)

  /** The keys a caller spreads over `readMeta`'s result; None is a key the caller leaves out. */
  datatype Fallback = Fallback(page: Option<int>, limit: Option<int>, sort: Option<string>)

  /** `{ total: 0, page: 1, limit: 12, hasNext: false, sort: "-createdAt" }`. */
  const DefaultMeta: ListMeta := ListMeta(0, 1, 12, false, Some("-createdAt"))

  /** `normalizeList(resp)`: the array body, else the array under `data`, else nothing. */
  function NormalizeList(b: Body): (r: seq<Pet>)
    ensures b.ArrayBody? ==> r == b.items
    ensures b.Envelope? && b.data.Items? ==> r == b.data.items
    ensures !b.ArrayBody? && !(b.Envelope? && b.data.Items?) ==> r == []
  {
    match b
    case ArrayBody(items) => items
    case Envelope(Items(items), _, _) => items
    case _ => []
  }

  /** `d?.meta || d?.pagination || {}`: the first metadata object present. */
  function MetaOf(b: Body): (r: Meta)
    ensures b.Envelope? && b.meta.Some? ==> r == b.meta.value
    ensures b.Envelope? && b.meta.None? && b.pagination.Some? ==> r == b.pagination.value
    ensures !(b.Envelope? && (b.meta.Some? || b.pagination.Some?)) ==> r == Meta(None, None, None, None, None)
  {
    if b.Envelope? && b.meta.Some? then b.meta.value
    else if b.Envelope? && b.pagination.Some? then b.pagination.value
    else Meta(None, None, None, None, None)
  }

  /** `readMeta(resp, fallback)`: defaults 0, 1, 12 and false under the response's values, the fallback over both. */
  function ReadMeta(b: Body, fb: Fallback): (r: ListMeta)
    ensures fb.page.Some? ==> r.page == fb.page.value
    ensures fb.limit.Some? ==> r.limit == fb.limit.value
    ensures fb.sort.Some? ==> r.sort == fb.sort
    ensures fb.page.None? ==> r.page == (if MetaOf(b).page.Some? then MetaOf(b).page.value else 1)
    ensures fb.limit.None? ==> r.limit == (if MetaOf(b).limit.Some? then MetaOf(b).limit.value else 12)
    ensures fb.sort.None? ==> r.sort == (if Truthy(MetaOf(b).sort) then MetaOf(b).sort else None)
    ensures r.total == (if MetaOf(b).total.Some? then MetaOf(b).total.value else 0)
    ensures r.hasNext <==> MetaOf(b).hasNext == Some(true)
  {
    var m := MetaOf(b);
    var read := ListMeta(
      Coalesce(m.total, Some(0)).value,
      Coalesce(m.page, Some(1)).value,
      Coalesce(m.limit, Some(12)).value,
      Coalesce(m.hasNext, Some(false)).value,
      if Truthy(m.sort) then m.sort else None);
    read.(page := if fb.page.Some? then fb.page.value else read.page,
          limit := if fb.limit.Some? then fb.limit.value else read.limit,
          sort := if fb.sort.Some? then fb.sort else read.sort)
  }

  /** `d?.meta?.total ?? d?.pagination?.total`. */
  function DeclaredTotal(b: Body): (r: Option<int>)
    ensures !b.Envelope? ==> r.None?
    ensures b.Envelope? && b.meta.Some? && b.meta.value.total.Some? ==> r == b.meta.value.total
    ensures r.Some? ==> b.Envelope? && ((b.meta.Some? && r == b.meta.value.total)
                                        || (b.pagination.Some? && r == b.pagination.value.total))
  {
    if b.Envelope? && b.meta.Some? && b.meta.value.total.Some? then b.meta.value.total
    else if b.Envelope? && b.pagination.Some? then b.pagination.value.total
    else None
  }

  /** `readTotal(resp, fallbackLen)`: a declared total, else the length of an array found, else the fallback. */
  function ReadTotal(b: Body, fallbackLen: int): (r: int)
    ensures DeclaredTotal(b).Some? ==> r == DeclaredTotal(b).value
    ensures DeclaredTotal(b).None? && (b.ArrayBody? || (b.Envelope? && b.data.Items?)) ==> r == |NormalizeList(b)|
    ensures DeclaredTotal(b).None? && !b.ArrayBody? && !(b.Envelope? && b.data.Items?) ==> r == fallbackLen
  {
    if DeclaredTotal(b).Some? then DeclaredTotal(b).value
    else match b
      case ArrayBody(items) => |items|
      case Envelope(Items(items), _, _) => |items|
      case _ => fallbackLen
  }

  /** With no declared total, `fetchAdopted`'s count is the length of the list it stores. */
  lemma TotalDefaultsToListLength(b: Body)
    requires DeclaredTotal(b).None?
    ensures ReadTotal(b, |NormalizeList(b)|) == |NormalizeList(b)|
  {
  }

  /** `??` keeps a declared total of 0 even when the body holds items (`||` would have taken their count). */
  lemma DeclaredZeroIsKept(items: seq<Pet>)
    requires items != []
    ensures ReadTotal(Envelope(Items(items), Some(Meta(Some(0), None, None, None, None)), None), 7) == 0
    ensures |NormalizeList(Envelope(Items(items), Some(Meta(Some(0), None, None, None, None)), None))| > 0
  {
  }

  /** `readMeta` takes the whole `meta` object when present, `readTotal` looks through it field by field:
      an empty `meta` beside a `pagination` with a total gives two different totals. */
  lemma MetaAndTotalCanDisagree(t: int)
    requires t != 0
    ensures var b := Envelope(NoData, Some(Meta(None, None, None, None, None)), Some(Meta(Some(t), None, None, None, None)));
            ReadMeta(b, Fallback(None, None, None)).total == 0 && ReadTotal(b, 0) == t
  {
  }

  // ---------------------------------------------------------------- the create form

  /** A value of the payload object `create` receives; null and undefined are both Null. */
  datatype PayloadValue = Null | Value(v: FieldValue) | Array(items: seq<FieldValue>)

  /** What `create(payload)` is given: a plain object's entries in order, or a FormData. */
  datatype CreatePayload = Fields(fields: seq<(string, PayloadValue)>) | Form(entries: seq<Entry>)

  /** The appends one payload entry makes: each photo on its own, nothing for null, one entry otherwise. */
  function EntriesFor(k: string, v: PayloadValue): (r: seq<Entry>)
    ensures k == "photos" && v.Array? ==> |r| == |v.items| && forall i :: 0 <= i < |r| ==> r[i] == Entry("photos", v.items[i])
    ensures v.Null? ==> r == []
    ensures v.Value? ==> r == [Entry(k, v.v)]
    ensures forall e :: e in r ==> e.key == k
  {
    if k == "photos" && v.Array? then seq(|v.items|, i requires 0 <= i < |v.items| => Entry("photos", v.items[i]))
    else if v.Null? then []
    else if v.Value? then [Entry(k, v.v)]
    else [Entry(k, Joined(v.items))]
  }

  /** The form `Object.entries(payload).forEach(...)` builds. */
  function FormOf(fields: seq<(string, PayloadValue)>): (r: seq<Entry>)
    ensures (forall j :: 0 <= j < |fields| ==> fields[j].1.Null?) ==> r == []
  {
    if fields == [] then []
    else
      var init := fields[..|fields| - 1];
      assert forall j :: 0 <= j < |init| ==> init[j] == fields[j];
      FormOf(init) + EntriesFor(fields[|fields| - 1].0, fields[|fields| - 1].1)
  }

  /** The form is built entry by entry: two payloads one after the other give two forms one after the other. */
  lemma {:induction false} FormOfAppend(a: seq<(string, PayloadValue)>, b: seq<(string, PayloadValue)>)
    ensures FormOf(a + b) == FormOf(a) + FormOf(b)
    decreases |b|
  {
    if b != [] {
      assert (a + b)[..|a + b| - 1] == a + b[..|b| - 1];
      FormOfAppend(a, b[..|b| - 1]);
    } else {
      assert a + b == a;
    }
  }

  /** Every appended entry comes from a payload key whose value is not null. */
  lemma {:induction false} FormSkipsNulls(fields: seq<(string, PayloadValue)>)
    ensures forall e :: e in FormOf(fields) ==>
              exists j :: 0 <= j < |fields| && fields[j].0 == e.key && !fields[j].1.Null?
  {
    if fields != [] {
      var init := fields[..|fields| - 1];
      var last := fields[|fields| - 1];
      FormSkipsNulls(init);
      forall e | e in FormOf(fields)
        ensures exists j :: 0 <= j < |fields| && fields[j].0 == e.key && !fields[j].1.Null?
      {
        if e in FormOf(init) {
          var j :| 0 <= j < |init| && init[j].0 == e.key && !init[j].1.Null?;
          assert fields[j] == init[j];
        } else {
          assert e in EntriesFor(last.0, last.1);
          assert fields[|fields| - 1].0 == e.key && !fields[|fields| - 1].1.Null?;
        }
      }
    }
  }

  /** `create` as written: `Object.entries` of a FormData instance is empty, so a FormData posts no fields. */
  function CreateFormAsWritten(p: CreatePayload): (r: seq<Entry>)
    ensures p.Fields? ==> r == FormOf(p.fields)
    ensures p.Form? ==> r == []
  {
    match p
    case Fields(f) => FormOf(f)
    case Form(_) => []
  }

  /** A FormData handed to `create` as written reaches the server without a single field. */
  lemma FormDataPostedEmptyAsWritten()
    ensures CreateFormAsWritten(Form([Entry("name", Text("Rex"))])) == []
  {
  }

  /** `create` as intended: a FormData is posted as it is, a plain object is encoded as before. */
  function CreateForm(p: CreatePayload): (r: seq<Entry>)
    ensures p.Form? ==> r == p.entries
    ensures p.Fields? ==> r == CreateFormAsWritten(p)
  {
    match p
    case Fields(f) => FormOf(f)
    case Form(es) => es
  }

  /** The successive appends of `create`, over a plain object's entries. */
  method BuildForm(fields: seq<(string, PayloadValue)>) returns (form: seq<Entry>)
    ensures form == FormOf(fields)
  {
    form := [];
    var i := 0;
    while i < |fields|
      invariant 0 <= i <= |fields|
      invariant form == FormOf(fields[..i])
    {
      var (k, v) := fields[i];
      ghost var before := form;
      if k == "photos" && v.Array? {
        form := AppendPhotoItems(form, v.items);
      } else if !v.Null? {
        form := form + EntriesFor(k, v);
      }
      assert form == before + EntriesFor(k, v);
      ghost var upto := fields[..i + 1];
      assert upto[..|upto| - 1] == fields[..i];
      assert FormOf(upto) == FormOf(fields[..i]) + EntriesFor(k, v);
      i := i + 1;
    }
    assert fields[..i] == fields;
  }

  /** `photos.forEach(f => fd.append("photos", f))`: each file on its own, in order. */
  method AppendPhotoItems(form0: seq<Entry>, items: seq<FieldValue>) returns (form: seq<Entry>)
    ensures form == form0 + EntriesFor("photos", Array(items))
  {
    form := form0;
    var j := 0;
    while j < |items|
      invariant 0 <= j <= |items|
      invariant form == form0 + EntriesFor("photos", Array(items))[..j]
    {
      form := form + [Entry("photos", items[j])];
      j := j + 1;
    }
    assert EntriesFor("photos", Array(items))[..j] == EntriesFor("photos", Array(items));
  }

  // ---------------------------------------------------------------- the store

  /** `current`: `resp.data.data || resp.data || null` keeps whatever object comes first. */
  datatype Detail = NoDetail | PetDetail(pet: Pet) | ArrayDetail(items: seq<Pet>) | BodyDetail(body: Body)

  function DetailOf(b: Body): (r: Detail)
    ensures b.Envelope? && b.data.OnePet? ==> r == PetDetail(b.data.pet)
    ensures b.NoBody? ==> r == NoDetail
  {
    match b
    case NoBody => NoDetail
    case ArrayBody(items) => ArrayDetail(items)
    case Envelope(OnePet(p), _, _) => PetDetail(p)
    case Envelope(Items(items), _, _) => ArrayDetail(items)
    case Envelope(NoData, _, _) => BodyDetail(b)
  }

  /** `current` after `fetchOne`: the reply's detail, or null when the request threw. */
  function CurrentAfterFetch(resp: Option<Body>): (r: Detail)
    ensures r == NoDetail <==> resp.None? || resp.value.NoBody?
    ensures resp.Some? && resp.value.Envelope? && resp.value.data.OnePet? ==> r == PetDetail(resp.value.data.pet)
  {
    if resp.Some? then DetailOf(resp.value) else NoDetail
  }

  /** The query `fetchMyListings` sends; a status or sort is sent only when truthy. */
  datatype MineQuery = MineQuery(page: int, limit: int, status: Option<string>, sort: Option<string>)

  /** `fetchMyListings(params)`'s argument; None is a key left out. */
  datatype MineParams = MineParams(page: Option<int>, limit: Option<int>, status: Option<string>, sort: Option<string>)

  class PetsStore {
    var list: seq<Pet>
    var listMeta: ListMeta
    var featured: seq<Pet>
    var adopted: seq<Pet>
    var adoptedCount: int
    var waitingCount: int
    var myListings: seq<Pet>
    var myListingsMeta: ListMeta
    var current: Detail
    var loading: bool
    var myListingsLoading: bool

    constructor ()
      ensures list == [] && listMeta == DefaultMeta && featured == [] && adopted == []
      ensures adoptedCount == 0 && waitingCount == 0 && myListings == [] && myListingsMeta == DefaultMeta
      ensures current == NoDetail && !loading && !myListingsLoading
    {
      list := [];
      listMeta := DefaultMeta;
      featured := [];
      adopted := [];
      adoptedCount := 0;
      waitingCount := 0;
      myListings := [];
      myListingsMeta := DefaultMeta;
      current := NoDetail;
      loading := false;
      myListingsLoading := false;
    }

    /** `fetchList(params)`: the list is replaced, never extended; `loading` ends false and a failure propagates. */
    method FetchList(sortParam: Option<string>, resp: Option<Body>) returns (threw: bool)
      modifies this
      ensures threw <==> resp.None?
      ensures !loading
      ensures resp.Some? ==> list == NormalizeList(resp.value)
                             && listMeta == ReadMeta(resp.value, Fallback(None, None, Some(OrElse(sortParam, "-createdAt"))))
      ensures resp.None? ==> list == old(list) && listMeta == old(listMeta)
      ensures featured == old(featured) && adopted == old(adopted) && adoptedCount == old(adoptedCount)
      ensures waitingCount == old(waitingCount) && myListings == old(myListings)
      ensures myListingsMeta == old(myListingsMeta) && current == old(current)
      ensures myListingsLoading == old(myListingsLoading)
    {
      loading := true;
      threw := resp.None?;
      if resp.Some? {
        list := NormalizeList(resp.value);
        listMeta := ReadMeta(resp.value, Fallback(None, None, Some(OrElse(sortParam, "-createdAt"))));
      }
      loading := false;
    }

    /** `fetchFeatured()`: a failure empties the featured list. */
    method FetchFeatured(resp: Option<Body>)
      modifies this
      ensures featured == (if resp.Some? then NormalizeList(resp.value) else [])
      ensures list == old(list) && listMeta == old(listMeta) && adopted == old(adopted)
      ensures adoptedCount == old(adoptedCount) && waitingCount == old(waitingCount)
      ensures myListings == old(myListings) && myListingsMeta == old(myListingsMeta)
      ensures current == old(current) && loading == old(loading) && myListingsLoading == old(myListingsLoading)
    {
      featured := if resp.Some? then NormalizeList(resp.value) else [];
    }

    /** `fetchAdopted()`: the adopted list and its count; a failure resets both. */
    method FetchAdopted(resp: Option<Body>)
      modifies this
      ensures resp.Some? ==> adopted == NormalizeList(resp.value) && adoptedCount == ReadTotal(resp.value, |adopted|)
      ensures resp.None? ==> adopted == [] && adoptedCount == 0
      ensures list == old(list) && listMeta == old(listMeta) && featured == old(featured)
      ensures waitingCount == old(waitingCount)
      ensures myListings == old(myListings) && myListingsMeta == old(myListingsMeta)
      ensures current == old(current) && loading == old(loading) && myListingsLoading == old(myListingsLoading)
    {
      if resp.Some? {
        var items := NormalizeList(resp.value);
        adopted := items;
        adoptedCount := ReadTotal(resp.value, |items|);
      } else {
        adopted := [];
        adoptedCount := 0;
      }
    }

    /** `fetchCounts()`: both counts from two requests; if either fails the previous counts stay. */
    method FetchCounts(adoptedResp: Option<Body>, waitingResp: Option<Body>)
      modifies this
      ensures adoptedResp.Some? && waitingResp.Some? ==>
                adoptedCount == ReadTotal(adoptedResp.value, 0) && waitingCount == ReadTotal(waitingResp.value, 0)
      ensures adoptedResp.None? || waitingResp.None? ==>
                adoptedCount == old(adoptedCount) && waitingCount == old(waitingCount)
      ensures list == old(list) && listMeta == old(listMeta) && featured == old(featured) && adopted == old(adopted)
      ensures myListings == old(myListings) && myListingsMeta == old(myListingsMeta)
      ensures current == old(current) && loading == old(loading) && myListingsLoading == old(myListingsLoading)
    {
      if adoptedResp.Some? && waitingResp.Some? {
        adoptedCount := ReadTotal(adoptedResp.value, 0);
        waitingCount := ReadTotal(waitingResp.value, 0);
      }
    }

    /** `fetchOne(id)`: the request path, and `current` from the reply or null on failure. */
    method FetchOne(id: string, resp: Option<Body>) returns (path: string)
      modifies this
      ensures path == "/pets/" + id
      ensures current == CurrentAfterFetch(resp)
      ensures list == old(list) && listMeta == old(listMeta) && featured == old(featured) && adopted == old(adopted)
      ensures adoptedCount == old(adoptedCount) && waitingCount == old(waitingCount)
      ensures myListings == old(myListings) && myListingsMeta == old(myListingsMeta)
      ensures loading == old(loading) && myListingsLoading == old(myListingsLoading)
    {
      path := "/pets/" + id;
      current := CurrentAfterFetch(resp);
    }

    /** `create(payload)`: posts the form; a created record goes in front of `myListings`.
        `reply` is `resp.data.data` (None inside for a reply without one), or None when the post threw. */
    method Create(payload: CreatePayload, reply: Option<Option<Pet>>) returns (created: Option<Pet>, posted: seq<Entry>)
      modifies this
      ensures posted == CreateForm(payload)
      ensures created == (if reply.Some? then reply.value else None)
      ensures created.Some? ==> myListings == [created.value] + old(myListings)
      ensures created.None? ==> myListings == old(myListings)
      ensures list == old(list) && listMeta == old(listMeta) && featured == old(featured) && adopted == old(adopted)
      ensures adoptedCount == old(adoptedCount) && waitingCount == old(waitingCount)
      ensures myListingsMeta == old(myListingsMeta) && current == old(current)
      ensures loading == old(loading) && myListingsLoading == old(myListingsLoading)
    {
      if payload.Fields? {
        posted := BuildForm(payload.fields);
      } else {
        posted := payload.entries;
      }
      if reply.Some? && reply.value.Some? {
        created := reply.value;
        myListings := [created.value] + myListings;
      } else {
        created := None;
      }
    }

    /** `fetchMyListings(params)`: page and limit default to the stored metadata; a failure resets list and metadata. */
    method FetchMyListings(params: MineParams, resp: Option<Body>) returns (query: MineQuery)
      modifies this
      ensures query.page == (if params.page.Some? then params.page.value else old(myListingsMeta).page)
      ensures query.limit == (if params.limit.Some? then params.limit.value else old(myListingsMeta).limit)
      ensures query.status == (if Truthy(params.status) then params.status else None)
      ensures query.sort == (if Truthy(params.sort) then params.sort else None)
      ensures resp.Some? ==> myListings == NormalizeList(resp.value)
                             && myListingsMeta == ReadMeta(resp.value, Fallback(Some(query.page), Some(query.limit),
                                                                               Some(OrElse(params.sort, "-createdAt"))))
      ensures resp.None? ==> myListings == [] && myListingsMeta == DefaultMeta
      ensures !myListingsLoading
      ensures list == old(list) && listMeta == old(listMeta) && featured == old(featured) && adopted == old(adopted)
      ensures adoptedCount == old(adoptedCount) && waitingCount == old(waitingCount)
      ensures current == old(current) && loading == old(loading)
    {
      var page := if params.page.Some? then params.page.value else myListingsMeta.page;
      var limit := if params.limit.Some? then params.limit.value else myListingsMeta.limit;
      myListingsLoading := true;
      query := MineQuery(page, limit,
                         if Truthy(params.status) then params.status else None,
                         if Truthy(params.sort) then params.sort else None);
      if resp.Some? {
        myListings := NormalizeList(resp.value);
        myListingsMeta := ReadMeta(resp.value, Fallback(Some(page), Some(limit), Some(OrElse(params.sort, "-createdAt"))));
      } else {
        myListings := [];
        myListingsMeta := DefaultMeta;
      }
      myListingsLoading := false;
    }
  }

  /** After a successful `fetchMyListings`, the stored page and limit are the ones the query asked for,
      whatever the server's metadata said; so the next call without params asks for them again. */
  lemma MyListingsMetaFollowsQuery(b: Body, q: MineQuery, sort: string)
    ensures ReadMeta(b, Fallback(Some(q.page), Some(q.limit), Some(sort))).page == q.page
    ensures ReadMeta(b, Fallback(Some(q.page), Some(q.limit), Some(sort))).limit == q.limit
    ensures ReadMeta(b, Fallback(Some(q.page), Some(q.limit), Some(sort))).sort == Some(sort)
  {
  }
}
