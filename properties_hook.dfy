/**
 * The properties hook (src/hooks/useProperties.ts): every snapshot of the
 * listing collection replaces the whole list, each document normalised
 * into a `Property`; a listener error only ends loading. New listings are
 * stamped with the current time. The store itself is outside the model:
 * a snapshot is an input sequence of documents, the clock a parameter.
 */
module PropertiesHook {
  import opened Wrappers
  import opened Listing

  /** A stored listing's fields; `createdAt` and `address` may be absent. */
  datatype DocumentData = DocumentData(
    fields: ListingFields,
    createdAt: Option<int>,
    address: Option<string>)

  /** A document of a snapshot: the store's id and its data. */
  datatype StoredDocument = StoredDocument(id: string, data: DocumentData)

  /** `createdAt || 0`: a stored timestamp, else 0. */
  function TimestampOrZero(t: Option<int>): (r: int)
    ensures t.Some? ==> r == t.value
    ensures t.None? ==> r == 0
  {
    match t
    case Some(n) => if n != 0 then n else 0
    case None => 0
  }

  /** `address || ""`: a stored address, else empty. */
  function AddressOrEmpty(a: Option<string>): (r: string)
    ensures a.Some? ==> r == a.value
    ensures a.None? ==> r == ""
  {
    match a
    case Some(s) => if s != "" then s else ""
    case None => ""
  }

  /** One document as a listing: its id, its fields verbatim, and the two
      defaults. */
  function ToProperty(doc: StoredDocument): (p: Property)
    ensures p.id == doc.id && FieldsOf(p) == doc.data.fields
    ensures p.createdAt == TimestampOrZero(doc.data.createdAt)
    ensures p.address == AddressOrEmpty(doc.data.address)
  {
    var f := doc.data.fields;
    Property(doc.id, f.title, f.description, f.price, f.bedrooms, f.bathrooms,
             f.squareFeet, f.propertyType, f.forRent, f.lat, f.lng, f.imageUrl,
             TimestampOrZero(doc.data.createdAt), AddressOrEmpty(doc.data.address))
  }

  /** `snapshot.docs.map(...)`: one listing per document, in snapshot order. */
  function Normalize(docs: seq<StoredDocument>): (ps: seq<Property>)
    ensures |ps| == |docs|
    ensures forall i :: 0 <= i < |docs| ==> ps[i].id == docs[i].id
    ensures forall i :: 0 <= i < |docs| ==> FieldsOf(ps[i]) == docs[i].data.fields
  {
    if docs == [] then [] else [ToProperty(docs[0])] + Normalize(docs[1..])
  }

  /** Normalising a snapshot is normalising each of its documents. */
  lemma {:induction false} NormalizeAt(docs: seq<StoredDocument>, i: int)
    requires 0 <= i < |docs|
    ensures Normalize(docs)[i] == ToProperty(docs[i])
  {
    if i > 0 {
      NormalizeAt(docs[1..], i - 1);
    }
  }

  /** `addProperty`: the form's fields plus `createdAt` set to `now`. */
  function AddDocument(fields: ListingFields, now: int): (d: DocumentData)
    ensures d.fields == fields && d.createdAt == Some(now) && d.address == None
  {
    DocumentData(fields, Some(now), None)
  }

  /** `updateProperty`: the store replaces the given fields and keeps the rest. */
  function UpdateDocument(d: DocumentData, fields: ListingFields): (r: DocumentData)
    ensures r.fields == fields && r.createdAt == d.createdAt && r.address == d.address
  {
    d.(fields := fields)
  }

  /** A listing added at `now` comes back in the next snapshot with the
      form's fields, that timestamp and no address. */
  lemma AddedListingReadsBack(id: string, fields: ListingFields, now: int)
    ensures var p := ToProperty(StoredDocument(id, AddDocument(fields, now)));
      p.id == id && FieldsOf(p) == fields && p.createdAt == now && p.address == ""
  {
  }

  /** An edited listing comes back with the new fields, and its id,
      timestamp and address unchanged. */
  lemma UpdatedListingReadsBack(doc: StoredDocument, fields: ListingFields)
    ensures var p := ToProperty(StoredDocument(doc.id, UpdateDocument(doc.data, fields)));
      var q := ToProperty(doc);
      p.id == q.id && FieldsOf(p) == fields && p.createdAt == q.createdAt && p.address == q.address
  {
  }

  class PropertiesState {
    var properties: seq<Property>
    var loading: bool

    /** Before the first snapshot: no listings, loading. */
    constructor ()
      ensures properties == [] && loading
    {
      properties := [];
      loading := true;
    }

    /** A snapshot replaces the whole list and ends loading. */
    method OnSnapshot(docs: seq<StoredDocument>)
      modifies this
      ensures properties == Normalize(docs) && !loading
    {
      properties := Normalize(docs);
      loading := false;
    }

    /** A listener error ends loading and keeps the last list. */
    method OnError()
      modifies this`loading
      ensures !loading
    {
      loading := false;
    }
  }

  /** Each snapshot's list depends on that snapshot alone: whatever came
      before, the state after a snapshot is the same. */
  method LatestSnapshotWins(first: seq<StoredDocument>, second: seq<StoredDocument>, errorBetween: bool)
    returns (shown: seq<Property>, loading: bool)
    ensures shown == Normalize(second) && !loading
  {
    var state := new PropertiesState();
    state.OnSnapshot(first);
    if errorBetween {
      state.OnError();
    }
    state.OnSnapshot(second);
    shown, loading := state.properties, state.loading;
  }
}
