/** The product repository: one table round trip per operation, with the
    store's `{id, fields}` records flattened into plain product objects. */
module Repository {
  import opened Values
  import opened Airtable

  /** A flattened record: the record's fields with `id` beside them. */
  type Product = Fields

  /** `{ id: record.id, ...record.fields }`, or null for a missing record.
      The fields are spread after `id`, so a field called `id` wins. */
  function FormatRecord(record: Option<Record>): (p: Option<Product>)
    ensures record.None? <==> p.None?
    ensures record.Some? ==> p.value.Keys == record.value.fields.Keys + {"id"}
    ensures record.Some? ==>
              forall k :: k in record.value.fields ==> p.value[k] == record.value.fields[k]
    ensures record.Some? && "id" !in record.value.fields ==> p.value["id"] == JStr(record.value.id)
  {
    match record
    case None => None
    case Some(r) => Some(map["id" := JStr(r.id)] + r.fields)
  }

  /** Splits a flattened product back into id and fields. */
  function Unformat(p: Product): Option<Record> {
    if "id" in p && p["id"].JStr? then Some(Record(p["id"].s, p - {"id"})) else None
  }

  /** Flattening loses nothing as long as the record has no field called `id`. */
  lemma FormatRecordRoundTrip(r: Record)
    requires "id" !in r.fields
    ensures Unformat(FormatRecord(Some(r)).value) == Some(r)
  {
    var p := FormatRecord(Some(r)).value;
    assert p - {"id"} == r.fields;
  }

  /** With a field called `id`, the record's own id is not recoverable: two
      records that differ only in their store id flatten alike. */
  lemma IdFieldShadowsRecordId(a: Record, b: Record)
    requires "id" in a.fields && a.fields == b.fields
    ensures FormatRecord(Some(a)) == FormatRecord(Some(b))
    ensures FormatRecord(Some(a)).value["id"] == a.fields["id"]
  {
    assert map["id" := JStr(a.id)] + a.fields == map["id" := JStr(b.id)] + b.fields;
  }

  /** `const [first] = reply; return formatRecord(first)`: an empty reply
      destructures to `undefined` and formats to null. */
  function FormatFirst(reply: seq<Record>): (p: Option<Product>)
    ensures p.Some? <==> |reply| > 0
    ensures |reply| > 0 ==> p == FormatRecord(Some(reply[0]))
  {
    if |reply| == 0 then None else FormatRecord(Some(reply[0]))
  }

  /** `records.map(formatRecord)`: one non-null product per record, in the
      records' order, each holding its record's fields beside `id`. */
  function FormatAll(records: seq<Record>): (ps: seq<Option<Product>>)
    ensures |ps| == |records|
    ensures forall i :: 0 <= i < |records| ==>
              && ps[i].Some?
              && ps[i].value.Keys == records[i].fields.Keys + {"id"}
              && (forall k :: k in records[i].fields ==> ps[i].value[k] == records[i].fields[k])
  {
    seq(|records|, i requires 0 <= i < |records| => FormatRecord(Some(records[i])))
  }

  /** `findAll` answers one product per listed record, in the listing's order,
      and each product gives back its record when no field is called `id`. */
  lemma {:induction false} FormatAllFollowsListing(listing: seq<Record>, i: nat)
    requires i < |listing|
    ensures |FormatAll(listing)| == |listing|
    ensures FormatAll(listing)[i].Some?
    ensures "id" !in listing[i].fields ==> Unformat(FormatAll(listing)[i].value) == Some(listing[i])
  {
    if "id" !in listing[i].fields {
      FormatRecordRoundTrip(listing[i]);
    }
  }

  const ByNameAscending := [SortSpec("name", Asc)]

  method Create(t: Table, data: Fields, fault: Option<Error>) returns (r: Outcome<Option<Product>>)
    modifies t
    ensures t.calls == old(t.calls) + [CreateCall(data)]
    ensures fault.Some? ==> r == Rejected(fault.value) && t.records == old(t.records)
    ensures fault.None? ==>
              exists id :: && id != "" && id !in old(t.records)
                           && t.records == old(t.records)[id := data]
                           && r == Resolved(FormatRecord(Some(Record(id, data))))
  {
    var reply := t.Create(data, fault);
    match reply
    case Rejected(e) => r := Rejected(e);
    case Resolved(created) =>
      r := Resolved(FormatFirst(created));
      assert created[0] == Record(created[0].id, data);
  }

  method FindAll(t: Table, fault: Option<Error>) returns (r: Outcome<seq<Option<Product>>>)
    modifies t
    ensures t.records == old(t.records) && t.calls == old(t.calls) + [SelectCall(ByNameAscending)]
    ensures fault.Some? ==> r == Rejected(fault.value)
    ensures fault.None? ==>
              IsListing(t.listed, t.records) && r == Resolved(FormatAll(t.listed))
  {
    var reply := t.Select(ByNameAscending, fault);
    match reply
    case Rejected(e) => r := Rejected(e);
    case Resolved(records) => r := Resolved(FormatAll(records));
  }

  /** Any error thrown by the lookup, not only "not found", becomes null. */
  method FindById(t: Table, id: string, fault: Option<Error>) returns (p: Option<Product>)
    modifies t
    ensures t.records == old(t.records) && t.calls == old(t.calls) + [FindCall(id)]
    ensures p.None? <==> fault.Some? || id !in t.records
    ensures p.Some? ==> p == FormatRecord(Some(Record(id, t.records[id])))
  {
    var reply := t.Find(id, fault);
    match reply
    case Rejected(_) => p := None;
    case Resolved(record) => p := FormatRecord(Some(record));
  }

  /** Sends only the supplied fields for the given id. */
  method Update(t: Table, id: string, data: Fields, fault: Option<Error>) returns (r: Outcome<Option<Product>>)
    modifies t
    ensures t.calls == old(t.calls) + [UpdateCall(id, data)]
    ensures fault.Some? ==> r == Rejected(fault.value) && t.records == old(t.records)
    ensures fault.None? && id !in old(t.records) ==>
              r == Rejected(StoreNotFound) && t.records == old(t.records)
    ensures fault.None? && id in old(t.records) ==>
              && t.records == old(t.records)[id := old(t.records)[id] + data]
              && r == Resolved(FormatRecord(Some(Record(id, t.records[id]))))
  {
    var reply := t.Update(id, data, fault);
    match reply
    case Rejected(e) => r := Rejected(e);
    case Resolved(updated) => r := Resolved(FormatFirst(updated));
  }

  method Delete(t: Table, id: string, fault: Option<Error>) returns (r: Outcome<Option<Product>>)
    modifies t
    ensures t.calls == old(t.calls) + [DestroyCall(id)]
    ensures fault.Some? ==> r == Rejected(fault.value) && t.records == old(t.records)
    ensures fault.None? && id !in old(t.records) ==>
              r == Rejected(StoreNotFound) && t.records == old(t.records)
    ensures fault.None? && id in old(t.records) ==>
              && t.records == old(t.records) - {id}
              && r == Resolved(FormatRecord(Some(Record(id, old(t.records)[id]))))
  {
    var reply := t.Destroy(id, fault);
    match reply
    case Rejected(e) => r := Rejected(e);
    case Resolved(deleted) => r := Resolved(FormatFirst(deleted));
  }
}
