/** The external Airtable table the repository talks to. The system does not
    implement it; this module states what the repository relies on, as
    explicit assumptions: the table is a map from record id to field map,
    every round trip either succeeds or throws, `find`, `update` and `destroy`
    throw on an unknown id, `update` merges the supplied fields into the
    stored ones, and `destroy` removes the key. Transport failures (network,
    credentials, rate limits) are a `fault` argument to each round trip. */
module Airtable {
  import opened Values

  /** A record as the client returns it: store id and field map. */
  datatype Record = Record(id: string, fields: Fields)

  datatype Direction = Asc | Desc
  datatype SortSpec = SortSpec(field: string, direction: Direction)

  /** One round trip to the table, as recorded in the table's call log. */
  datatype Call =
    | CreateCall(fields: Fields)
    | SelectCall(sort: seq<SortSpec>)
    | FindCall(id: string)
    | UpdateCall(id: string, fields: Fields)
    | DestroyCall(id: string)

  /** The error the client throws for an id the table does not hold. */
  const StoreNotFound := Error("Could not find what you are looking for")

  /** A listing of a table: every record exactly once, with its stored fields. */
  ghost predicate IsListing(listing: seq<Record>, records: map<string, Fields>) {
    && (forall i :: 0 <= i < |listing| ==>
          listing[i].id in records && records[listing[i].id] == listing[i].fields)
    && (forall i, j :: 0 <= i < j < |listing| ==> listing[i].id != listing[j].id)
    && (forall id :: id in records ==> exists i :: 0 <= i < |listing| && listing[i].id == id)
  }

  /** The length of the longest id in use; any longer string is unused. */
  ghost function MaxLength(ids: set<string>): (m: nat)
    ensures forall id :: id in ids ==> |id| <= m
    decreases ids
  {
    if ids == {} then 0
    else
      var id :| id in ids;
      var rest := MaxLength(ids - {id});
      if |id| > rest then |id| else rest
  }

  class Table {
    var records: map<string, Fields>
    /** Every round trip made so far, oldest first. */
    ghost var calls: seq<Call>
    /** The reply of the latest successful `select`, in the order the table
        returned it. */
    ghost var listed: seq<Record>

    constructor (initial: map<string, Fields>)
      ensures records == initial && calls == [] && listed == []
    {
      records := initial;
      calls := [];
      listed := [];
    }

    /** `create([{ fields }])`: the table picks a new non-empty id. */
    method Create(fields: Fields, fault: Option<Error>) returns (reply: Outcome<seq<Record>>)
      modifies this
      ensures calls == old(calls) + [CreateCall(fields)]
      ensures fault.Some? ==> reply == Rejected(fault.value) && records == old(records)
      ensures fault.None? ==>
                && reply.Resolved? && |reply.value| == 1
                && reply.value[0].id != "" && reply.value[0].id !in old(records)
                && reply.value[0].fields == fields
                && records == old(records)[reply.value[0].id := fields]
    {
      calls := calls + [CreateCall(fields)];
      if fault.Some? {
        return Rejected(fault.value);
      }
      ghost var unused := seq(MaxLength(records.Keys) + 1, _ => 'r');
      assert unused !in records && unused != "";
      var id: string :| id !in records && id != "";
      records := records[id := fields];
      reply := Resolved([Record(id, fields)]);
    }

    /** `select({ sort }).all()`: every record, all pages gathered. The order is
        whichever the table returns. */
    method Select(sort: seq<SortSpec>, fault: Option<Error>) returns (reply: Outcome<seq<Record>>)
      modifies this
      ensures records == old(records) && calls == old(calls) + [SelectCall(sort)]
      ensures fault.Some? ==> reply == Rejected(fault.value)
      ensures fault.None? ==> reply == Resolved(listed) && IsListing(listed, records)
    {
      calls := calls + [SelectCall(sort)];
      if fault.Some? {
        return Rejected(fault.value);
      }
      var pending := records.Keys;
      var listing: seq<Record> := [];
      while pending != {}
        invariant pending <= records.Keys
        invariant forall i :: 0 <= i < |listing| ==>
                    listing[i].id in records && listing[i].id !in pending &&
                    records[listing[i].id] == listing[i].fields
        invariant forall i, j :: 0 <= i < j < |listing| ==> listing[i].id != listing[j].id
        invariant forall id :: id in records && id !in pending ==>
                    exists i :: 0 <= i < |listing| && listing[i].id == id
        decreases pending
      {
        var id :| id in pending;
        ghost var before := listing;
        listing := listing + [Record(id, records[id])];
        pending := pending - {id};
        forall other | other in records && other !in pending
          ensures exists i :: 0 <= i < |listing| && listing[i].id == other
        {
          if other == id {
            assert listing[|before|].id == other;
          } else {
            var i :| 0 <= i < |before| && before[i].id == other;
            assert listing[i].id == other;
          }
        }
      }
      listed := listing;
      reply := Resolved(listing);
    }

    /** `find(id)`: throws when the id is unknown. */
    method Find(id: string, fault: Option<Error>) returns (reply: Outcome<Record>)
      modifies this
      ensures records == old(records) && calls == old(calls) + [FindCall(id)]
      ensures fault.Some? ==> reply == Rejected(fault.value)
      ensures fault.None? && id !in records ==> reply == Rejected(StoreNotFound)
      ensures fault.None? && id in records ==> reply == Resolved(Record(id, records[id]))
    {
      calls := calls + [FindCall(id)];
      if fault.Some? {
        reply := Rejected(fault.value);
      } else if id !in records {
        reply := Rejected(StoreNotFound);
      } else {
        reply := Resolved(Record(id, records[id]));
      }
    }

    /** `update([{ id, fields }])`: a partial update; the supplied fields
        overwrite the stored ones of the same name and the rest are kept. */
    method Update(id: string, fields: Fields, fault: Option<Error>) returns (reply: Outcome<seq<Record>>)
      modifies this
      ensures calls == old(calls) + [UpdateCall(id, fields)]
      ensures fault.Some? ==> reply == Rejected(fault.value) && records == old(records)
      ensures fault.None? && id !in old(records) ==>
                reply == Rejected(StoreNotFound) && records == old(records)
      ensures fault.None? && id in old(records) ==>
                && records == old(records)[id := old(records)[id] + fields]
                && reply == Resolved([Record(id, records[id])])
    {
      calls := calls + [UpdateCall(id, fields)];
      if fault.Some? {
        reply := Rejected(fault.value);
      } else if id !in records {
        reply := Rejected(StoreNotFound);
      } else {
        records := records[id := records[id] + fields];
        reply := Resolved([Record(id, records[id])]);
      }
    }

    /** `destroy([id])`: removes the record and replies with it as it was. */
    method Destroy(id: string, fault: Option<Error>) returns (reply: Outcome<seq<Record>>)
      modifies this
      ensures calls == old(calls) + [DestroyCall(id)]
      ensures fault.Some? ==> reply == Rejected(fault.value) && records == old(records)
      ensures fault.None? && id !in old(records) ==>
                reply == Rejected(StoreNotFound) && records == old(records)
      ensures fault.None? && id in old(records) ==>
                && records == old(records) - {id}
                && reply == Resolved([Record(id, old(records)[id])])
    {
      calls := calls + [DestroyCall(id)];
      if fault.Some? {
        reply := Rejected(fault.value);
      } else if id !in records {
        reply := Rejected(StoreNotFound);
      } else {
        reply := Resolved([Record(id, records[id])]);
        records := records - {id};
      }
    }
  }
}
