/** The product service: pass-throughs for create and list, a null check for
    lookup, and verify-then-act for update and delete. Each store round trip
    carries its own fault argument: `lookupFault` for the existence check,
    `writeFault` for the write that follows it. */
module Service {
  import opened Values
  import opened Airtable
  import Repository

  const NotFoundMessage := "Product not found"
  const ProductNotFound := Error(NotFoundMessage)

  method Create(t: Table, data: Fields, fault: Option<Error>) returns (r: Outcome<Option<Repository.Product>>)
    modifies t
    ensures t.calls == old(t.calls) + [CreateCall(data)]
    ensures fault.Some? ==> r == Rejected(fault.value) && t.records == old(t.records)
    ensures fault.None? ==>
              exists id :: && id != "" && id !in old(t.records)
                           && t.records == old(t.records)[id := data]
                           && r == Resolved(Repository.FormatRecord(Some(Record(id, data))))
  {
    r := Repository.Create(t, data, fault);
  }

  method FindAll(t: Table, fault: Option<Error>) returns (r: Outcome<seq<Option<Repository.Product>>>)
    modifies t
    ensures t.records == old(t.records) && t.calls == old(t.calls) + [SelectCall(Repository.ByNameAscending)]
    ensures fault.Some? ==> r == Rejected(fault.value)
    ensures fault.None? ==>
              IsListing(t.listed, t.records) && r == Resolved(Repository.FormatAll(t.listed))
  {
    r := Repository.FindAll(t, fault);
  }

  /** Never yields null: a null from the repository, whatever caused it,
      becomes the error "Product not found". */
  method FindById(t: Table, id: string, fault: Option<Error>) returns (r: Outcome<Repository.Product>)
    modifies t
    ensures t.records == old(t.records) && t.calls == old(t.calls) + [FindCall(id)]
    ensures r.Rejected? <==> fault.Some? || id !in t.records
    ensures r.Rejected? ==> r.error == ProductNotFound
    ensures r.Resolved? ==> Some(r.value) == Repository.FormatRecord(Some(Record(id, t.records[id])))
  {
    var product := Repository.FindById(t, id, fault);
    if product.None? {
      return Rejected(ProductNotFound);
    }
    r := Resolved(product.value);
  }

  /** Checks that the product exists, and only then writes. A failed check
      leaves the table untouched and the repository's update uncalled. */
  method Update(t: Table, id: string, data: Fields, lookupFault: Option<Error>, writeFault: Option<Error>)
    returns (r: Outcome<Option<Repository.Product>>)
    modifies t
    ensures lookupFault.Some? || id !in old(t.records) ==>
              && r == Rejected(ProductNotFound)
              && t.records == old(t.records)
              && t.calls == old(t.calls) + [FindCall(id)]
    ensures lookupFault.None? && id in old(t.records) ==>
              t.calls == old(t.calls) + [FindCall(id), UpdateCall(id, data)]
    ensures lookupFault.None? && id in old(t.records) && writeFault.Some? ==>
              r == Rejected(writeFault.value) && t.records == old(t.records)
    ensures lookupFault.None? && id in old(t.records) && writeFault.None? ==>
              && t.records == old(t.records)[id := old(t.records)[id] + data]
              && r == Resolved(Repository.FormatRecord(Some(Record(id, t.records[id]))))
  {
    var found := FindById(t, id, lookupFault);
    if found.Rejected? {
      return Rejected(found.error);
    }
    r := Repository.Update(t, id, data, writeFault);
  }

  /** Checks that the product exists, and only then destroys it. */
  method Delete(t: Table, id: string, lookupFault: Option<Error>, writeFault: Option<Error>)
    returns (r: Outcome<Option<Repository.Product>>)
    modifies t
    ensures lookupFault.Some? || id !in old(t.records) ==>
              && r == Rejected(ProductNotFound)
              && t.records == old(t.records)
              && t.calls == old(t.calls) + [FindCall(id)]
    ensures lookupFault.None? && id in old(t.records) ==>
              t.calls == old(t.calls) + [FindCall(id), DestroyCall(id)]
    ensures lookupFault.None? && id in old(t.records) && writeFault.Some? ==>
              r == Rejected(writeFault.value) && t.records == old(t.records)
    ensures lookupFault.None? && id in old(t.records) && writeFault.None? ==>
              && t.records == old(t.records) - {id}
              && r == Resolved(Repository.FormatRecord(Some(Record(id, old(t.records)[id]))))
  {
    var found := FindById(t, id, lookupFault);
    if found.Rejected? {
      return Rejected(found.error);
    }
    r := Repository.Delete(t, id, writeFault);
  }

  /** After a successful delete, looking the id up again fails with
      "Product not found", whatever the second lookup's fault. */
  method DeleteThenFind(t: Table, id: string, lookupFault: Option<Error>, writeFault: Option<Error>,
                        laterFault: Option<Error>)
    returns (deleted: Outcome<Option<Repository.Product>>, found: Outcome<Repository.Product>)
    modifies t
    ensures lookupFault.None? && writeFault.None? && id in old(t.records) ==> deleted.Resolved?
    ensures deleted.Resolved? ==> found == Rejected(ProductNotFound) && id !in t.records
  {
    deleted := Delete(t, id, lookupFault, writeFault);
    found := FindById(t, id, laterFault);
  }

  /** Sending the same update payload twice to a product that exists answers
      with the same product both times, and the table ends as after one
      update: merging the same fields again changes nothing. */
  method UpdateTwice(t: Table, id: string, data: Fields)
    returns (first: Outcome<Option<Repository.Product>>, second: Outcome<Option<Repository.Product>>)
    modifies t
    ensures id in old(t.records) ==>
              && first.Resolved? && first == second
              && t.records == old(t.records)[id := old(t.records)[id] + data]
    ensures id !in old(t.records) ==>
              first == second == Rejected(ProductNotFound) && t.records == old(t.records)
  {
    first := Update(t, id, data, None, None);
    second := Update(t, id, data, None, None);
    if id in old(t.records) {
      assert (old(t.records)[id] + data) + data == old(t.records)[id] + data;
    }
  }
}
