/** The five request handlers. Each awaits one service call; on success it
    writes one status and body, on failure it hands the error to `next`
    untouched and writes nothing. */
module Controller {
  import opened Values
  import opened Airtable
  import opened ErrorHandler
  import Repository
  import Service

  /** What a handler does with `res` and `next`. */
  datatype Handled = Respond(response: Response) | Forward(error: Error)

  /** `res.json(p)` of a product or of null. */
  function ProductJson(p: Option<Repository.Product>): (j: Json)
    ensures j == JNull <==> p.None?
    ensures p.Some? ==> j.JObj? && j.fields == p.value
  {
    match p
    case None => JNull
    case Some(fields) => JObj(fields)
  }

  function ListJson(ps: seq<Option<Repository.Product>>): (j: Json)
    ensures j.JArr? && |j.items| == |ps|
    ensures forall i :: 0 <= i < |ps| ==> j.items[i] == ProductJson(ps[i])
  {
    JArr(seq(|ps|, i requires 0 <= i < |ps| => ProductJson(ps[i])))
  }

  /** The try/catch every handler is made of: a resolved call answers with the
      handler's fixed status, a rejected one is forwarded as it is. */
  function Settle(outcome: Outcome<Body>, status: int): (h: Handled)
    ensures h.Forward? <==> outcome.Rejected?
    ensures outcome.Rejected? ==> h == Forward(outcome.error)
    ensures outcome.Resolved? ==> h == Respond(Response(status, outcome.value))
  {
    match outcome
    case Resolved(body) => Respond(Response(status, body))
    case Rejected(e) => Forward(e)
  }

  method Create(t: Table, body: Fields, fault: Option<Error>) returns (h: Handled)
    modifies t
    ensures t.calls == old(t.calls) + [CreateCall(body)]
    ensures fault.Some? ==> h == Forward(fault.value) && t.records == old(t.records)
    ensures fault.None? ==>
              exists id :: && id != "" && id !in old(t.records)
                           && t.records == old(t.records)[id := body]
                           && h == Respond(Response(201, JsonBody(
                                     ProductJson(Repository.FormatRecord(Some(Record(id, body)))))))
  {
    var created := Service.Create(t, body, fault);
    h := Settle(if created.Resolved? then Resolved(JsonBody(ProductJson(created.value)))
                else Rejected(created.error), 201);
  }

  method FindAll(t: Table, fault: Option<Error>) returns (h: Handled)
    modifies t
    ensures t.records == old(t.records) && t.calls == old(t.calls) + [SelectCall(Repository.ByNameAscending)]
    ensures fault.Some? ==> h == Forward(fault.value)
    ensures fault.None? ==>
              && IsListing(t.listed, t.records)
              && h == Respond(Response(200, JsonBody(ListJson(Repository.FormatAll(t.listed)))))
  {
    var products := Service.FindAll(t, fault);
    h := Settle(if products.Resolved? then Resolved(JsonBody(ListJson(products.value)))
                else Rejected(products.error), 200);
  }

  method FindById(t: Table, id: string, fault: Option<Error>) returns (h: Handled)
    modifies t
    ensures t.records == old(t.records) && t.calls == old(t.calls) + [FindCall(id)]
    ensures fault.Some? || id !in t.records ==> h == Forward(Service.ProductNotFound)
    ensures fault.None? && id in t.records ==>
              h == Respond(Response(200, JsonBody(
                     ProductJson(Repository.FormatRecord(Some(Record(id, t.records[id])))))))
  {
    var product := Service.FindById(t, id, fault);
    h := Settle(if product.Resolved? then Resolved(JsonBody(JObj(product.value)))
                else Rejected(product.error), 200);
  }

  method Update(t: Table, id: string, body: Fields, lookupFault: Option<Error>, writeFault: Option<Error>)
    returns (h: Handled)
    modifies t
    ensures lookupFault.Some? || id !in old(t.records) ==>
              && h == Forward(Service.ProductNotFound)
              && t.records == old(t.records)
              && t.calls == old(t.calls) + [FindCall(id)]
    ensures lookupFault.None? && id in old(t.records) ==>
              t.calls == old(t.calls) + [FindCall(id), UpdateCall(id, body)]
    ensures lookupFault.None? && id in old(t.records) && writeFault.Some? ==>
              h == Forward(writeFault.value) && t.records == old(t.records)
    ensures lookupFault.None? && id in old(t.records) && writeFault.None? ==>
              && t.records == old(t.records)[id := old(t.records)[id] + body]
              && h == Respond(Response(200, JsonBody(
                        ProductJson(Repository.FormatRecord(Some(Record(id, t.records[id])))))))
  {
    var updated := Service.Update(t, id, body, lookupFault, writeFault);
    h := Settle(if updated.Resolved? then Resolved(JsonBody(ProductJson(updated.value)))
                else Rejected(updated.error), 200);
  }

  /** Answers 204 with no body; the deleted record the service returns is dropped. */
  method Delete(t: Table, id: string, lookupFault: Option<Error>, writeFault: Option<Error>)
    returns (h: Handled)
    modifies t
    ensures lookupFault.Some? || id !in old(t.records) ==>
              && h == Forward(Service.ProductNotFound)
              && t.records == old(t.records)
              && t.calls == old(t.calls) + [FindCall(id)]
    ensures lookupFault.None? && id in old(t.records) ==>
              t.calls == old(t.calls) + [FindCall(id), DestroyCall(id)]
    ensures lookupFault.None? && id in old(t.records) && writeFault.Some? ==>
              h == Forward(writeFault.value) && t.records == old(t.records)
    ensures lookupFault.None? && id in old(t.records) && writeFault.None? ==>
              h == Respond(Response(204, NoBody)) && t.records == old(t.records) - {id}
  {
    var deleted := Service.Delete(t, id, lookupFault, writeFault);
    h := Settle(if deleted.Resolved? then Resolved(NoBody) else Rejected(deleted.error), 204);
  }
}
