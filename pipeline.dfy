/** One request through the application: the product router mounted at
    `/products`, the body schema of the matched route, the route's handler,
    and the error middleware registered last. */
module Pipeline {
  import opened Values
  import opened Airtable
  import opened Schemas
  import opened Routes
  import opened ErrorHandler
  import Repository
  import Controller

  /** A request below `/products`: the collection itself or one member. */
  datatype Path = Collection | Member(id: string)

  datatype Request = Request(verb: Verb, path: Path, body: Json)

  /** How the store's round trips for this request go: `first` is the first
      call the request makes (the lookup of update and delete), `second` the
      write that follows it. */
  datatype Faults = Faults(first: Option<Error>, second: Option<Error>)

  const NoFaults := Faults(None, None)

  /** How the request ends. A rejected body never reaches a handler; what the
      validation middleware then writes is not part of this model. */
  datatype Served =
    | Sent(response: Response)
    | Invalid(issues: seq<Issue>)
    | Unrouted

  const NotFoundResponse := Response(404, JsonBody(MessageBody(NotFoundMessage)))

  function PatternOf(p: Path): PathPattern {
    match p
    case Collection => Root
    case Member(_) => ById
  }

  /** What reaches the client once the handler is done: its own response, or
      the error handler's answer to what it forwarded. */
  function Finish(h: Controller.Handled): (res: Response)
    ensures h.Respond? ==> res == h.response
    ensures h.Forward? ==> res == HandleError(h.error)
  {
    match h
    case Respond(r) => r
    case Forward(e) => HandleError(e)
  }

  /** A route matched and its schema, if any, accepted the body. */
  predicate Admitted(req: Request) {
    var route := Lookup(req.verb, PatternOf(req.path));
    route.Some? && (route.value.validator.Some? ==> Accepts(SchemaFor(route.value.validator.value), req.body))
  }

  /** Runs the handler of an admitted request and sends what it produces. */
  method Dispatch(t: Table, action: Action, path: Path, body: Json, faults: Faults) returns (res: Response)
    requires action in {CreateAction, UpdateAction} ==> body.JObj?
    requires action in {FindByIdAction, UpdateAction, DeleteAction} ==> path.Member?
    modifies t
    ensures res.status in {200, 201, 204, 404, 500}
    ensures path.Member? && action in {FindByIdAction, UpdateAction, DeleteAction} &&
            (faults.first.Some? || path.id !in old(t.records)) ==>
              res == NotFoundResponse && t.records == old(t.records) &&
              t.calls == old(t.calls) + [FindCall(path.id)]
    ensures path.Member? && action in {UpdateAction, DeleteAction} && faults.first.None? &&
            path.id in old(t.records) && faults.second.Some? ==>
              res == HandleError(faults.second.value) && t.records == old(t.records)
    ensures path.Member? && action == DeleteAction && faults == NoFaults && path.id in old(t.records) ==>
              res == Response(204, NoBody) && t.records == old(t.records) - {path.id}
    ensures path.Member? && action == FindByIdAction && faults.first.None? && path.id in old(t.records) ==>
              && t.records == old(t.records)
              && res == Response(200, JsonBody(Controller.ProductJson(
                          Repository.FormatRecord(Some(Record(path.id, t.records[path.id]))))))
    ensures path.Member? && action == UpdateAction && faults == NoFaults && path.id in old(t.records) ==>
              && t.records == old(t.records)[path.id := old(t.records)[path.id] + body.fields]
              && res == Response(200, JsonBody(Controller.ProductJson(
                          Repository.FormatRecord(Some(Record(path.id, t.records[path.id]))))))
    ensures action == FindAllAction ==> t.records == old(t.records)
    ensures action == FindAllAction && faults.first.Some? ==> res == HandleError(faults.first.value)
    ensures action == FindAllAction && faults.first.None? ==>
              && IsListing(t.listed, t.records)
              && res == Response(200, JsonBody(Controller.ListJson(Repository.FormatAll(t.listed))))
    ensures action == CreateAction && faults.first.Some? ==>
              res == HandleError(faults.first.value) && t.records == old(t.records)
    ensures action == CreateAction && faults.first.None? ==>
              exists id :: && id != "" && id !in old(t.records)
                           && t.records == old(t.records)[id := body.fields]
                           && res == Response(201, JsonBody(Controller.ProductJson(
                                       Repository.FormatRecord(Some(Record(id, body.fields))))))
  {
    var h: Controller.Handled;
    match action {
      case CreateAction =>
        h := Controller.Create(t, body.fields, faults.first);
      case FindAllAction =>
        h := Controller.FindAll(t, faults.first);
      case FindByIdAction =>
        h := Controller.FindById(t, path.id, faults.first);
      case UpdateAction =>
        h := Controller.Update(t, path.id, body.fields, faults.first, faults.second);
      case DeleteAction =>
        h := Controller.Delete(t, path.id, faults.first, faults.second);
    }
    res := Finish(h);
  }

  method Serve(t: Table, req: Request, faults: Faults) returns (out: Served)
    modifies t
    // Nothing but an admitted request touches the store.
    ensures Lookup(req.verb, PatternOf(req.path)).None? <==> out == Unrouted
    ensures !Admitted(req) ==> t.records == old(t.records) && t.calls == old(t.calls)
    ensures Admitted(req) <==> out.Sent?
    ensures out.Invalid? ==>
              var ref := Lookup(req.verb, PatternOf(req.path)).value.validator.value;
              out.issues == Validate(SchemaFor(ref), req.body) && out.issues != []
    ensures out.Sent? ==> out.response.status in {200, 201, 204, 404, 500}
    // A member route on an id the lookup does not find answers 404 and writes nothing.
    ensures Admitted(req) && req.path.Member? && (faults.first.Some? || req.path.id !in old(t.records)) ==>
              out == Sent(NotFoundResponse) && t.records == old(t.records) &&
              t.calls == old(t.calls) + [FindCall(req.path.id)]
    // A lookup that succeeds, followed by a write that fails, is answered by
    // the error handler: 500 unless the store's message is "Product not found".
    ensures Admitted(req) && req.path.Member? && req.verb != GET && faults.first.None? &&
            req.path.id in old(t.records) && faults.second.Some? ==>
              out == Sent(HandleError(faults.second.value)) && t.records == old(t.records)
    ensures req.verb == DELETE && req.path.Member? && faults == NoFaults && req.path.id in old(t.records) ==>
              out == Sent(Response(204, NoBody)) && t.records == old(t.records) - {req.path.id}
    ensures req.verb == GET && req.path.Member? && faults.first.None? && req.path.id in old(t.records) ==>
              && t.records == old(t.records)
              && out == Sent(Response(200, JsonBody(Controller.ProductJson(
                          Repository.FormatRecord(Some(Record(req.path.id, t.records[req.path.id])))))))
    // A valid PUT or PATCH on a stored id merges the body into the record and
    // answers 200 with the merged product.
    ensures req.verb in {PUT, PATCH} && req.path.Member? && Admitted(req) && faults == NoFaults &&
            req.path.id in old(t.records) ==>
              && req.body.JObj?
              && t.records == old(t.records)[req.path.id := old(t.records)[req.path.id] + req.body.fields]
              && out == Sent(Response(200, JsonBody(Controller.ProductJson(
                          Repository.FormatRecord(Some(Record(req.path.id, t.records[req.path.id])))))))
    // GET `/` never changes the table; it answers 200 with every record, or
    // the error handler's answer to the store's failure.
    ensures req.verb == GET && req.path == Collection ==> t.records == old(t.records)
    ensures req.verb == GET && req.path == Collection && faults.first.Some? ==>
              out == Sent(HandleError(faults.first.value))
    ensures req.verb == GET && req.path == Collection && faults.first.None? ==>
              && IsListing(t.listed, t.records)
              && out == Sent(Response(200, JsonBody(Controller.ListJson(Repository.FormatAll(t.listed)))))
    ensures req.verb == POST && req.path == Collection && Accepts(CreateProductSchema, req.body) &&
            faults.first.None? ==>
              exists id :: && id != "" && id !in old(t.records)
                           && t.records == old(t.records)[id := req.body.fields]
                           && out == Sent(Response(201, JsonBody(Controller.ProductJson(
                                       Repository.FormatRecord(Some(Record(id, req.body.fields)))))))
  {
    LookupIsRegistered(req.verb, PatternOf(req.path));
    var route := Lookup(req.verb, PatternOf(req.path));
    if route.None? {
      return Unrouted;
    }
    var r := route.value;
    if r.validator.Some? {
      var issues := Validate(SchemaFor(r.validator.value), req.body);
      if issues != [] {
        return Invalid(issues);
      }
    }
    var res := Dispatch(t, r.action, req.path, req.body, faults);
    out := Sent(res);
  }

  /** Any failure of the lookup behind GET, PUT, PATCH or DELETE on a member,
      whatever its cause, reaches the client as 404, never as 500: the
      repository turns it into null and the service into "Product not found". */
  method LookupFailureIsNotFound(t: Table, req: Request, lookupError: Error, second: Option<Error>)
    returns (out: Served)
    requires req.path.Member? && req.verb in {GET, PUT, PATCH, DELETE}
    requires req.verb in {PUT, PATCH} ==> Accepts(UpdateProductSchema, req.body)
    modifies t
    ensures out == Sent(NotFoundResponse)
    ensures t.records == old(t.records)
  {
    LookupIsRegistered(req.verb, ById);
    assert Admitted(req);
    out := Serve(t, req, Faults(Some(lookupError), second));
  }

  /** DELETE `/products/:id` and then GET `/products/:id`: once the delete has
      answered 204, the fetch answers 404. */
  method DeleteThenGet(t: Table, id: string, deleteFaults: Faults, getFault: Option<Error>)
    returns (deleted: Served, fetched: Served)
    modifies t
    ensures deleteFaults == NoFaults && id in old(t.records) ==> deleted == Sent(Response(204, NoBody))
    ensures deleted == Sent(Response(204, NoBody)) ==> fetched == Sent(NotFoundResponse)
  {
    LookupTable();
    deleted := Serve(t, Request(DELETE, Member(id), JObj(map[])), deleteFaults);
    fetched := Serve(t, Request(GET, Member(id), JObj(map[])), Faults(getFault, None));
  }

  /** PATCH `/products/:id` with `{stock: -5}` is refused with one issue
      naming `stock`, and the store sees nothing. */
  method NegativeStockPatch(t: Table, id: string) returns (out: Served)
    modifies t
    ensures out == Invalid([Issue("stock", NotPositive)])
    ensures t.records == old(t.records) && t.calls == old(t.calls)
  {
    var patch := Request(PATCH, Member(id), JObj(map["stock" := JNum(-5.0)]));
    NegativeStockPatchReported();
    LookupIsRegistered(PATCH, ById);
    assert !Admitted(patch);
    out := Serve(t, patch, NoFaults);
    assert out.Invalid?;
  }

  const Keyboard: Fields := map["name" := JStr("Keyboard"), "price" := JNum(49.90)]

  /** POST `/products` with `{name: "Keyboard", price: 49.90}` on a healthy
      store answers 201 with the stored record under a fresh id. */
  method PostKeyboard(t: Table) returns (created: Served, id: string)
    requires t.records == map[]
    modifies t
    ensures id != "" && t.records == map[id := Keyboard]
    ensures created == Sent(Response(201, JsonBody(Controller.ProductJson(
                         Repository.FormatRecord(Some(Record(id, Keyboard)))))))
  {
    assert CreateBodyOk(JObj(Keyboard));
    CreateSchemaMeaning(JObj(Keyboard));
    created := Serve(t, Request(POST, Collection, JObj(Keyboard)), NoFaults);
    id :| && id != "" && t.records == map[id := Keyboard]
          && created == Sent(Response(201, JsonBody(Controller.ProductJson(
                           Repository.FormatRecord(Some(Record(id, Keyboard)))))));
  }

  /** The 201 body of that POST: the fields as sent, plus the record's id. */
  lemma KeyboardBody(id: string)
    requires id != ""
    ensures var body := Controller.ProductJson(Repository.FormatRecord(Some(Record(id, Keyboard))));
            && body.JObj?
            && "name" in body.fields && body.fields["name"] == JStr("Keyboard")
            && "price" in body.fields && body.fields["price"] == JNum(49.90)
            && "id" in body.fields && body.fields["id"] == JStr(id)
  {
    assert "id" !in Keyboard;
  }

  /** The POST above, then a PATCH with `{stock: -5}` refused before any store
      access, then DELETE answering 204 and a later GET answering 404. */
  method KeyboardScenario() returns (created: Served, patched: Served, deleted: Served, fetched: Served)
    ensures created.Sent? && created.response.status == 201
    ensures created.response.body.JsonBody? && created.response.body.value.JObj?
    ensures var product := created.response.body.value.fields;
            && "name" in product && product["name"] == JStr("Keyboard")
            && "price" in product && product["price"] == JNum(49.90)
            && "id" in product && product["id"].JStr? && product["id"].s != ""
    ensures patched == Invalid([Issue("stock", NotPositive)])
    ensures deleted == Sent(Response(204, NoBody))
    ensures fetched == Sent(NotFoundResponse)
  {
    var t := new Table(map[]);
    var id;
    created, id := PostKeyboard(t);
    KeyboardBody(id);
    patched := NegativeStockPatch(t, id);
    deleted, fetched := DeleteThenGet(t, id, NoFaults, None);
  }
}
