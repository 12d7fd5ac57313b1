/** The product router: six registrations, each a method, a path pattern, an
    optional body schema checked before the handler, and the handler. */
module Routes {
  import opened Values
  import opened Schemas

  datatype Verb = GET | POST | PUT | PATCH | DELETE

  /** `/` and `/:id`, relative to where the router is mounted. */
  datatype PathPattern = Root | ById

  /** The controller handler a route ends in. */
  datatype Action = CreateAction | FindAllAction | FindByIdAction | UpdateAction | DeleteAction

  /** Which of the two exported schemas a `validate(...)` middleware checks. */
  datatype SchemaRef = CreateSchemaRef | UpdateSchemaRef

  function SchemaFor(ref: SchemaRef): Schema {
    match ref
    case CreateSchemaRef => CreateProductSchema
    case UpdateSchemaRef => UpdateProductSchema
  }

  datatype Route = Route(verb: Verb, pattern: PathPattern, validator: Option<SchemaRef>, action: Action)

  /** The registrations, in registration order. */
  const ProductRoutes: seq<Route> := [
    Route(POST, Root, Some(CreateSchemaRef), CreateAction),
    Route(GET, Root, None, FindAllAction),
    Route(GET, ById, None, FindByIdAction),
    Route(PUT, ById, Some(UpdateSchemaRef), UpdateAction),
    Route(PATCH, ById, Some(UpdateSchemaRef), UpdateAction),
    Route(DELETE, ById, None, DeleteAction)
  ]

  predicate Serves(route: Route, verb: Verb, pattern: PathPattern) {
    route.verb == verb && route.pattern == pattern
  }

  /** The first registration at or after position `from` that serves the
      request, searched in registration order. */
  function FirstMatch(routes: seq<Route>, verb: Verb, pattern: PathPattern, from: nat): (r: Option<Route>)
    requires from <= |routes|
    ensures r.Some? ==> r.value in routes[from..] && Serves(r.value, verb, pattern)
    ensures r.None? ==> forall j :: from <= j < |routes| ==> !Serves(routes[j], verb, pattern)
    decreases |routes| - from
  {
    if from == |routes| then None
    else if Serves(routes[from], verb, pattern) then Some(routes[from])
    else FirstMatch(routes, verb, pattern, from + 1)
  }

  /** Express's dispatch inside the router: the first registration, in
      registration order, for the request's method and pattern. */
  function Lookup(verb: Verb, pattern: PathPattern): (r: Option<Route>)
    ensures r.Some? ==> r.value in ProductRoutes && Serves(r.value, verb, pattern)
    ensures r.None? <==> forall route :: route in ProductRoutes ==> !Serves(route, verb, pattern)
  {
    FirstMatch(ProductRoutes, verb, pattern, 0)
  }

  /** The lookup answers with the earliest registration that serves the request. */
  lemma {:induction false} FirstMatchIsEarliest(routes: seq<Route>, verb: Verb, pattern: PathPattern,
                                                from: nat, i: nat)
    requires from <= i < |routes| && Serves(routes[i], verb, pattern)
    requires forall j :: from <= j < i ==> !Serves(routes[j], verb, pattern)
    ensures FirstMatch(routes, verb, pattern, from) == Some(routes[i])
    decreases i - from
  {
    if from < i {
      assert !Serves(routes[from], verb, pattern);
      FirstMatchIsEarliest(routes, verb, pattern, from + 1, i);
    }
  }

  /** Six routes, no two for the same method and pattern. */
  lemma RoutesAreDistinct()
    ensures |ProductRoutes| == 6
    ensures forall i, j :: 0 <= i < j < |ProductRoutes| ==>
              !Serves(ProductRoutes[j], ProductRoutes[i].verb, ProductRoutes[i].pattern)
  {
  }

  /** Every registration is what the lookup finds for its own method and
      pattern: none is shadowed by an earlier one. */
  lemma LookupFindsEachRoute(i: nat)
    requires i < |ProductRoutes|
    ensures Lookup(ProductRoutes[i].verb, ProductRoutes[i].pattern) == Some(ProductRoutes[i])
  {
    RoutesAreDistinct();
    var r := ProductRoutes[i];
    forall j | 0 <= j < i
      ensures !Serves(ProductRoutes[j], r.verb, r.pattern)
    {
      assert !Serves(ProductRoutes[i], ProductRoutes[j].verb, ProductRoutes[j].pattern);
    }
    FirstMatchIsEarliest(ProductRoutes, r.verb, r.pattern, 0, i);
  }

  /** What each method and pattern resolves to. */
  lemma LookupTable()
    ensures Lookup(POST, Root) == Some(Route(POST, Root, Some(CreateSchemaRef), CreateAction))
    ensures Lookup(GET, Root) == Some(Route(GET, Root, None, FindAllAction))
    ensures Lookup(GET, ById) == Some(Route(GET, ById, None, FindByIdAction))
    ensures Lookup(PUT, ById) == Some(Route(PUT, ById, Some(UpdateSchemaRef), UpdateAction))
    ensures Lookup(PATCH, ById) == Some(Route(PATCH, ById, Some(UpdateSchemaRef), UpdateAction))
    ensures Lookup(DELETE, ById) == Some(Route(DELETE, ById, None, DeleteAction))
  {
    LookupFindsEachRoute(0);
    LookupFindsEachRoute(1);
    LookupFindsEachRoute(2);
    LookupFindsEachRoute(3);
    LookupFindsEachRoute(4);
    LookupFindsEachRoute(5);
  }

  /** A method and pattern with no registration is not routed. */
  lemma Unrouted(verb: Verb, pattern: PathPattern)
    ensures Lookup(verb, pattern).None? <==>
              (verb, pattern) in {(POST, ById), (PUT, Root), (PATCH, Root), (DELETE, Root)}
  {
    if Lookup(verb, pattern).Some? {
      var r := Lookup(verb, pattern).value;
      assert r in ProductRoutes[0..] && Serves(r, verb, pattern);
    } else {
      LookupTable();
    }
  }

  /** The route table read as a function of method and pattern. */
  function Registered(verb: Verb, pattern: PathPattern): Option<Route> {
    match (verb, pattern)
    case (POST, Root) => Some(Route(POST, Root, Some(CreateSchemaRef), CreateAction))
    case (GET, Root) => Some(Route(GET, Root, None, FindAllAction))
    case (GET, ById) => Some(Route(GET, ById, None, FindByIdAction))
    case (PUT, ById) => Some(Route(PUT, ById, Some(UpdateSchemaRef), UpdateAction))
    case (PATCH, ById) => Some(Route(PATCH, ById, Some(UpdateSchemaRef), UpdateAction))
    case (DELETE, ById) => Some(Route(DELETE, ById, None, DeleteAction))
    case _ => None
  }

  /** Searching the registrations in order gives exactly that function. */
  lemma LookupIsRegistered(verb: Verb, pattern: PathPattern)
    ensures Lookup(verb, pattern) == Registered(verb, pattern)
  {
    LookupTable();
    Unrouted(verb, pattern);
  }

  /** PUT and PATCH on `/:id` are the same route under two methods. */
  lemma PutAndPatchAgree()
    ensures Lookup(PUT, ById).Some? && Lookup(PATCH, ById).Some?
    ensures Lookup(PUT, ById).value.validator == Lookup(PATCH, ById).value.validator == Some(UpdateSchemaRef)
    ensures Lookup(PUT, ById).value.action == Lookup(PATCH, ById).value.action == UpdateAction
  {
    LookupTable();
  }

  /** The create schema guards POST `/` and nothing else; the reads and the
      delete take no body schema; the body-taking handlers always have one. */
  lemma RouteTableWellFormed()
    ensures SchemaFor(CreateSchemaRef) != SchemaFor(UpdateSchemaRef)
    ensures forall r :: r in ProductRoutes ==>
              && (r.validator == Some(CreateSchemaRef) <==> r.verb == POST && r.pattern == Root)
              && (r.validator.None? <==> r.action in {FindAllAction, FindByIdAction, DeleteAction})
              && (r.action == CreateAction ==> r.validator == Some(CreateSchemaRef))
              && (r.action == UpdateAction ==> r.validator == Some(UpdateSchemaRef))
              && (r.pattern == ById <==> r.action in {FindByIdAction, UpdateAction, DeleteAction})
  {
    assert CreateProductSchema[0] != UpdateProductSchema[0];
  }
}
