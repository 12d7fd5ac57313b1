/** The request-body schemas of the product routes: a static table of field
    rules per operation, the issues Zod reports against it, and the plain
    accept/reject meaning of each schema. */
module Schemas {
  import opened Values

  /** What a field must be once it is present. */
  datatype Rule =
    | StringRule(minLength: nat)                // z.string(), with .min(n); 0 means no bound
    | NumberRule(integer: bool, positive: bool) // z.number(), with .int() and .positive()

  /** `required_error` of a mandatory field, or `.optional()`. */
  datatype Presence = Required(requiredError: string) | Optional

  datatype FieldSpec = FieldSpec(key: string, rule: Rule, presence: Presence)

  /** The shape of `body`, field by field in declaration order. */
  type Schema = seq<FieldSpec>

  datatype IssueKind =
    | Missing(message: string)                   // undefined where the field is required
    | InvalidType(expected: string, received: string)
    | TooShort(minimum: nat)
    | NotInteger
    | NotPositive

  /** One violation, with the name of the offending member of the request. */
  datatype Issue = Issue(path: string, kind: IssueKind)

  const NameRequired := "Name is required"
  const PriceRequired := "Price is required"

  const CreateProductSchema: Schema := [
    FieldSpec("name", StringRule(3), Required(NameRequired)),
    FieldSpec("price", NumberRule(false, true), Required(PriceRequired)),
    FieldSpec("description", StringRule(0), Optional),
    FieldSpec("stock", NumberRule(true, true), Optional)
  ]

  const UpdateProductSchema: Schema := [
    FieldSpec("name", StringRule(3), Optional),
    FieldSpec("price", NumberRule(false, true), Optional),
    FieldSpec("description", StringRule(0), Optional),
    FieldSpec("stock", NumberRule(true, true), Optional)
  ]

  // ---------------------------------------------------------------------------
  // Validation as Zod performs it: a list of issues, empty when the body passes.

  /** Issues for a present value: a type mismatch stops the checks, otherwise
      every failing check is reported, in the order the checks were chained. */
  function RuleIssues(key: string, rule: Rule, v: Json): (r: seq<Issue>)
    ensures r == [] <==> RuleHolds(rule, v)
    ensures |r| <= 2
    ensures forall k :: 0 <= k < |r| ==> r[k].path == key
  {
    match rule
    case StringRule(minLength) =>
      if !v.JStr? then [Issue(key, InvalidType("string", TypeName(v)))]
      else if |v.s| < minLength then [Issue(key, TooShort(minLength))]
      else []
    case NumberRule(integer, positive) =>
      if !v.JNum? then [Issue(key, InvalidType("number", TypeName(v)))]
      else (if integer && !IsInteger(v.n) then [Issue(key, NotInteger)] else [])
           + (if positive && v.n <= 0.0 then [Issue(key, NotPositive)] else [])
  }

  /** Issues for one member: a missing required member is reported with its
      `required_error`, a missing optional one is not looked at. */
  function FieldIssues(spec: FieldSpec, fields: Fields): (r: seq<Issue>)
    ensures r == [] <==> FieldHolds(spec, fields)
    ensures spec.key !in fields && spec.presence.Required? ==>
              r == [Issue(spec.key, Missing(spec.presence.requiredError))]
    ensures |r| <= 2
    ensures forall k :: 0 <= k < |r| ==> r[k].path == spec.key
  {
    if spec.key in fields then RuleIssues(spec.key, spec.rule, fields[spec.key])
    else match spec.presence
      case Required(message) => [Issue(spec.key, Missing(message))]
      case Optional => []
  }

  /** The issues of every member, in the schema's declaration order. */
  function SchemaIssues(schema: Schema, fields: Fields): (r: seq<Issue>)
    ensures |r| <= 2 * |schema|
  {
    if schema == [] then []
    else FieldIssues(schema[0], fields) + SchemaIssues(schema[1..], fields)
  }

  /** All issues of a request body; a body that is not an object is one issue. */
  function Validate(schema: Schema, body: Json): (r: seq<Issue>)
    ensures r == [] <==> body.JObj? && forall i :: 0 <= i < |schema| ==> FieldHolds(schema[i], body.fields)
    ensures !body.JObj? ==> |r| == 1 && r[0].path == "body"
    ensures body.JObj? ==> |r| <= 2 * |schema|
  {
    if body.JObj? then SchemaIssuesEmpty(schema, body.fields); SchemaIssues(schema, body.fields)
    else [Issue("body", InvalidType("object", TypeName(body)))]
  }

  predicate Accepts(schema: Schema, body: Json) {
    Validate(schema, body) == []
  }

  // ---------------------------------------------------------------------------
  // The same rules stated declaratively, one predicate per field.

  predicate NameOk(v: Json) { v.JStr? && |v.s| >= 3 }
  predicate PriceOk(v: Json) { v.JNum? && v.n > 0.0 }
  predicate DescriptionOk(v: Json) { v.JStr? }
  predicate StockOk(v: Json) { v.JNum? && IsInteger(v.n) && v.n > 0.0 }

  /** Optional members: absent, or present and well-formed. */
  predicate OptionalMembersOk(f: Fields) {
    && ("description" in f ==> DescriptionOk(f["description"]))
    && ("stock" in f ==> StockOk(f["stock"]))
  }

  predicate CreateBodyOk(body: Json) {
    && body.JObj?
    && "name" in body.fields && NameOk(body.fields["name"])
    && "price" in body.fields && PriceOk(body.fields["price"])
    && OptionalMembersOk(body.fields)
  }

  predicate UpdateBodyOk(body: Json) {
    && body.JObj?
    && ("name" in body.fields ==> NameOk(body.fields["name"]))
    && ("price" in body.fields ==> PriceOk(body.fields["price"]))
    && OptionalMembersOk(body.fields)
  }

  /** Generic meaning of a rule, for the lemmas over any schema. */
  predicate RuleHolds(rule: Rule, v: Json) {
    match rule
    case StringRule(minLength) => v.JStr? && |v.s| >= minLength
    case NumberRule(integer, positive) =>
      v.JNum? && (integer ==> IsInteger(v.n)) && (positive ==> v.n > 0.0)
  }

  predicate FieldHolds(spec: FieldSpec, fields: Fields) {
    if spec.key in fields then RuleHolds(spec.rule, fields[spec.key])
    else spec.presence.Optional?
  }

  // ---------------------------------------------------------------------------
  // Lemmas

  /** A schema's issue list is empty exactly when every field spec holds. */
  lemma {:induction false} SchemaIssuesEmpty(schema: Schema, fields: Fields)
    ensures SchemaIssues(schema, fields) == [] <==>
            forall i :: 0 <= i < |schema| ==> FieldHolds(schema[i], fields)
  {
    if schema != [] {
      SchemaIssuesEmpty(schema[1..], fields);
      if forall i :: 0 <= i < |schema| ==> FieldHolds(schema[i], fields) {
        assert FieldHolds(schema[0], fields);
        assert forall i :: 0 <= i < |schema[1..]| ==> FieldHolds(schema[1..][i], fields) by {
          forall i | 0 <= i < |schema[1..]| ensures FieldHolds(schema[1..][i], fields) {
            assert schema[1..][i] == schema[i + 1];
          }
        }
      }
      if SchemaIssues(schema, fields) == [] {
        forall i | 0 <= i < |schema| ensures FieldHolds(schema[i], fields) {
          if i > 0 { assert schema[i] == schema[1..][i - 1]; }
        }
      }
    }
  }

  /** Every issue a schema reports names one of the schema's fields. */
  lemma {:induction false} SchemaIssuesNameFields(schema: Schema, fields: Fields, k: nat)
    requires k < |SchemaIssues(schema, fields)|
    ensures exists i :: 0 <= i < |schema| && schema[i].key == SchemaIssues(schema, fields)[k].path
  {
    var head := FieldIssues(schema[0], fields);
    if k < |head| {
      assert schema[0].key == SchemaIssues(schema, fields)[k].path;
    } else {
      SchemaIssuesNameFields(schema[1..], fields, k - |head|);
      var i :| 0 <= i < |schema[1..]| && schema[1..][i].key == SchemaIssues(schema[1..], fields)[k - |head|].path;
      assert schema[i + 1].key == SchemaIssues(schema, fields)[k].path;
    }
  }

  /** The create schema accepts exactly the bodies with a name of at least three
      characters, a positive price, and well-formed optional members. */
  lemma CreateSchemaMeaning(body: Json)
    ensures Accepts(CreateProductSchema, body) <==> CreateBodyOk(body)
  {
    if body.JObj? {
      SchemaIssuesEmpty(CreateProductSchema, body.fields);
      var s := CreateProductSchema;
      assert (forall i :: 0 <= i < |s| ==> FieldHolds(s[i], body.fields)) <==>
        FieldHolds(s[0], body.fields) && FieldHolds(s[1], body.fields) &&
        FieldHolds(s[2], body.fields) && FieldHolds(s[3], body.fields);
    }
  }

  /** The update schema accepts exactly the objects whose present members each
      satisfy their rule. */
  lemma UpdateSchemaMeaning(body: Json)
    ensures Accepts(UpdateProductSchema, body) <==> UpdateBodyOk(body)
  {
    if body.JObj? {
      SchemaIssuesEmpty(UpdateProductSchema, body.fields);
      var s := UpdateProductSchema;
      assert (forall i :: 0 <= i < |s| ==> FieldHolds(s[i], body.fields)) <==>
        FieldHolds(s[0], body.fields) && FieldHolds(s[1], body.fields) &&
        FieldHolds(s[2], body.fields) && FieldHolds(s[3], body.fields);
    }
  }

  /** Every body fit for creation is fit for an update. */
  lemma CreateImpliesUpdate(body: Json)
    ensures Accepts(CreateProductSchema, body) ==> Accepts(UpdateProductSchema, body)
  {
    CreateSchemaMeaning(body);
    UpdateSchemaMeaning(body);
  }

  /** An update may change nothing at all: `{}` passes. */
  lemma UpdateAcceptsEmptyObject()
    ensures Accepts(UpdateProductSchema, JObj(map[]))
    ensures !Accepts(CreateProductSchema, JObj(map[]))
  {
    UpdateSchemaMeaning(JObj(map[]));
    CreateSchemaMeaning(JObj(map[]));
  }

  /** The two schemas list the same fields with the same rules; they differ
      only in which fields may be absent. So a present member draws the same
      issues under both. */
  lemma SameRulesWhenPresent(i: nat, fields: Fields)
    requires i < |CreateProductSchema|
    ensures |UpdateProductSchema| == |CreateProductSchema|
    ensures UpdateProductSchema[i].key == CreateProductSchema[i].key
    ensures CreateProductSchema[i].key in fields ==>
            FieldIssues(UpdateProductSchema[i], fields) == FieldIssues(CreateProductSchema[i], fields)
    ensures CreateProductSchema[i].key !in fields ==> FieldIssues(UpdateProductSchema[i], fields) == []
  {
  }

  /** One step of the issue list: the first field's issues, then the rest's. */
  lemma SchemaIssuesStep(s: Schema, f: Fields)
    requires s != []
    ensures SchemaIssues(s, f) == FieldIssues(s[0], f) + SchemaIssues(s[1..], f)
  {
  }

  /** Unfolds the issue list of a four-field schema. */
  lemma SchemaIssuesOfFour(s: Schema, f: Fields)
    requires |s| == 4
    ensures SchemaIssues(s, f) ==
            FieldIssues(s[0], f) + FieldIssues(s[1], f) + FieldIssues(s[2], f) + FieldIssues(s[3], f)
  {
    var t1, t2, t3 := s[1..], s[2..], s[3..];
    assert t1[0] == s[1] && t1[1..] == t2;
    assert t2[0] == s[2] && t2[1..] == t3;
    assert t3[0] == s[3] && t3[1..] == [];
    SchemaIssuesStep(s, f);
    SchemaIssuesStep(t1, f);
    SchemaIssuesStep(t2, f);
    SchemaIssuesStep(t3, f);
    var a, b, c, d := FieldIssues(s[0], f), FieldIssues(s[1], f), FieldIssues(s[2], f), FieldIssues(s[3], f);
    assert SchemaIssues(t3, f) == d;
    assert SchemaIssues(s, f) == a + (b + (c + d));
    assert a + (b + (c + d)) == a + b + c + d;
  }

  /** A body without `name` is refused by create, and the refusal carries the
      custom required message; likewise for `price`. */
  lemma MissingRequiredReported(body: Json)
    requires body.JObj?
    ensures "name" !in body.fields ==>
            !Accepts(CreateProductSchema, body) &&
            Issue("name", Missing(NameRequired)) in Validate(CreateProductSchema, body)
    ensures "price" !in body.fields ==>
            !Accepts(CreateProductSchema, body) &&
            Issue("price", Missing(PriceRequired)) in Validate(CreateProductSchema, body)
  {
    var f := body.fields;
    var s := CreateProductSchema;
    SchemaIssuesOfFour(s, f);
    if "price" !in f {
      assert FieldIssues(s[1], f) == [Issue("price", Missing(PriceRequired))];
      assert SchemaIssues(s, f)[|FieldIssues(s[0], f)|] == Issue("price", Missing(PriceRequired));
    }
  }

  /** A `stock` that is negative, zero or fractional is refused by both
      schemas, whatever else the body holds. */
  lemma StockMustBePositiveInteger(body: Json)
    requires body.JObj? && "stock" in body.fields
    requires body.fields["stock"] in {JNum(-5.0), JNum(0.0), JNum(2.5)}
    ensures !Accepts(CreateProductSchema, body)
    ensures !Accepts(UpdateProductSchema, body)
  {
    CreateSchemaMeaning(body);
    UpdateSchemaMeaning(body);
    assert (2.5).Floor == 2;
  }

  /** PATCH with `{stock: -5}` is refused with one issue, and it names `stock`. */
  lemma NegativeStockPatchReported()
    ensures Validate(UpdateProductSchema, JObj(map["stock" := JNum(-5.0)])) ==
            [Issue("stock", NotPositive)]
  {
    var f := map["stock" := JNum(-5.0)];
    var s := UpdateProductSchema;
    SchemaIssuesOfFour(s, f);
    assert (-5.0).Floor == -5;
  }
}
