/**
 * The request validators. Each schema is a shape: an ordered list of field
 * specifications, as a zod object declares them. Parsing a JSON body against
 * a shape keeps the declared keys that are present (plus defaults), in
 * declaration order, drops unknown keys, and fails when a required key is
 * missing or a present value has the wrong kind.
 */
module Schema {
  import opened Wrappers
  import Text
  import Seqs

  datatype Json =
    | JNull
    | JBool(b: bool)
    | JNum(n: real)
    | JStr(s: string)
    | JArr(items: seq<Json>)
    | JObj(fields: seq<(string, Json)>)

  /** A decoded JSON request body or query object. */
  type Body = map<string, Json>

  /** JavaScript truthiness of a JSON value. */
  predicate Truthy(j: Json) {
    match j
    case JNull => false
    case JBool(b) => b
    case JNum(n) => n != 0.0
    case JStr(s) => s != ""
    case _ => true
  }

  predicate IsInteger(n: real) {
    n == n.Floor as real
  }

  /**
   * The format checks done inside the validation library (URL, e-mail
   * address, date coercion). They are given, not modelled.
   */
  datatype Checks = Checks(isUrl: string -> bool, isEmail: string -> bool, isDate: Json -> bool)

  datatype IntBound = Unbounded | Positive | AtLeast(min: int)

  datatype Kind =
    | KString(min: nat, max: Option<nat>)   // string, length in UTF-16 units within [min, max]
    | KUrl                                  // string that is a URL
    | KEmail                                // string that is an e-mail address
    | KNumber                               // any number
    | KInt(bound: IntBound)                 // integer number, with an optional bound
    | KEnum(options: seq<string>)           // one of the listed strings
    | KBool
    | KStringArray                          // array of strings
    | KDate                                 // anything the date coercion accepts
    | KNullable(inner: Kind)                // null, or a value of the inner kind

  datatype Presence = Required | Optional | Default(value: Json)

  datatype FieldSpec = FieldSpec(key: string, kind: Kind, presence: Presence)

  datatype Entry = Entry(key: string, value: Json)

  predicate InBound(b: IntBound, n: real) {
    match b
    case Unbounded => true
    case Positive => n > 0.0
    case AtLeast(m) => n >= m as real
  }

  predicate Accepts(k: Kind, j: Json, c: Checks) {
    match k
    case KString(min, max) =>
      j.JStr? && Text.Utf16Length(j.s) >= min && (max.None? || Text.Utf16Length(j.s) <= max.value)
    case KUrl => j.JStr? && c.isUrl(j.s)
    case KEmail => j.JStr? && c.isEmail(j.s)
    case KNumber => j.JNum?
    case KInt(b) => j.JNum? && IsInteger(j.n) && InBound(b, j.n)
    case KEnum(options) => j.JStr? && j.s in options
    case KBool => j.JBool?
    case KStringArray => j.JArr? && forall i :: 0 <= i < |j.items| ==> j.items[i].JStr?
    case KDate => c.isDate(j)
    case KNullable(inner) => j == JNull || Accepts(inner, j, c)
  }

  /** What one field demands of a body. */
  predicate FieldOk(f: FieldSpec, b: Body, c: Checks) {
    if f.key in b then Accepts(f.kind, b[f.key], c) else !f.presence.Required?
  }

  /** The value a successful parse holds for a declared field. */
  function Expected(f: FieldSpec, b: Body): Option<Json> {
    if f.key in b then Some(b[f.key])
    else if f.presence.Default? then Some(f.presence.value)
    else None
  }

  function Get(d: seq<Entry>, k: string): Option<Json> {
    if |d| == 0 then None else if d[0].key == k then Some(d[0].value) else Get(d[1..], k)
  }

  function FieldKey(f: FieldSpec): string { f.key }
  function EntryKey(e: Entry): string { e.key }

  /** Every declared field is acceptable. */
  predicate Conforms(shape: seq<FieldSpec>, b: Body, c: Checks) {
    forall i :: 0 <= i < |shape| ==> FieldOk(shape[i], b, c)
  }

  /**
   * safeParse: succeeds exactly when every declared field is acceptable, and
   * then yields only declared keys.
   */
  function ParseShape(shape: seq<FieldSpec>, b: Body, c: Checks): (r: Option<seq<Entry>>)
    ensures r.Some? <==> Conforms(shape, b, c)
  {
    if |shape| == 0 then Some([])
    else
      var f := shape[0];
      var rest := ParseShape(shape[1..], b, c);
      if rest.None? then
        assert !FieldOk(shape[1..][0], b, c) || exists i :: 1 <= i < |shape| && !FieldOk(shape[i], b, c);
        None
      else if f.key in b then
        if Accepts(f.kind, b[f.key], c) then Some([Entry(f.key, b[f.key])] + rest.value) else None
      else
        match f.presence
        case Required => None
        case Optional => rest
        case Default(v) => Some([Entry(f.key, v)] + rest.value)
  }

  /** One step of the parse: the first field contributes its expected value, if any. */
  lemma ParseShapeStep(shape: seq<FieldSpec>, b: Body, c: Checks)
    requires |shape| > 0 && ParseShape(shape, b, c).Some?
    ensures ParseShape(shape[1..], b, c).Some?
    ensures ParseShape(shape, b, c).value ==
      match Expected(shape[0], b)
      case Some(v) => [Entry(shape[0].key, v)] + ParseShape(shape[1..], b, c).value
      case None => ParseShape(shape[1..], b, c).value
  {
  }

  /** Every key of a parse result is a declared key. */
  lemma {:induction false} ParseShapeKeys(shape: seq<FieldSpec>, b: Body, c: Checks)
    requires ParseShape(shape, b, c).Some?
    ensures forall e :: e in ParseShape(shape, b, c).value ==> exists i :: 0 <= i < |shape| && shape[i].key == e.key
  {
    if |shape| > 0 {
      ParseShapeStep(shape, b, c);
      var tail := shape[1..];
      ParseShapeKeys(tail, b, c);
      forall e | e in ParseShape(shape, b, c).value ensures exists i :: 0 <= i < |shape| && shape[i].key == e.key {
        if e in ParseShape(tail, b, c).value {
          var i :| 0 <= i < |tail| && tail[i].key == e.key;
          assert shape[i + 1].key == e.key;
        } else {
          assert shape[0].key == e.key;
        }
      }
    }
  }

  /** What a parse may hold for field f: a value of its kind, or its default. */
  predicate Allows(f: FieldSpec, v: Json, c: Checks) {
    Accepts(f.kind, v, c) || f.presence == Default(v)
  }

  /** Every entry of a parse result is allowed by a declared field with its key. */
  lemma {:induction false} ParseShapeAllowed(shape: seq<FieldSpec>, b: Body, c: Checks)
    requires ParseShape(shape, b, c).Some?
    ensures forall e :: e in ParseShape(shape, b, c).value ==>
      exists i :: 0 <= i < |shape| && shape[i].key == e.key && Allows(shape[i], e.value, c)
  {
    if |shape| > 0 {
      ParseShapeStep(shape, b, c);
      var tail := shape[1..];
      ParseShapeAllowed(tail, b, c);
      forall e | e in ParseShape(shape, b, c).value
        ensures exists i :: 0 <= i < |shape| && shape[i].key == e.key && Allows(shape[i], e.value, c)
      {
        if e in ParseShape(tail, b, c).value {
          var i :| 0 <= i < |tail| && tail[i].key == e.key && Allows(tail[i], e.value, c);
          assert shape[i + 1] == tail[i];
        } else {
          assert FieldOk(shape[0], b, c);
          assert shape[0].key == e.key && Allows(shape[0], e.value, c);
        }
      }
    }
  }

  lemma GetCons(e: Entry, d: seq<Entry>, k: string)
    ensures Get([e] + d, k) == if e.key == k then Some(e.value) else Get(d, k)
  {
    assert ([e] + d)[1..] == d;
  }

  /** No other declared field has the key of field i. */
  predicate UniqueKeyAt(shape: seq<FieldSpec>, i: nat)
    requires i < |shape|
  {
    forall j :: 0 <= j < |shape| && j != i ==> shape[j].key != shape[i].key
  }

  lemma DistinctUnique(shape: seq<FieldSpec>, i: nat)
    requires Seqs.DistinctBy(shape, FieldKey) && i < |shape|
    ensures UniqueKeyAt(shape, i)
  {
    forall j | 0 <= j < |shape| && j != i ensures shape[j].key != shape[i].key {
      if j < i {
        assert FieldKey(shape[j]) != FieldKey(shape[i]);
      } else {
        assert FieldKey(shape[i]) != FieldKey(shape[j]);
      }
    }
  }

  /** No entry of the parse of the tail of `shape` carries the key of its first field. */
  lemma TailKeys(shape: seq<FieldSpec>, b: Body, c: Checks)
    requires |shape| > 0 && UniqueKeyAt(shape, 0)
    requires ParseShape(shape[1..], b, c).Some?
    ensures forall e :: e in ParseShape(shape[1..], b, c).value ==> e.key != shape[0].key
  {
    var tail := shape[1..];
    ParseShapeKeys(tail, b, c);
    forall e | e in ParseShape(tail, b, c).value ensures e.key != shape[0].key {
      var i :| 0 <= i < |tail| && tail[i].key == e.key;
      assert shape[i + 1].key == e.key;
    }
  }

  /** When field i's key is declared once, the parse result holds the expected value of that field. */
  lemma {:induction false} ParseShapeGet(shape: seq<FieldSpec>, b: Body, c: Checks, i: nat)
    requires ParseShape(shape, b, c).Some? && i < |shape| && UniqueKeyAt(shape, i)
    ensures Get(ParseShape(shape, b, c).value, shape[i].key) == Expected(shape[i], b)
  {
    ParseShapeStep(shape, b, c);
    var rest := ParseShape(shape[1..], b, c).value;
    var k := shape[i].key;
    if i == 0 {
      if Expected(shape[0], b).None? {
        TailKeys(shape, b, c);
        GetAbsent(rest, k);
      } else {
        GetCons(Entry(k, Expected(shape[0], b).value), rest, k);
      }
    } else {
      var tail := shape[1..];
      assert tail[i - 1] == shape[i];
      forall j | 0 <= j < |tail| && j != i - 1 ensures tail[j].key != tail[i - 1].key {
        assert tail[j] == shape[j + 1];
      }
      ParseShapeGet(tail, b, c, i - 1);
      assert k != shape[0].key;
      if Expected(shape[0], b).Some? {
        GetCons(Entry(shape[0].key, Expected(shape[0], b).value), rest, k);
      }
    }
  }

  /** With distinct declared keys, the parse result has distinct keys. */
  lemma {:induction false} ParseShapeDistinct(shape: seq<FieldSpec>, b: Body, c: Checks)
    requires Seqs.DistinctBy(shape, FieldKey)
    requires ParseShape(shape, b, c).Some?
    ensures Seqs.DistinctBy(ParseShape(shape, b, c).value, EntryKey)
  {
    if |shape| > 0 {
      ParseShapeStep(shape, b, c);
      assert Seqs.DistinctBy(shape[1..], FieldKey);
      ParseShapeDistinct(shape[1..], b, c);
      var rest := ParseShape(shape[1..], b, c).value;
      var d := ParseShape(shape, b, c).value;
      if d != rest {
        DistinctUnique(shape, 0);
        TailKeys(shape, b, c);
        assert d == [d[0]] + rest && d[0].key == shape[0].key;
        forall j | 0 < j < |d| ensures d[0].key != d[j].key {
          assert d[j] == rest[j - 1];
          assert d[j] in rest;
        }
      }
    }
  }

  lemma {:induction false} GetAbsent(d: seq<Entry>, k: string)
    requires forall e :: e in d ==> e.key != k
    ensures Get(d, k) == None
  {
    if |d| > 0 {
      assert d[0] in d;
      forall e | e in d[1..] ensures e.key != k {
        assert e in d;
      }
      GetAbsent(d[1..], k);
    }
  }

  /** A required non-empty text field holds the body's string in the parse. */
  lemma ParsedText(shape: seq<FieldSpec>, b: Body, c: Checks, d: seq<Entry>, i: nat)
    requires ParseShape(shape, b, c) == Some(d) && i < |shape| && UniqueKeyAt(shape, i)
    requires shape[i].kind == KString(1, None) && shape[i].presence == Required
    ensures shape[i].key in b && b[shape[i].key] == JStr(TextOf(d, shape[i].key))
    ensures TextOf(d, shape[i].key) != ""
  {
    ParseShapeGet(shape, b, c, i);
    assert FieldOk(shape[i], b, c);
  }

  // ------------------------------------------------------------ the schemas

  const Statuses := ["for_sale", "for_rent", "sold"]
  const PropertyTypes := ["residential", "commercial"]
  const Roles := ["agent", "property_manager", "admin"]
  const SearchSortFields := ["created_at", "price", "bedrooms", "bathrooms"]
  const SortOrders := ["asc", "desc"]

  const AnyString := KString(0, None)
  const NonEmpty := KString(1, None)

  function Req(key: string, kind: Kind): FieldSpec { FieldSpec(key, kind, Required) }
  function Opt(key: string, kind: Kind): FieldSpec { FieldSpec(key, kind, Optional) }

  /** createUserInputSchema */
  const CreateUserShape := [
    Req("name", KString(1, Some(255))),
    Req("email", KEmail),
    Req("password_hash", KString(6, None)),
    Req("role", KEnum(Roles)),
    Opt("reset_token", KNullable(AnyString)),
    Opt("reset_expires_at", KNullable(KDate))
  ]

  /** The address and description fields that may not be empty. */
  const PropertyTextKeys := ["title", "description", "street", "city", "state", "zip_code", "country"]

  /** createPropertyInputSchema */
  const CreatePropertyShape := [
    Req("user_id", AnyString),
    Req("title", NonEmpty), Req("description", NonEmpty), Req("street", NonEmpty), Req("city", NonEmpty),
    Req("state", NonEmpty), Req("zip_code", NonEmpty), Req("country", NonEmpty),
    Opt("latitude", KNullable(KNumber)), Opt("longitude", KNullable(KNumber)),
    Req("price", KNumber),
    Req("status", KEnum(Statuses)),
    Req("property_type", KEnum(PropertyTypes)),
    Req("bedrooms", KInt(Unbounded)), Req("bathrooms", KInt(Unbounded)), Req("square_footage", KInt(Unbounded)),
    Opt("additional_notes", KNullable(AnyString)),
    Opt("tags", KNullable(KStringArray))
  ]

  /** updatePropertyInputSchema */
  const UpdatePropertyShape := [
    Req("id", AnyString),
    Opt("user_id", AnyString),
    Opt("title", NonEmpty), Opt("description", NonEmpty), Opt("street", NonEmpty), Opt("city", NonEmpty),
    Opt("state", NonEmpty), Opt("zip_code", NonEmpty), Opt("country", NonEmpty),
    Opt("latitude", KNullable(KNumber)), Opt("longitude", KNullable(KNumber)),
    Opt("price", KNumber),
    Opt("status", KEnum(Statuses)),
    Opt("property_type", KEnum(PropertyTypes)),
    Opt("bedrooms", KInt(Unbounded)), Opt("bathrooms", KInt(Unbounded)), Opt("square_footage", KInt(Unbounded)),
    Opt("additional_notes", KNullable(AnyString)),
    Opt("tags", KNullable(KStringArray)),
    Opt("is_deleted", KBool)
  ]

  /** searchPropertyInputSchema */
  const SearchPropertyShape := [
    Opt("query", AnyString),
    Opt("user_id", AnyString),
    Opt("status", KEnum(Statuses)),
    Opt("property_type", KEnum(PropertyTypes)),
    FieldSpec("limit", KInt(Positive), Default(JNum(10.0))),
    FieldSpec("offset", KInt(AtLeast(0)), Default(JNum(0.0))),
    FieldSpec("sort_by", KEnum(SearchSortFields), Default(JStr("created_at"))),
    FieldSpec("sort_order", KEnum(SortOrders), Default(JStr("desc")))
  ]

  /** createPropertyImageInputSchema */
  const CreateImageShape := [
    Req("property_id", AnyString),
    Req("image_url", KUrl),
    Opt("alt_text", KNullable(AnyString)),
    FieldSpec("display_order", KInt(Unbounded), Default(JNum(0.0)))
  ]

  /** updatePropertyImageInputSchema */
  const UpdateImageShape := [
    Req("id", AnyString),
    Opt("property_id", AnyString),
    Opt("image_url", KUrl),
    Opt("alt_text", KNullable(AnyString)),
    Opt("display_order", KInt(Unbounded))
  ]

  /** createPropertyDocumentInputSchema */
  const CreateDocumentShape := [
    Req("property_id", AnyString),
    Req("document_url", KUrl),
    Req("document_name", NonEmpty),
    Req("document_type", NonEmpty)
  ]

  /** updatePropertyDocumentInputSchema */
  const UpdateDocumentShape := [
    Req("id", AnyString),
    Opt("property_id", AnyString),
    Opt("document_url", KUrl),
    Opt("document_name", NonEmpty),
    Opt("document_type", NonEmpty)
  ]

  // ------------------------------------------------ rules the schemas enforce

  predicate IsNonEmptyText(b: Body, k: string) {
    k in b && b[k].JStr? && b[k].s != ""
  }

  predicate IsIntegerField(b: Body, k: string) {
    k in b && b[k].JNum? && IsInteger(b[k].n)
  }

  predicate IsOneOf(b: Body, k: string, options: seq<string>) {
    k in b && b[k].JStr? && b[k].s in options
  }

  /**
   * A created property has a listed status and type, non-empty text in every
   * address and description field, a numeric price and integer room counts.
   */
  lemma CreatePropertyRules(b: Body, c: Checks)
    requires Conforms(CreatePropertyShape, b, c)
    ensures IsOneOf(b, "status", Statuses) && IsOneOf(b, "property_type", PropertyTypes)
    ensures forall k :: k in PropertyTextKeys ==> IsNonEmptyText(b, k)
    ensures IsIntegerField(b, "bedrooms") && IsIntegerField(b, "bathrooms") && IsIntegerField(b, "square_footage")
    ensures "price" in b && b["price"].JNum?
  {
    var sh := CreatePropertyShape;
    assert FieldOk(sh[1], b, c) && FieldOk(sh[2], b, c) && FieldOk(sh[3], b, c) && FieldOk(sh[4], b, c);
    assert FieldOk(sh[5], b, c) && FieldOk(sh[6], b, c) && FieldOk(sh[7], b, c);
    assert FieldOk(sh[10], b, c) && FieldOk(sh[11], b, c) && FieldOk(sh[12], b, c);
    assert FieldOk(sh[13], b, c) && FieldOk(sh[14], b, c) && FieldOk(sh[15], b, c);
  }

  /** An empty title (or any other empty text field) makes create fail. */
  lemma CreateRejectsEmptyText(b: Body, c: Checks, k: string)
    requires k in PropertyTextKeys
    requires k !in b || b[k] == JStr("")
    ensures !Conforms(CreatePropertyShape, b, c)
  {
    if Conforms(CreatePropertyShape, b, c) {
      CreatePropertyRules(b, c);
    }
  }

  /**
   * Update demands only a string id; every other field that is present must
   * be of its kind, and a present text field must be non-empty.
   */
  lemma UpdatePropertyRules(b: Body, c: Checks)
    requires Conforms(UpdatePropertyShape, b, c)
    ensures "id" in b && b["id"].JStr?
    ensures forall k :: k in PropertyTextKeys && k in b ==> IsNonEmptyText(b, k)
    ensures "status" in b ==> IsOneOf(b, "status", Statuses)
    ensures "property_type" in b ==> IsOneOf(b, "property_type", PropertyTypes)
  {
    var sh := UpdatePropertyShape;
    assert FieldOk(sh[0], b, c);
    assert FieldOk(sh[2], b, c) && FieldOk(sh[3], b, c) && FieldOk(sh[4], b, c) && FieldOk(sh[5], b, c);
    assert FieldOk(sh[6], b, c) && FieldOk(sh[7], b, c) && FieldOk(sh[8], b, c);
    assert FieldOk(sh[12], b, c) && FieldOk(sh[13], b, c);
  }

  /** A body holding nothing but a string id passes the update schema. */
  lemma UpdateNeedsOnlyId(x: string, c: Checks)
    ensures Conforms(UpdatePropertyShape, map["id" := JStr(x)], c)
  {
    var sh := UpdatePropertyShape;
    var m := map["id" := JStr(x)];
    forall i | 0 <= i < |sh| ensures FieldOk(sh[i], m, c) {
      if i > 0 {
        assert sh[i].key != "id" && !sh[i].presence.Required?;
      }
    }
  }

  /** Search filters that are present must name a listed status or type. */
  lemma SearchFilterRules(b: Body, c: Checks)
    requires Conforms(SearchPropertyShape, b, c)
    ensures "status" in b ==> IsOneOf(b, "status", Statuses)
    ensures "property_type" in b ==> IsOneOf(b, "property_type", PropertyTypes)
  {
    assert FieldOk(SearchPropertyShape[2], b, c) && FieldOk(SearchPropertyShape[3], b, c);
  }

  lemma SearchShapeDistinct()
    ensures Seqs.DistinctBy(SearchPropertyShape, FieldKey)
  {
  }

  /**
   * Search paging defaults: limit is a positive integer (10 when absent) and
   * offset a non-negative integer (0 when absent).
   */
  lemma SearchPagingDefaults(b: Body, c: Checks, d: seq<Entry>)
    requires ParseShape(SearchPropertyShape, b, c) == Some(d)
    ensures Get(d, "limit") == Some(if "limit" in b then b["limit"] else JNum(10.0))
    ensures Get(d, "offset") == Some(if "offset" in b then b["offset"] else JNum(0.0))
    ensures Get(d, "limit").value.JNum? && IsInteger(Get(d, "limit").value.n) && Get(d, "limit").value.n > 0.0
    ensures Get(d, "offset").value.JNum? && IsInteger(Get(d, "offset").value.n) && Get(d, "offset").value.n >= 0.0
  {
    var sh := SearchPropertyShape;
    SearchShapeDistinct();
    DistinctUnique(sh, 4);
    DistinctUnique(sh, 5);
    assert Conforms(sh, b, c);
    ParseShapeGet(sh, b, c, 4);
    ParseShapeGet(sh, b, c, 5);
    assert FieldOk(sh[4], b, c) && FieldOk(sh[5], b, c);
  }

  /**
   * Search sorting defaults: sort_by is one of the four listed fields
   * (created_at when absent) and sort_order asc or desc (desc when absent).
   */
  lemma SearchSortDefaults(b: Body, c: Checks, d: seq<Entry>)
    requires ParseShape(SearchPropertyShape, b, c) == Some(d)
    ensures Get(d, "sort_by") == Some(if "sort_by" in b then b["sort_by"] else JStr("created_at"))
    ensures Get(d, "sort_order") == Some(if "sort_order" in b then b["sort_order"] else JStr("desc"))
    ensures Get(d, "sort_by").value.JStr? && Get(d, "sort_by").value.s in SearchSortFields
    ensures Get(d, "sort_order").value.JStr? && Get(d, "sort_order").value.s in SortOrders
  {
    var sh := SearchPropertyShape;
    SearchShapeDistinct();
    DistinctUnique(sh, 6);
    DistinctUnique(sh, 7);
    assert Conforms(sh, b, c);
    ParseShapeGet(sh, b, c, 6);
    ParseShapeGet(sh, b, c, 7);
    assert FieldOk(sh[6], b, c) && FieldOk(sh[7], b, c);
  }

  /**
   * Express hands query parameters over as strings, and the search schema
   * expects numbers: a query string that names limit or offset never passes.
   */
  lemma QueryStringPagingRejected(b: Body, c: Checks)
    requires ("limit" in b && b["limit"].JStr?) || ("offset" in b && b["offset"].JStr?)
    ensures !Conforms(SearchPropertyShape, b, c)
  {
    assert !FieldOk(SearchPropertyShape[4], b, c) || !FieldOk(SearchPropertyShape[5], b, c);
  }

  lemma ImageShapeDistinct()
    ensures Seqs.DistinctBy(CreateImageShape, FieldKey)
  {
  }

  /** Image create needs a URL and yields display_order 0 when none is given. */
  lemma CreateImageRules(b: Body, c: Checks, d: seq<Entry>)
    requires ParseShape(CreateImageShape, b, c) == Some(d)
    ensures "image_url" in b && b["image_url"].JStr? && c.isUrl(b["image_url"].s)
    ensures "display_order" !in b ==> Get(d, "display_order") == Some(JNum(0.0))
    ensures "display_order" in b ==> IsIntegerField(b, "display_order")
  {
    assert Conforms(CreateImageShape, b, c);
    ParseShapeGet(CreateImageShape, b, c, 3);
    assert FieldOk(CreateImageShape[1], b, c) && FieldOk(CreateImageShape[3], b, c);
    assert CreateImageShape[3].key == "display_order";
  }

  /** Document create needs a URL and a non-empty name and type. */
  lemma CreateDocumentRules(b: Body, c: Checks)
    requires Conforms(CreateDocumentShape, b, c)
    ensures "document_url" in b && b["document_url"].JStr? && c.isUrl(b["document_url"].s)
    ensures IsNonEmptyText(b, "document_name") && IsNonEmptyText(b, "document_type")
  {
    var sh := CreateDocumentShape;
    assert FieldOk(sh[1], b, c) && FieldOk(sh[2], b, c) && FieldOk(sh[3], b, c);
  }

  /** The media update schemas demand only the media id. */
  lemma UpdateMediaRules(b: Body, c: Checks)
    ensures Conforms(UpdateImageShape, b, c) ==> "id" in b && b["id"].JStr?
    ensures Conforms(UpdateDocumentShape, b, c) ==> "id" in b && b["id"].JStr?
    ensures Conforms(UpdateDocumentShape, b, c) ==>
      ("document_name" in b ==> IsNonEmptyText(b, "document_name")) &&
      ("document_type" in b ==> IsNonEmptyText(b, "document_type"))
  {
    if Conforms(UpdateImageShape, b, c) {
      assert FieldOk(UpdateImageShape[0], b, c);
    }
    if Conforms(UpdateDocumentShape, b, c) {
      assert FieldOk(UpdateDocumentShape[0], b, c) && FieldOk(UpdateDocumentShape[3], b, c);
      assert FieldOk(UpdateDocumentShape[4], b, c);
    }
  }

  lemma UpdateMediaShapesDistinct()
    ensures Seqs.DistinctBy(UpdateImageShape, FieldKey)
    ensures Seqs.DistinctBy(UpdateDocumentShape, FieldKey)
  {
  }

  /** Get finds an entry with the key, or no entry has it. */
  lemma {:induction false} GetMembers(d: seq<Entry>, k: string)
    ensures Get(d, k).Some? ==> Entry(k, Get(d, k).value) in d
    ensures Get(d, k).None? ==> forall e :: e in d ==> e.key != k
  {
    if |d| > 0 {
      GetMembers(d[1..], k);
      assert d == [d[0]] + d[1..];
    }
  }

  /**
   * A parsed media update holds the body's id, and holds a property_id
   * exactly when the body has one, the body's.
   */
  lemma UpdateMediaPair(shape: seq<FieldSpec>, b: Body, c: Checks)
    requires shape == UpdateImageShape || shape == UpdateDocumentShape
    requires Conforms(shape, b, c)
    ensures "id" in b && b["id"].JStr?
    ensures "property_id" in b ==> b["property_id"].JStr?
    ensures Get(ParseShape(shape, b, c).value, "id") == Some(b["id"])
    ensures Get(ParseShape(shape, b, c).value, "property_id") == if "property_id" in b then Some(b["property_id"]) else None
  {
    assert shape[0] == Req("id", AnyString) && shape[1] == Opt("property_id", AnyString);
    assert UniqueKeyAt(shape, 0) && UniqueKeyAt(shape, 1);
    ParseShapeGet(shape, b, c, 0);
    ParseShapeGet(shape, b, c, 1);
    assert FieldOk(shape[0], b, c) && FieldOk(shape[1], b, c);
  }

  /**
   * A new user has a name of 1 to 255 UTF-16 units, a password of at least
   * 6 units, an e-mail address and one of the three roles.
   */
  lemma CreateUserRules(b: Body, c: Checks)
    requires Conforms(CreateUserShape, b, c)
    ensures "name" in b && b["name"].JStr? && b["name"].s != "" && 1 <= Text.Utf16Length(b["name"].s) <= 255
    ensures "password_hash" in b && b["password_hash"].JStr? && Text.Utf16Length(b["password_hash"].s) >= 6
    ensures "email" in b && b["email"].JStr? && c.isEmail(b["email"].s)
    ensures IsOneOf(b, "role", Roles)
  {
    var sh := CreateUserShape;
    assert FieldOk(sh[0], b, c) && FieldOk(sh[1], b, c) && FieldOk(sh[2], b, c) && FieldOk(sh[3], b, c);
  }

  // -------------------------------------------------- typed reads of results

  function TextOf(d: seq<Entry>, k: string): string {
    match Get(d, k)
    case Some(JStr(s)) => s
    case _ => ""
  }

  function NumberOf(d: seq<Entry>, k: string): real {
    match Get(d, k)
    case Some(JNum(n)) => n
    case _ => 0.0
  }

  function NullableNumberOf(d: seq<Entry>, k: string): Option<real> {
    match Get(d, k)
    case Some(JNum(n)) => Some(n)
    case _ => None
  }

  function NullableTextOf(d: seq<Entry>, k: string): Option<string> {
    match Get(d, k)
    case Some(JStr(s)) => Some(s)
    case _ => None
  }

  /** The strings of a JSON array, item by item ("" for an item that is not a string). */
  function StringsOf(items: seq<Json>): (r: seq<string>)
    ensures |r| == |items|
    ensures forall i :: 0 <= i < |items| && items[i].JStr? ==> r[i] == items[i].s
  {
    if |items| == 0 then []
    else (if items[0].JStr? then [items[0].s] else [""]) + StringsOf(items[1..])
  }
}
