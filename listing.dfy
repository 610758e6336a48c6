/**
 * Reading properties: the detail fetch, the media of one property, and the
 * filtered, sorted and paginated listing with its batched media lookup.
 */
module Listing {
  import opened Wrappers
  import Seqs
  import Text
  import Schema
  import opened Tables

  // ------------------------------------------------------------------ rows

  /** `WHERE id = $1 AND is_deleted = false`. */
  function LiveWithId(pid: string): Property -> bool {
    (p: Property) => p.id == pid && !p.is_deleted
  }

  /** The first live property with the given id (rows[0] of the query). */
  function FindLive(db: Db, pid: string): (r: Option<Property>)
    ensures r.Some? ==> r.value in db.properties && r.value.id == pid && !r.value.is_deleted
    ensures r.None? <==> forall p :: p in db.properties ==> !(p.id == pid && !p.is_deleted)
  {
    var rows := Seqs.Filter(db.properties, LiveWithId(pid));
    Seqs.FilterMembers(db.properties, LiveWithId(pid));
    if |rows| == 0 then None
    else
      assert rows[0] in rows;
      Some(rows[0])
  }

  // ----------------------------------------------------------------- media

  predicate ImageLe(a: Image, b: Image) { a.display_order <= b.display_order }
  predicate DocumentLe(a: Document, b: Document) { a.created_at <= b.created_at }

  lemma MediaOrdersTotal()
    ensures Seqs.TotalPreorder(ImageLe) && Seqs.TotalPreorder(DocumentLe)
  {
  }

  datatype Media = Media(images: seq<Image>, documents: seq<Document>)

  /**
   * getPropertyMedia: the images of the property by display_order and its
   * documents by created_at, both ascending.
   */
  function PropertyMedia(db: Db, pid: string): Media {
    Media(Seqs.SortBy(Seqs.Filter(db.images, Seqs.KeyIs(ImageOwner, pid)), ImageLe),
          Seqs.SortBy(Seqs.Filter(db.documents, Seqs.KeyIs(DocumentOwner, pid)), DocumentLe))
  }

  lemma SortedMembers<T>(s: seq<T>, le: (T, T) -> bool)
    ensures forall x :: x in Seqs.SortBy(s, le) ==> x in s
    ensures forall x :: x in s ==> x in Seqs.SortBy(s, le)
  {
    var r := Seqs.SortBy(s, le);
    forall x | x in r ensures x in s {
      assert x in multiset(r);
    }
    forall x | x in s ensures x in r {
      assert x in multiset(s);
    }
  }

  /** The media of a property are exactly its own images and documents. */
  lemma PropertyMediaMembers(db: Db, pid: string)
    ensures forall m :: m in PropertyMedia(db, pid).images ==> m in db.images && m.property_id == pid
    ensures forall m :: m in db.images && m.property_id == pid ==> m in PropertyMedia(db, pid).images
    ensures forall d :: d in PropertyMedia(db, pid).documents ==> d in db.documents && d.property_id == pid
    ensures forall d :: d in db.documents && d.property_id == pid ==> d in PropertyMedia(db, pid).documents
  {
    OwnImages(db, pid);
    OwnDocuments(db, pid);
  }

  lemma OwnImages(db: Db, pid: string)
    ensures forall m :: m in PropertyMedia(db, pid).images <==> m in db.images && m.property_id == pid
  {
    var own := Seqs.KeyIs(ImageOwner, pid);
    var ims := Seqs.Filter(db.images, own);
    var sorted := Seqs.SortBy(ims, ImageLe);
    assert PropertyMedia(db, pid).images == sorted;
    SortedMembers(ims, ImageLe);
    Seqs.FilterMembers(db.images, own);
    forall m ensures m in sorted <==> m in db.images && m.property_id == pid {
      assert m in sorted <==> m in ims;
      assert own(m) == (m.property_id == pid);
    }
  }

  lemma OwnDocuments(db: Db, pid: string)
    ensures forall d :: d in PropertyMedia(db, pid).documents <==> d in db.documents && d.property_id == pid
  {
    var own := Seqs.KeyIs(DocumentOwner, pid);
    var docs := Seqs.Filter(db.documents, own);
    var sorted := Seqs.SortBy(docs, DocumentLe);
    assert PropertyMedia(db, pid).documents == sorted;
    SortedMembers(docs, DocumentLe);
    Seqs.FilterMembers(db.documents, own);
    forall d ensures d in sorted <==> d in db.documents && d.property_id == pid {
      assert d in sorted <==> d in docs;
      assert own(d) == (d.property_id == pid);
    }
  }

  /** Images come by display_order, documents by created_at, both ascending. */
  lemma PropertyMediaSorted(db: Db, pid: string)
    ensures Seqs.SortedBy(PropertyMedia(db, pid).images, ImageLe)
    ensures Seqs.SortedBy(PropertyMedia(db, pid).documents, DocumentLe)
  {
    MediaOrdersTotal();
    Seqs.SortBySorted(Seqs.Filter(db.images, Seqs.KeyIs(ImageOwner, pid)), ImageLe);
    Seqs.SortBySorted(Seqs.Filter(db.documents, Seqs.KeyIs(DocumentOwner, pid)), DocumentLe);
  }

  datatype WithMedia = WithMedia(property: Property, images: seq<Image>, documents: seq<Document>)

  datatype DetailResponse = DetailNotFound | Detail(body: WithMedia)

  /** GET /properties/:property_id. */
  function PropertyDetail(db: Db, pid: string): (r: DetailResponse)
    ensures r.DetailNotFound? <==> forall p :: p in db.properties ==> !(p.id == pid && !p.is_deleted)
    ensures r.Detail? ==> r.body.property in db.properties && r.body.property.id == pid && !r.body.property.is_deleted
    ensures r.Detail? ==> r.body.images == PropertyMedia(db, pid).images && r.body.documents == PropertyMedia(db, pid).documents
  {
    match FindLive(db, pid)
    case None => DetailNotFound
    case Some(p) => var m := PropertyMedia(db, pid); Detail(WithMedia(p, m.images, m.documents))
  }

  // --------------------------------------------------------------- sorting

  /** Code point order on strings. */
  predicate StrLe(a: string, b: string) {
    if |a| == 0 then true
    else if |b| == 0 then false
    else if a[0] != b[0] then a[0] < b[0]
    else StrLe(a[1..], b[1..])
  }

  lemma {:induction false} StrLeTotal(a: string, b: string)
    ensures StrLe(a, b) || StrLe(b, a)
  {
    if |a| > 0 && |b| > 0 && a[0] == b[0] {
      StrLeTotal(a[1..], b[1..]);
    }
  }

  lemma {:induction false} StrLeTrans(a: string, b: string, c: string)
    requires StrLe(a, b) && StrLe(b, c)
    ensures StrLe(a, c)
  {
    if |a| > 0 && |b| > 0 && |c| > 0 && a[0] == b[0] && b[0] == c[0] {
      StrLeTrans(a[1..], b[1..], c[1..]);
    }
  }

  datatype SortColumn = ByPrice | ByCreatedAt | ByTitle

  predicate KeyLe(col: SortColumn, a: Property, b: Property) {
    match col
    case ByPrice => a.price <= b.price
    case ByCreatedAt => a.created_at <= b.created_at
    case ByTitle => StrLe(a.title, b.title)
  }

  /** `ORDER BY col ASC` or `ORDER BY col DESC`. */
  function PropertyLe(col: SortColumn, desc: bool): (Property, Property) -> bool {
    (a: Property, b: Property) => if desc then KeyLe(col, b, a) else KeyLe(col, a, b)
  }

  lemma PropertyLeTotal(col: SortColumn, desc: bool)
    ensures Seqs.TotalPreorder(PropertyLe(col, desc))
  {
    var le := PropertyLe(col, desc);
    forall a: Property, b: Property ensures le(a, b) || le(b, a) {
      StrLeTotal(a.title, b.title);
    }
    forall a: Property, b: Property, c: Property | le(a, b) && le(b, c) ensures le(a, c) {
      if col == ByTitle {
        if desc { StrLeTrans(c.title, b.title, a.title); } else { StrLeTrans(a.title, b.title, c.title); }
      }
    }
  }

  // ------------------------------------------------------- search parameters

  /** The validated search parameters as the handler reads them (None: undefined). */
  datatype SearchInput = SearchInput(
    query: Option<string>, status: Option<string>, property_type: Option<string>,
    limit: Option<real>, offset: Option<real>, sort_by: Option<string>, sort_order: Option<string>)

  function SearchInputOf(d: seq<Schema.Entry>): SearchInput {
    SearchInput(
      Schema.NullableTextOf(d, "query"), Schema.NullableTextOf(d, "status"),
      Schema.NullableTextOf(d, "property_type"),
      Schema.NullableNumberOf(d, "limit"), Schema.NullableNumberOf(d, "offset"),
      Schema.NullableTextOf(d, "sort_by"), Schema.NullableTextOf(d, "sort_order"))
  }

  predicate Given(s: Option<string>) { s.Some? && s.value != "" }

  /** `limit || 10` */
  function Limit(input: SearchInput): real {
    if input.limit.Some? && input.limit.value != 0.0 then input.limit.value else 10.0
  }

  /** `offset || 0` */
  function Offset(input: SearchInput): real {
    if input.offset.Some? && input.offset.value != 0.0 then input.offset.value else 0.0
  }

  const AllowedSortBy := ["price", "created_at", "title"]

  /** `sort_by || 'created_at'`, then the allow-list with created_at as fallback. */
  function SortColumnOf(sortBy: Option<string>): SortColumn {
    var s := if Given(sortBy) then sortBy.value else "created_at";
    if s == "price" then ByPrice else if s == "title" then ByTitle else ByCreatedAt
  }

  /** `(sort_order || 'asc').toLowerCase() === 'desc'`. */
  predicate Desc(sortOrder: Option<string>) {
    Text.LowerAscii(if Given(sortOrder) then sortOrder.value else "asc") == "desc"
  }

  /**
   * A sort field outside the allow-list falls back to created_at; the
   * direction is descending exactly when the given order lower-cases to "desc".
   */
  lemma SortChoice(sortBy: Option<string>, sortOrder: Option<string>)
    ensures SortColumnOf(sortBy) == ByPrice <==> sortBy == Some("price")
    ensures SortColumnOf(sortBy) == ByTitle <==> sortBy == Some("title")
    ensures !(sortBy.Some? && sortBy.value in AllowedSortBy) ==> SortColumnOf(sortBy) == ByCreatedAt
    ensures Desc(sortOrder) <==> sortOrder.Some? && Text.LowerAscii(sortOrder.value) == "desc"
  {
    assert Text.LowerAscii("asc") == "asc";
    assert Text.LowerAscii("") == "";
  }

  // ------------------------------------------------------------- the query

  datatype SqlValue = VText(s: string) | VNum(n: real)

  /** A condition of the WHERE clause; the number is the placeholder it reads. */
  datatype Cond = NotDeleted | TextMatch(pos: nat) | StatusIs(pos: nat) | TypeIs(pos: nat)

  function Placeholder(c: Cond): nat {
    match c
    case NotDeleted => 0
    case TextMatch(pos) => pos
    case StatusIs(pos) => pos
    case TypeIs(pos) => pos
  }

  datatype ListQuery = ListQuery(conds: seq<Cond>, sortBy: SortColumn, desc: bool, limitPos: nat, offsetPos: nat)

  /** The value bound to `$pos`. */
  function Bound(values: seq<SqlValue>, pos: nat): Option<SqlValue> {
    if 1 <= pos <= |values| then Some(values[pos - 1]) else None
  }

  /** `(title ILIKE pat OR description ILIKE pat OR street ILIKE pat OR city ILIKE pat)` */
  predicate TextHit(p: Property, pat: string, ilike: (string, string) -> bool) {
    ilike(p.title, pat) || ilike(p.description, pat) || ilike(p.street, pat) || ilike(p.city, pat)
  }

  predicate Eval(c: Cond, values: seq<SqlValue>, ilike: (string, string) -> bool, p: Property) {
    match c
    case NotDeleted => !p.is_deleted
    case TextMatch(pos) => Bound(values, pos).Some? && Bound(values, pos).value.VText? && TextHit(p, Bound(values, pos).value.s, ilike)
    case StatusIs(pos) => Bound(values, pos) == Some(VText(p.status))
    case TypeIs(pos) => Bound(values, pos) == Some(VText(p.property_type))
  }

  predicate EvalAll(conds: seq<Cond>, values: seq<SqlValue>, ilike: (string, string) -> bool, p: Property) {
    forall i :: 0 <= i < |conds| ==> Eval(conds[i], values, ilike, p)
  }

  /** What the listing promises: the live properties that match every supplied filter. */
  predicate MatchesSearch(input: SearchInput, ilike: (string, string) -> bool, p: Property) {
    && !p.is_deleted
    && (Given(input.query) ==> TextHit(p, "%" + input.query.value + "%", ilike))
    && (Given(input.status) ==> p.status == input.status.value)
    && (Given(input.property_type) ==> p.property_type == input.property_type.value)
  }

  function FilterCount(input: SearchInput): nat {
    (if Given(input.query) then 1 else 0) + (if Given(input.status) then 1 else 0)
    + (if Given(input.property_type) then 1 else 0)
  }

  /** The WHERE clause with the given values selects exactly the rows the search promises. */
  ghost predicate Means(conds: seq<Cond>, values: seq<SqlValue>, input: SearchInput) {
    forall ilike: (string, string) -> bool, p: Property :: EvalAll(conds, values, ilike, p) == MatchesSearch(input, ilike, p)
  }

  lemma EvalExtend(conds: seq<Cond>, values: seq<SqlValue>, more: seq<SqlValue>, ilike: (string, string) -> bool, p: Property)
    requires forall i :: 0 <= i < |conds| ==> Placeholder(conds[i]) <= |values|
    ensures EvalAll(conds, values + more, ilike, p) == EvalAll(conds, values, ilike, p)
  {
    forall i | 0 <= i < |conds| ensures Eval(conds[i], values + more, ilike, p) == Eval(conds[i], values, ilike, p) {
      var pos := Placeholder(conds[i]);
      if 1 <= pos {
        assert (values + more)[pos - 1] == values[pos - 1];
      }
    }
  }

  /** The search restricted to the first k of the three filters. */
  predicate UpTo(input: SearchInput, k: nat, ilike: (string, string) -> bool, p: Property) {
    && !p.is_deleted
    && (k >= 1 && Given(input.query) ==> TextHit(p, "%" + input.query.value + "%", ilike))
    && (k >= 2 && Given(input.status) ==> p.status == input.status.value)
    && (k >= 3 && Given(input.property_type) ==> p.property_type == input.property_type.value)
  }

  /** The k-th filter is supplied. */
  predicate Supplied(input: SearchInput, k: nat) {
    if k == 1 then Given(input.query) else if k == 2 then Given(input.status) else k == 3 && Given(input.property_type)
  }

  /** The condition the k-th filter adds, reading `$pos`, and the value it binds. */
  function FilterCond(k: nat, pos: nat): Cond {
    if k == 1 then TextMatch(pos) else if k == 2 then StatusIs(pos) else TypeIs(pos)
  }

  function FilterValue(input: SearchInput, k: nat): SqlValue
    requires Supplied(input, k)
  {
    if k == 1 then VText("%" + input.query.value + "%")
    else if k == 2 then VText(input.status.value) else VText(input.property_type.value)
  }

  ghost predicate Stage(conds: seq<Cond>, values: seq<SqlValue>, input: SearchInput, k: nat) {
    && |conds| == |values| + 1 && conds[0] == NotDeleted
    && (forall j :: 1 <= j < |conds| ==> !conds[j].NotDeleted? && Placeholder(conds[j]) == j)
    && (forall ilike: (string, string) -> bool, p: Property :: EvalAll(conds, values, ilike, p) == UpTo(input, k, ilike, p))
  }

  lemma StageStart(input: SearchInput)
    ensures Stage([NotDeleted], [], input, 0)
  {
    forall ilike: (string, string) -> bool, p: Property ensures EvalAll([NotDeleted], [], ilike, p) == UpTo(input, 0, ilike, p) {
      assert [NotDeleted][0] == NotDeleted;
    }
  }

  lemma StageSkip(conds: seq<Cond>, values: seq<SqlValue>, input: SearchInput, k: nat)
    requires Stage(conds, values, input, k) && k < 3 && !Supplied(input, k + 1)
    ensures Stage(conds, values, input, k + 1)
  {
  }

  lemma StageAdd(conds: seq<Cond>, values: seq<SqlValue>, input: SearchInput, k: nat)
    requires Stage(conds, values, input, k) && k < 3 && Supplied(input, k + 1)
    ensures Stage(conds + [FilterCond(k + 1, |values| + 1)], values + [FilterValue(input, k + 1)], input, k + 1)
  {
    var c := FilterCond(k + 1, |values| + 1);
    var v := FilterValue(input, k + 1);
    var cs, vs := conds + [c], values + [v];
    forall ilike: (string, string) -> bool, p: Property ensures EvalAll(cs, vs, ilike, p) == UpTo(input, k + 1, ilike, p) {
      EvalExtend(conds, values, [v], ilike, p);
      assert EvalAll(cs, vs, ilike, p) == (EvalAll(conds, vs, ilike, p) && Eval(c, vs, ilike, p)) by {
        if EvalAll(conds, vs, ilike, p) && Eval(c, vs, ilike, p) {
          forall i | 0 <= i < |cs| ensures Eval(cs[i], vs, ilike, p) {
            if i < |conds| { assert cs[i] == conds[i]; }
          }
        }
        if EvalAll(cs, vs, ilike, p) {
          assert Eval(cs[|conds|], vs, ilike, p);
          forall i | 0 <= i < |conds| ensures Eval(conds[i], vs, ilike, p) {
            assert cs[i] == conds[i];
          }
        }
      }
      assert Bound(vs, |values| + 1) == Some(v);
    }
  }

  /** The complete WHERE clause keeps its meaning when LIMIT and OFFSET values follow. */
  lemma StageFull(conds: seq<Cond>, values: seq<SqlValue>, input: SearchInput, more: seq<SqlValue>)
    requires Stage(conds, values, input, 3)
    ensures Means(conds, values, input) && Means(conds, values + more, input)
  {
    forall ilike: (string, string) -> bool, p: Property
      ensures EvalAll(conds, values + more, ilike, p) == MatchesSearch(input, ilike, p)
    {
      EvalExtend(conds, values, more, ilike, p);
    }
  }

  /**
   * The list handler's query construction: one condition and one value per
   * supplied filter, placeholders $1, $2, ... in order, LIMIT and OFFSET on the
   * next two, and the count query given every value but those two.
   */
  method BuildListQuery(input: SearchInput) returns (q: ListQuery, values: seq<SqlValue>, countValues: seq<SqlValue>)
    ensures q.sortBy == SortColumnOf(input.sort_by) && q.desc == Desc(input.sort_order)
    ensures |q.conds| == 1 + FilterCount(input) && |values| == |q.conds| + 1
    ensures q.conds[0] == NotDeleted
    ensures forall j :: 1 <= j < |q.conds| ==> !q.conds[j].NotDeleted? && Placeholder(q.conds[j]) == j
    ensures q.limitPos == |q.conds| && q.offsetPos == q.limitPos + 1 == |values|
    ensures values[q.limitPos - 1] == VNum(Limit(input)) && values[q.offsetPos - 1] == VNum(Offset(input))
    ensures countValues == values[..|values| - 2]
    ensures Means(q.conds, values, input) && Means(q.conds, countValues, input)
  {
    var conds := [NotDeleted];
    var vals: seq<SqlValue> := [];
    var idx := 1;
    StageStart(input);
    if Given(input.query) {
      StageAdd(conds, vals, input, 0);
      conds := conds + [TextMatch(idx)];
      vals := vals + [VText("%" + input.query.value + "%")];
      idx := idx + 1;
    } else {
      StageSkip(conds, vals, input, 0);
    }
    assert idx == |conds| == 1 + (if Given(input.query) then 1 else 0) && Stage(conds, vals, input, 1);
    if Given(input.status) {
      StageAdd(conds, vals, input, 1);
      conds := conds + [StatusIs(idx)];
      vals := vals + [VText(input.status.value)];
      idx := idx + 1;
    } else {
      StageSkip(conds, vals, input, 1);
    }
    assert idx == |conds| == 1 + (if Given(input.query) then 1 else 0) + (if Given(input.status) then 1 else 0);
    assert Stage(conds, vals, input, 2);
    if Given(input.property_type) {
      StageAdd(conds, vals, input, 2);
      conds := conds + [TypeIs(idx)];
      vals := vals + [VText(input.property_type.value)];
      idx := idx + 1;
    } else {
      StageSkip(conds, vals, input, 2);
    }
    assert idx == |conds| == 1 + FilterCount(input) && Stage(conds, vals, input, 3);
    StageFull(conds, vals, input, [VNum(Limit(input)), VNum(Offset(input))]);
    q := ListQuery(conds, SortColumnOf(input.sort_by), Desc(input.sort_order), idx, idx + 1);
    values := vals + [VNum(Limit(input)), VNum(Offset(input))];
    countValues := values[..|values| - 2];
    assert countValues == vals;
  }

  // ------------------------------------------------------- running the query

  function Where(conds: seq<Cond>, values: seq<SqlValue>, ilike: (string, string) -> bool): Property -> bool {
    (p: Property) => EvalAll(conds, values, ilike, p)
  }

  predicate IsCount(x: real) { x >= 0.0 && Schema.IsInteger(x) }

  /**
   * The SELECT: the rows the WHERE clause admits, ordered, then LIMIT and
   * OFFSET; None (a database error) unless both are bound to non-negative integers.
   */
  function RunSelect(db: Db, q: ListQuery, values: seq<SqlValue>, ilike: (string, string) -> bool): Option<seq<Property>> {
    var rows := Seqs.SortBy(Seqs.Filter(db.properties, Where(q.conds, values, ilike)), PropertyLe(q.sortBy, q.desc));
    match (Bound(values, q.limitPos), Bound(values, q.offsetPos))
    case (Some(VNum(l)), Some(VNum(o))) =>
      if IsCount(l) && IsCount(o) then Some(Seqs.Page(rows, l.Floor, o.Floor)) else None
    case _ => None
  }

  /** SELECT COUNT(*) with the same WHERE clause. */
  function RunCount(db: Db, conds: seq<Cond>, values: seq<SqlValue>, ilike: (string, string) -> bool): nat {
    |Seqs.Filter(db.properties, Where(conds, values, ilike))|
  }

  /** `SELECT * FROM property_images WHERE property_id IN (ids) ORDER BY display_order ASC` */
  function ImagesOf(db: Db, ids: seq<string>): seq<Image> {
    Seqs.SortBy(Seqs.Filter(db.images, Seqs.KeyIn(ImageOwner, ids)), ImageLe)
  }

  /** `SELECT * FROM property_documents WHERE property_id IN (ids) ORDER BY created_at ASC` */
  function DocumentsOf(db: Db, ids: seq<string>): seq<Document> {
    Seqs.SortBy(Seqs.Filter(db.documents, Seqs.KeyIn(DocumentOwner, ids)), DocumentLe)
  }

  /** `map[k] || []` */
  function Lookup<T>(m: map<string, seq<T>>, k: string): seq<T> {
    if k in m then m[k] else []
  }

  /** The forEach that fills imagesMap or documentsMap: every key collects its rows in arrival order. */
  method GroupBy<T>(rows: seq<T>, key: T -> string) returns (m: map<string, seq<T>>)
    ensures forall k :: Lookup(m, k) == Seqs.Filter(rows, Seqs.KeyIs(key, k))
  {
    m := map[];
    for i := 0 to |rows|
      invariant forall k :: Lookup(m, k) == Seqs.Filter(rows[..i], Seqs.KeyIs(key, k))
    {
      var x := rows[i];
      forall k ensures Seqs.Filter(rows[..i + 1], Seqs.KeyIs(key, k))
                    == Seqs.Filter(rows[..i], Seqs.KeyIs(key, k)) + (if key(x) == k then [x] else [])
      {
        assert rows[..i + 1] == rows[..i] + [x];
        Seqs.FilterAppend(rows[..i], [x], Seqs.KeyIs(key, k));
        Seqs.FilterCons(x, [], Seqs.KeyIs(key, k));
        assert [x] + [] == [x];
      }
      m := m[key(x) := Lookup(m, key(x)) + [x]];
    }
    assert rows[..|rows|] == rows;
  }

  /**
   * One batched query, grouped by property, gives each listed property
   * exactly what getPropertyMedia returns for it.
   */
  lemma BatchedMedia(db: Db, ids: seq<string>, pid: string)
    requires pid in ids
    ensures Seqs.Filter(ImagesOf(db, ids), Seqs.KeyIs(ImageOwner, pid)) == PropertyMedia(db, pid).images
    ensures Seqs.Filter(DocumentsOf(db, ids), Seqs.KeyIs(DocumentOwner, pid)) == PropertyMedia(db, pid).documents
  {
    MediaOrdersTotal();
    Seqs.FilterSortBy(Seqs.Filter(db.images, Seqs.KeyIn(ImageOwner, ids)), Seqs.KeyIs(ImageOwner, pid), ImageLe);
    Seqs.FilterNarrow(db.images, Seqs.KeyIn(ImageOwner, ids), Seqs.KeyIs(ImageOwner, pid));
    Seqs.FilterSortBy(Seqs.Filter(db.documents, Seqs.KeyIn(DocumentOwner, ids)), Seqs.KeyIs(DocumentOwner, pid), DocumentLe);
    Seqs.FilterNarrow(db.documents, Seqs.KeyIn(DocumentOwner, ids), Seqs.KeyIs(DocumentOwner, pid));
  }

  function Ids(ps: seq<Property>): (r: seq<string>)
    ensures |r| == |ps| && forall i :: 0 <= i < |ps| ==> r[i] == ps[i].id
  {
    if |ps| == 0 then [] else [ps[0].id] + Ids(ps[1..])
  }

  /** `properties.map(property => ({...property, images: imagesMap[property.id] || [], ...}))` */
  function Attach(ps: seq<Property>, im: map<string, seq<Image>>, dm: map<string, seq<Document>>): (r: seq<WithMedia>)
    ensures |r| == |ps|
    ensures forall i :: 0 <= i < |ps| ==> r[i] == WithMedia(ps[i], Lookup(im, ps[i].id), Lookup(dm, ps[i].id))
  {
    if |ps| == 0 then [] else [WithMedia(ps[0], Lookup(im, ps[0].id), Lookup(dm, ps[0].id))] + Attach(ps[1..], im, dm)
  }

  // ------------------------------------------------------------ the listing

  datatype ListResponse = ListInvalid | ListError | Listed(properties: seq<WithMedia>, total_count: nat)

  function Matching(input: SearchInput, ilike: (string, string) -> bool): Property -> bool {
    (p: Property) => MatchesSearch(input, ilike, p)
  }

  /** Every matching property, in the requested order (ties in storage order). */
  function Ranked(db: Db, input: SearchInput, ilike: (string, string) -> bool): seq<Property> {
    Seqs.SortBy(Seqs.Filter(db.properties, Matching(input, ilike)), PropertyLe(SortColumnOf(input.sort_by), Desc(input.sort_order)))
  }

  function OwnMedia(db: Db, p: Property): WithMedia {
    WithMedia(p, PropertyMedia(db, p.id).images, PropertyMedia(db, p.id).documents)
  }

  /**
   * What GET /properties answers once the query string has passed
   * validation: 500 when limit or offset cannot be bound, otherwise one page
   * of the matching live properties, each with its own media, and the number
   * of all matches.
   */
  function ListParsed(db: Db, d: seq<Schema.Entry>, ilike: (string, string) -> bool): ListResponse {
    var input := SearchInputOf(d);
    if !IsCount(Limit(input)) || !IsCount(Offset(input)) then ListError
    else
      var page := Seqs.Page(Ranked(db, input, ilike), Limit(input).Floor, Offset(input).Floor);
      Listed(seq(|page|, i requires 0 <= i < |page| => OwnMedia(db, page[i])),
             |Seqs.Filter(db.properties, Matching(input, ilike))|)
  }

  /** What GET /properties answers: 400 when the query fails validation, else ListParsed. */
  function ListSpec(db: Db, query: Schema.Body, c: Schema.Checks, ilike: (string, string) -> bool): ListResponse {
    match Schema.ParseShape(Schema.SearchPropertyShape, query, c)
    case None => ListInvalid
    case Some(d) => ListParsed(db, d, ilike)
  }

  /** Listing agrees with the declarative meaning of the query. */
  lemma WhereMeansSearch(db: Db, conds: seq<Cond>, values: seq<SqlValue>, input: SearchInput, ilike: (string, string) -> bool)
    requires Means(conds, values, input)
    ensures Seqs.Filter(db.properties, Where(conds, values, ilike)) == Seqs.Filter(db.properties, Matching(input, ilike))
  {
    Seqs.FilterCongruent(db.properties, Where(conds, values, ilike), Matching(input, ilike));
  }

  /** The SELECT that BuildListQuery issues returns the requested page of the ranking. */
  lemma SelectIsPage(db: Db, q: ListQuery, values: seq<SqlValue>, input: SearchInput, ilike: (string, string) -> bool)
    requires Means(q.conds, values, input)
    requires q.sortBy == SortColumnOf(input.sort_by) && q.desc == Desc(input.sort_order)
    requires Bound(values, q.limitPos) == Some(VNum(Limit(input)))
    requires Bound(values, q.offsetPos) == Some(VNum(Offset(input)))
    ensures RunSelect(db, q, values, ilike)
         == if IsCount(Limit(input)) && IsCount(Offset(input))
            then Some(Seqs.Page(Ranked(db, input, ilike), Limit(input).Floor, Offset(input).Floor))
            else None
  {
    WhereMeansSearch(db, q.conds, values, input, ilike);
  }

  /** Each listed property with its images and documents, from two batched queries. */
  method AttachMedia(db: Db, properties: seq<Property>) returns (r: seq<WithMedia>)
    ensures |r| == |properties|
    ensures forall i :: 0 <= i < |r| ==> r[i] == OwnMedia(db, properties[i])
  {
    var ids := Ids(properties);
    var imagesMap: map<string, seq<Image>> := map[];
    var documentsMap: map<string, seq<Document>> := map[];
    if |ids| > 0 {
      imagesMap := GroupBy(ImagesOf(db, ids), ImageOwner);
      documentsMap := GroupBy(DocumentsOf(db, ids), DocumentOwner);
    }
    r := Attach(properties, imagesMap, documentsMap);
    forall i | 0 <= i < |properties| ensures r[i] == OwnMedia(db, properties[i]) {
      assert ids[i] == properties[i].id;
      BatchedMedia(db, ids, properties[i].id);
    }
  }

  /** The body of GET /properties after validation: the page, the count, then the media. */
  method ListFromParse(db: Db, d: seq<Schema.Entry>, ilike: (string, string) -> bool) returns (r: ListResponse)
    ensures r == ListParsed(db, d, ilike)
  {
    var input := SearchInputOf(d);
    var q, values, countValues := BuildListQuery(input);
    SelectIsPage(db, q, values, input, ilike);
    var rows := RunSelect(db, q, values, ilike);
    if rows.None? {
      return ListError;
    }
    WhereMeansSearch(db, q.conds, countValues, input, ilike);
    var total := RunCount(db, q.conds, countValues, ilike);
    var withMedia := AttachMedia(db, rows.value);
    r := Listed(withMedia, total);
    var page := rows.value;
    assert withMedia == seq(|page|, i requires 0 <= i < |page| => OwnMedia(db, page[i]));
  }

  /** GET /properties. */
  method ListProperties(db: Db, query: Schema.Body, c: Schema.Checks, ilike: (string, string) -> bool) returns (r: ListResponse)
    ensures r == ListSpec(db, query, c, ilike)
  {
    var parsed := Schema.ParseShape(Schema.SearchPropertyShape, query, c);
    if parsed.None? {
      return ListInvalid;
    }
    r := ListFromParse(db, parsed.value, ilike);
  }

  // --------------------------------------------------- what the listing keeps

  /** A listed property is live and satisfies every supplied filter. */
  lemma ListShowsMatches(db: Db, query: Schema.Body, c: Schema.Checks, ilike: (string, string) -> bool)
    requires ListSpec(db, query, c, ilike).Listed?
    ensures var r := ListSpec(db, query, c, ilike);
      var input := SearchInputOf(Schema.ParseShape(Schema.SearchPropertyShape, query, c).value);
      && (forall i :: 0 <= i < |r.properties| ==>
            r.properties[i].property in db.properties && MatchesSearch(input, ilike, r.properties[i].property))
      && r.total_count == |Seqs.Filter(db.properties, Matching(input, ilike))|
  {
    var d := Schema.ParseShape(Schema.SearchPropertyShape, query, c).value;
    var input := SearchInputOf(d);
    var matching := Seqs.Filter(db.properties, Matching(input, ilike));
    var ranked := Ranked(db, input, ilike);
    Seqs.FilterMembers(db.properties, Matching(input, ilike));
    SortedMembers(matching, PropertyLe(SortColumnOf(input.sort_by), Desc(input.sort_order)));
    var page := Seqs.Page(ranked, Limit(input).Floor, Offset(input).Floor);
    forall i | 0 <= i < |page| ensures page[i] in db.properties && MatchesSearch(input, ilike, page[i]) {
      assert page[i] in ranked;
    }
  }

  /** Removing every soft-deleted property changes neither the page nor the total count. */
  function Purged(db: Db): Db {
    db.(properties := Seqs.Filter(db.properties, (p: Property) => !p.is_deleted))
  }

  lemma ListIgnoresDeleted(db: Db, query: Schema.Body, c: Schema.Checks, ilike: (string, string) -> bool)
    ensures ListSpec(Purged(db), query, c, ilike) == ListSpec(db, query, c, ilike)
  {
    match Schema.ParseShape(Schema.SearchPropertyShape, query, c)
    case None =>
    case Some(d) =>
      var input := SearchInputOf(d);
      Seqs.FilterNarrow(db.properties, (p: Property) => !p.is_deleted, Matching(input, ilike));
  }

  /** The page is in the requested order. */
  lemma ListSorted(db: Db, query: Schema.Body, c: Schema.Checks, ilike: (string, string) -> bool)
    requires ListSpec(db, query, c, ilike).Listed?
    ensures var r := ListSpec(db, query, c, ilike);
      var input := SearchInputOf(Schema.ParseShape(Schema.SearchPropertyShape, query, c).value);
      var le := PropertyLe(SortColumnOf(input.sort_by), Desc(input.sort_order));
      forall i, j :: 0 <= i < j < |r.properties| ==> le(r.properties[i].property, r.properties[j].property)
  {
    var d := Schema.ParseShape(Schema.SearchPropertyShape, query, c).value;
    var input := SearchInputOf(d);
    var le := PropertyLe(SortColumnOf(input.sort_by), Desc(input.sort_order));
    PropertyLeTotal(SortColumnOf(input.sort_by), Desc(input.sort_order));
    Seqs.SortBySorted(Seqs.Filter(db.properties, Matching(input, ilike)), le);
  }

  /** With unique ids, the ranking lists every property at most once... */
  lemma RankedDistinct(db: Db, input: SearchInput, ilike: (string, string) -> bool)
    requires Valid(db)
    ensures Seqs.DistinctBy(Ranked(db, input, ilike), PropertyId)
  {
    Seqs.FilterDistinct(db.properties, Matching(input, ilike), PropertyId);
    Seqs.SortByDistinct(Seqs.Filter(db.properties, Matching(input, ilike)),
      PropertyLe(SortColumnOf(input.sort_by), Desc(input.sort_order)), PropertyId);
  }

  /** ...so the pages at offsets 0 and limit never show the same property. */
  lemma ConsecutivePagesDisjoint(db: Db, input: SearchInput, ilike: (string, string) -> bool, limit: nat)
    requires Valid(db)
    ensures var r := Ranked(db, input, ilike);
      forall x, y :: x in Seqs.Page(r, limit, 0) && y in Seqs.Page(r, limit, limit) ==> x.id != y.id
  {
    RankedDistinct(db, input, ilike);
    Seqs.ConsecutivePages(Ranked(db, input, ilike), limit, PropertyId);
  }

  /**
   * After validation LIMIT and OFFSET always bind: the listing never fails
   * with a database error, and absent values mean 10 and 0.
   */
  lemma ValidatedPaging(db: Db, query: Schema.Body, c: Schema.Checks, ilike: (string, string) -> bool, d: seq<Schema.Entry>)
    requires Schema.ParseShape(Schema.SearchPropertyShape, query, c) == Some(d)
    ensures ListParsed(db, d, ilike).Listed?
    ensures "limit" !in query ==> Limit(SearchInputOf(d)) == 10.0
    ensures "limit" in query ==> query["limit"] == Schema.JNum(Limit(SearchInputOf(d)))
    ensures "offset" !in query ==> Offset(SearchInputOf(d)) == 0.0
    ensures "offset" in query ==> query["offset"] == Schema.JNum(Offset(SearchInputOf(d)))
  {
    Schema.SearchPagingDefaults(query, c, d);
  }

  /**
   * Validation and the allow-list together: the listing never sorts by
   * title, and sorts by price only when asked to and by created_at otherwise
   * (bedrooms and bathrooms included).
   */
  lemma ValidatedSortColumn(query: Schema.Body, c: Schema.Checks, d: seq<Schema.Entry>)
    requires Schema.ParseShape(Schema.SearchPropertyShape, query, c) == Some(d)
    ensures SortColumnOf(SearchInputOf(d).sort_by) != ByTitle
    ensures SortColumnOf(SearchInputOf(d).sort_by) == ByPrice <==> "sort_by" in query && query["sort_by"] == Schema.JStr("price")
  {
    Schema.SearchSortDefaults(query, c, d);
    var given := Schema.Get(d, "sort_by").value.s;
    assert SearchInputOf(d).sort_by == Some(given);
  }

  /** With no sort_order in the query, validation's default makes the listing descend. */
  lemma ValidatedDefaultOrder(query: Schema.Body, c: Schema.Checks, d: seq<Schema.Entry>)
    requires Schema.ParseShape(Schema.SearchPropertyShape, query, c) == Some(d)
    requires "sort_order" !in query
    ensures Desc(SearchInputOf(d).sort_order)
  {
    Schema.SearchSortDefaults(query, c, d);
    assert SearchInputOf(d).sort_order == Some("desc");
    assert Text.LowerAscii("desc") == "desc";
  }
}
