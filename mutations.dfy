/**
 * The routes that change properties and their media: the ownership gate in
 * front of them, POST /properties, PUT and DELETE /properties/:property_id,
 * and the image and document routes below a property.
 */
module Mutations {
  import opened Wrappers
  import Seqs
  import Schema
  import opened Tables
  import Listing

  /** The user a verified token names. */
  datatype Caller = Caller(id: string, email: string, role: string)

  /** An HTTP answer: 400, 403, 404 with its message, 500, or success with a body. */
  datatype Reply<T> = Invalid | Forbidden | NotFound(message: string) | Failed | Ok(value: T)

  const PropertyNotFound := "Property not found"

  // ---------------------------------------------------------- ownership gate

  datatype Gate = GateNotFound | GateForbidden | GatePass(property: Property)

  predicate MayChange(caller: Caller, p: Property) {
    caller.role == "admin" || caller.id == p.user_id
  }

  /**
   * verifyPropertyOwnership: 404 unless a live property has the id, 403
   * unless the caller is an admin or its owner, otherwise the property.
   */
  function OwnershipGate(db: Db, caller: Caller, pid: string): (r: Gate)
    ensures r.GateNotFound? <==> forall p :: p in db.properties ==> !(p.id == pid && !p.is_deleted)
    ensures r.GatePass? ==> r.property in db.properties && r.property.id == pid && !r.property.is_deleted
    ensures r.GatePass? ==> MayChange(caller, r.property)
    ensures r.GateForbidden? ==> caller.role != "admin"
  {
    match Listing.FindLive(db, pid)
    case None => GateNotFound
    case Some(p) => if MayChange(caller, p) then GatePass(p) else GateForbidden
  }

  lemma SameIdSameRow(rows: seq<Property>, p: Property, q: Property)
    requires Seqs.DistinctBy(rows, PropertyId) && p in rows && q in rows && p.id == q.id
    ensures p == q
  {
    var i :| 0 <= i < |rows| && rows[i] == p;
    var j :| 0 <= j < |rows| && rows[j] == q;
    assert PropertyId(rows[i]) == PropertyId(rows[j]);
  }

  /** With unique ids the gate decides on the one live row that has the id. */
  lemma GateDecides(db: Db, caller: Caller, pid: string, p: Property)
    requires Valid(db) && p in db.properties && p.id == pid && !p.is_deleted
    ensures OwnershipGate(db, caller, pid) == if MayChange(caller, p) then GatePass(p) else GateForbidden
  {
    var q := Listing.FindLive(db, pid).value;
    SameIdSameRow(db.properties, p, q);
  }

  /** Soft-deleted rows are invisible to the gate. */
  lemma GateIgnoresDeleted(db: Db, caller: Caller, pid: string)
    ensures OwnershipGate(Listing.Purged(db), caller, pid) == OwnershipGate(db, caller, pid)
  {
    Seqs.FilterNarrow(db.properties, (p: Property) => !p.is_deleted, Listing.LiveWithId(pid));
  }

  // ------------------------------------------------------------------ create

  predicate HasPropertyId(db: Db, id: string) {
    exists p :: p in db.properties && p.id == id
  }

  /** `value || null` on a validated optional string. */
  function TruthyText(o: Option<string>): (r: Option<string>)
    ensures r.Some? <==> o.Some? && o.value != ""
    ensures r.Some? ==> r == o
  {
    if o.Some? && o.value != "" then o else None
  }

  /** `value || null` on a validated optional number: 0 is stored as null. */
  function TruthyNumber(o: Option<real>): (r: Option<real>)
    ensures r.Some? <==> o.Some? && o.value != 0.0
    ensures r.Some? ==> r == o
  {
    if o.Some? && o.value != 0.0 then o else None
  }

  /** `data.tags ? JSON.stringify(data.tags) : null` */
  function TagsOf(d: seq<Schema.Entry>): Option<seq<string>> {
    var v := Schema.Get(d, "tags");
    if v.Some? && v.value.JArr? then Some(Schema.StringsOf(v.value.items)) else None
  }

  /** The row the INSERT of POST /properties stores. */
  function NewProperty(d: seq<Schema.Entry>, caller: Caller, id: string, now: int): (p: Property)
    ensures p.id == id && p.user_id == caller.id
    ensures !p.is_deleted && p.created_at == now && p.updated_at == now
  {
    Property(
      id, caller.id,
      Schema.TextOf(d, "title"), Schema.TextOf(d, "description"), Schema.TextOf(d, "street"),
      Schema.TextOf(d, "city"), Schema.TextOf(d, "state"), Schema.TextOf(d, "zip_code"),
      Schema.TextOf(d, "country"),
      TruthyNumber(Schema.NullableNumberOf(d, "latitude")), TruthyNumber(Schema.NullableNumberOf(d, "longitude")),
      Schema.NumberOf(d, "price"),
      Schema.TextOf(d, "status"), Schema.TextOf(d, "property_type"),
      Schema.NumberOf(d, "bedrooms").Floor, Schema.NumberOf(d, "bathrooms").Floor,
      Schema.NumberOf(d, "square_footage").Floor,
      TruthyText(Schema.NullableTextOf(d, "additional_notes")),
      TagsOf(d),
      false, now, now)
  }

  /**
   * POST /properties: 400 when the body fails validation, 500 when the
   * generated id is taken, otherwise the new row, owned by the caller,
   * appended to the table.
   */
  function CreateProperty(db: Db, body: Schema.Body, c: Schema.Checks, caller: Caller, id: string, now: int)
    : (r: (Db, Reply<Property>))
    ensures r.1.Invalid? || r.1.Failed? || r.1.Ok?
    ensures r.1.Invalid? <==> !Schema.Conforms(Schema.CreatePropertyShape, body, c)
    ensures r.1.Failed? <==> Schema.Conforms(Schema.CreatePropertyShape, body, c) && HasPropertyId(db, id)
    ensures !r.1.Ok? ==> r.0 == db
    ensures r.1.Ok? ==> r.0 == db.(properties := db.properties + [r.1.value])
    ensures r.1.Ok? ==> r.1.value.id == id && r.1.value.user_id == caller.id && !r.1.value.is_deleted
    ensures r.1.Ok? ==> r.1.value.created_at == now && r.1.value.updated_at == now
  {
    match Schema.ParseShape(Schema.CreatePropertyShape, body, c)
    case None => (db, Invalid)
    case Some(d) =>
      if HasPropertyId(db, id) then (db, Failed)
      else
        var p := NewProperty(d, caller, id, now);
        (db.(properties := db.properties + [p]), Ok(p))
  }

  /** A create keeps ids unique, since it fails when the new id is taken. */
  lemma CreateKeepsValid(db: Db, body: Schema.Body, c: Schema.Checks, caller: Caller, id: string, now: int)
    requires Valid(db)
    ensures Valid(CreateProperty(db, body, c, caller, id, now).0)
  {
    var r := CreateProperty(db, body, c, caller, id, now);
    if r.1.Ok? {
      var rows := r.0.properties;
      forall i, j | 0 <= i < j < |rows| ensures PropertyId(rows[i]) != PropertyId(rows[j]) {
        if j == |rows| - 1 {
          assert rows[i] in db.properties;
        } else {
          assert rows[i] == db.properties[i] && rows[j] == db.properties[j];
        }
      }
    }
  }

  /** The caller may go on to change a property it has just created, and can fetch it. */
  lemma CreatedIsOwned(db: Db, body: Schema.Body, c: Schema.Checks, caller: Caller, id: string, now: int)
    requires Valid(db) && CreateProperty(db, body, c, caller, id, now).1.Ok?
    ensures var r := CreateProperty(db, body, c, caller, id, now);
      OwnershipGate(r.0, caller, id) == GatePass(r.1.value) && Listing.PropertyDetail(r.0, id).Detail?
  {
    var r := CreateProperty(db, body, c, caller, id, now);
    CreateKeepsValid(db, body, c, caller, id, now);
    assert r.1.value in r.0.properties;
    GateDecides(r.0, caller, id, r.1.value);
  }

  lemma CreateShapeDistinct()
    ensures Seqs.DistinctBy(Schema.CreatePropertyShape, Schema.FieldKey)
  {
  }

  /** The stored text fields are the body's, and none is empty. */
  lemma CreatedText(b: Schema.Body, c: Schema.Checks, d: seq<Schema.Entry>, caller: Caller, id: string, now: int)
    requires Schema.ParseShape(Schema.CreatePropertyShape, b, c) == Some(d)
    ensures var p := NewProperty(d, caller, id, now);
      && "title" in b && b["title"] == Schema.JStr(p.title) && p.title != ""
      && "description" in b && b["description"] == Schema.JStr(p.description) && p.description != ""
      && "street" in b && b["street"] == Schema.JStr(p.street) && p.street != ""
      && "city" in b && b["city"] == Schema.JStr(p.city) && p.city != ""
  {
    CreatedTextAt(b, c, d, 1);
    CreatedTextAt(b, c, d, 2);
    CreatedTextAt(b, c, d, 3);
    CreatedTextAt(b, c, d, 4);
  }

  lemma CreatedAddress(b: Schema.Body, c: Schema.Checks, d: seq<Schema.Entry>, caller: Caller, id: string, now: int)
    requires Schema.ParseShape(Schema.CreatePropertyShape, b, c) == Some(d)
    ensures var p := NewProperty(d, caller, id, now);
      && "state" in b && b["state"] == Schema.JStr(p.state) && p.state != ""
      && "zip_code" in b && b["zip_code"] == Schema.JStr(p.zip_code) && p.zip_code != ""
      && "country" in b && b["country"] == Schema.JStr(p.country) && p.country != ""
  {
    CreatedTextAt(b, c, d, 5);
    CreatedTextAt(b, c, d, 6);
    CreatedTextAt(b, c, d, 7);
  }

  /** One required text field of the create body, by its place in the schema. */
  lemma CreatedTextAt(b: Schema.Body, c: Schema.Checks, d: seq<Schema.Entry>, i: nat)
    requires Schema.ParseShape(Schema.CreatePropertyShape, b, c) == Some(d) && i < |Schema.CreatePropertyShape|
    requires Schema.CreatePropertyShape[i].kind == Schema.NonEmpty && Schema.CreatePropertyShape[i].presence == Schema.Required
    ensures var k := Schema.CreatePropertyShape[i].key;
      k in b && b[k] == Schema.JStr(Schema.TextOf(d, k)) && Schema.TextOf(d, k) != ""
  {
    CreateShapeDistinct();
    Schema.DistinctUnique(Schema.CreatePropertyShape, i);
    Schema.ParsedText(Schema.CreatePropertyShape, b, c, d, i);
  }

  /** The stored status and type are listed ones. */
  lemma CreatedKinds(b: Schema.Body, c: Schema.Checks, d: seq<Schema.Entry>, caller: Caller, id: string, now: int)
    requires Schema.ParseShape(Schema.CreatePropertyShape, b, c) == Some(d)
    ensures var p := NewProperty(d, caller, id, now);
      p.status in Schema.Statuses && p.property_type in Schema.PropertyTypes
  {
    Schema.CreatePropertyRules(b, c);
    CreatedPresent(b, c, 11);
    CreatedPresent(b, c, 12);
  }

  /** Notes, tags and coordinates missing from the body are stored as null. */
  lemma CreatedOptional(b: Schema.Body, c: Schema.Checks, d: seq<Schema.Entry>, caller: Caller, id: string, now: int)
    requires Schema.ParseShape(Schema.CreatePropertyShape, b, c) == Some(d)
    ensures var p := NewProperty(d, caller, id, now);
      && ("additional_notes" !in b ==> p.additional_notes == None)
      && ("tags" !in b ==> p.tags == None)
      && ("latitude" !in b ==> p.latitude == None)
      && ("longitude" !in b ==> p.longitude == None)
  {
    CreatedAbsent(b, c, 8);
    CreatedAbsent(b, c, 9);
    CreatedAbsent(b, c, 16);
    CreatedAbsent(b, c, 17);
  }

  /** Tags in the create body are stored item for item; tags given as null are stored as null. */
  lemma CreatedTags(b: Schema.Body, c: Schema.Checks, d: seq<Schema.Entry>, caller: Caller, id: string, now: int)
    requires Schema.ParseShape(Schema.CreatePropertyShape, b, c) == Some(d) && "tags" in b
    ensures var p := NewProperty(d, caller, id, now);
      && (b["tags"] == Schema.JNull ==> p.tags == None)
      && (b["tags"] != Schema.JNull ==>
            && b["tags"].JArr? && p.tags.Some? && |p.tags.value| == |b["tags"].items|
            && forall i :: 0 <= i < |p.tags.value| ==> b["tags"].items[i] == Schema.JStr(p.tags.value[i]))
  {
    var sh := Schema.CreatePropertyShape;
    CreateShapeDistinct();
    Schema.DistinctUnique(sh, 17);
    Schema.ParseShapeGet(sh, b, c, 17);
    assert sh[17].key == "tags";
    assert Schema.FieldOk(sh[17], b, c);
    assert Schema.Get(d, "tags") == Some(b["tags"]);
    var p := NewProperty(d, caller, id, now);
    if b["tags"] != Schema.JNull {
      assert Schema.Accepts(Schema.KStringArray, b["tags"], c);
      var items := b["tags"].items;
      assert p.tags == Some(Schema.StringsOf(items));
      forall i | 0 <= i < |items| ensures items[i] == Schema.JStr(p.tags.value[i]) {
        assert items[i].JStr?;
      }
    }
  }

  /** An optional field missing from the create body has no value in the parse. */
  lemma CreatedAbsent(b: Schema.Body, c: Schema.Checks, i: nat)
    requires Schema.ParseShape(Schema.CreatePropertyShape, b, c).Some? && i < |Schema.CreatePropertyShape|
    requires Schema.CreatePropertyShape[i].presence == Schema.Optional
    ensures Schema.CreatePropertyShape[i].key !in b ==>
      Schema.Get(Schema.ParseShape(Schema.CreatePropertyShape, b, c).value, Schema.CreatePropertyShape[i].key) == None
  {
    CreateShapeDistinct();
    Schema.DistinctUnique(Schema.CreatePropertyShape, i);
    Schema.ParseShapeGet(Schema.CreatePropertyShape, b, c, i);
  }

  /** A required field of the create body holds the body's value in the parse. */
  lemma CreatedPresent(b: Schema.Body, c: Schema.Checks, i: nat)
    requires Schema.ParseShape(Schema.CreatePropertyShape, b, c).Some? && i < |Schema.CreatePropertyShape|
    requires Schema.CreatePropertyShape[i].presence == Schema.Required
    ensures var k := Schema.CreatePropertyShape[i].key;
      k in b && Schema.Get(Schema.ParseShape(Schema.CreatePropertyShape, b, c).value, k) == Some(b[k])
  {
    CreateShapeDistinct();
    Schema.DistinctUnique(Schema.CreatePropertyShape, i);
    Schema.ParseShapeGet(Schema.CreatePropertyShape, b, c, i);
    assert Schema.FieldOk(Schema.CreatePropertyShape[i], b, c);
  }

  // ---------------------------------------------------------- partial update

  /** The bound value for one parsed key: tags as their JSON text when truthy, anything else as it is. */
  function UpdateParam(e: Schema.Entry): Cell {
    if e.key == "tags" && Schema.Truthy(e.value) then
      (if e.value.JArr? then CTags(Schema.StringsOf(e.value.items)) else COther(e.value))
    else CellOf(e.value)
  }

  /**
   * The SET items a for...in loop over the parsed keys produces: one per
   * key outside `skip`, in the order of the keys, bound to `param` of the entry.
   */
  function SetItems(d: seq<Schema.Entry>, skip: seq<string>, param: Schema.Entry -> Cell): seq<Assignment> {
    if |d| == 0 then []
    else (if d[0].key in skip then [] else [Assignment(d[0].key, param(d[0]))]) + SetItems(d[1..], skip, param)
  }

  /** The SET clause of PUT /properties/:property_id: the keys but id, then updated_at. */
  function UpdateSets(d: seq<Schema.Entry>, now: int): seq<Assignment> {
    SetItems(d, ["id"], UpdateParam) + [Assignment("updated_at", CTime(now))]
  }

  function Keys(d: seq<Schema.Entry>): (r: seq<string>)
    ensures |r| == |d| && forall i :: 0 <= i < |d| ==> r[i] == d[i].key
  {
    if |d| == 0 then [] else [d[0].key] + Keys(d[1..])
  }

  lemma {:induction false} SetItemsSnoc(d: seq<Schema.Entry>, skip: seq<string>, param: Schema.Entry -> Cell, i: nat)
    requires i < |d|
    ensures SetItems(d[..i + 1], skip, param)
         == SetItems(d[..i], skip, param) + (if d[i].key in skip then [] else [Assignment(d[i].key, param(d[i]))])
    decreases i
  {
    if i > 0 {
      assert d[..i + 1][1..] == d[1..][..i];
      assert d[..i][1..] == d[1..][..i - 1];
      SetItemsSnoc(d[1..], skip, param, i - 1);
    }
  }

  /** Every item names a parsed key outside skip, and carries that entry's value. */
  lemma {:induction false} SetItemsFromKeys(d: seq<Schema.Entry>, skip: seq<string>, param: Schema.Entry -> Cell)
    ensures forall a :: a in SetItems(d, skip, param) ==> a.col !in skip && a.col in Keys(d)
    ensures forall a :: a in SetItems(d, skip, param) ==>
      exists e :: e in d && e.key !in skip && a == Assignment(e.key, param(e))
  {
    if |d| > 0 {
      SetItemsFromKeys(d[1..], skip, param);
      assert Keys(d) == [d[0].key] + Keys(d[1..]);
      forall a | a in SetItems(d, skip, param)
        ensures exists e :: e in d && e.key !in skip && a == Assignment(e.key, param(e))
      {
        if a in SetItems(d[1..], skip, param) {
          var e :| e in d[1..] && e.key !in skip && a == Assignment(e.key, param(e));
          assert e in d;
        } else {
          assert d[0] in d && a == Assignment(d[0].key, param(d[0]));
        }
      }
    }
  }

  /** Every parsed key outside skip has its item, with its own value. */
  lemma {:induction false} SetItemsCover(d: seq<Schema.Entry>, skip: seq<string>, param: Schema.Entry -> Cell)
    ensures forall e :: e in d && e.key !in skip ==> Assignment(e.key, param(e)) in SetItems(d, skip, param)
  {
    if |d| > 0 {
      SetItemsCover(d[1..], skip, param);
      assert d == [d[0]] + d[1..];
    }
  }

  /** Distinct keys give distinct SET columns. */
  lemma {:induction false} SetItemsDistinct(d: seq<Schema.Entry>, skip: seq<string>, param: Schema.Entry -> Cell)
    requires Seqs.DistinctBy(d, Schema.EntryKey)
    ensures Seqs.DistinctBy(SetItems(d, skip, param), AssignmentCol)
  {
    if |d| > 0 {
      var rest := SetItems(d[1..], skip, param);
      assert Seqs.DistinctBy(d[1..], Schema.EntryKey);
      SetItemsDistinct(d[1..], skip, param);
      if d[0].key !in skip {
        SetItemsFromKeys(d[1..], skip, param);
        forall a | a in rest ensures a.col != d[0].key {
          var k :| 0 <= k < |d[1..]| && Keys(d[1..])[k] == a.col;
          assert d[k + 1].key == a.col;
        }
        var items := SetItems(d, skip, param);
        assert items == [Assignment(d[0].key, param(d[0]))] + rest;
        forall i, j | 0 <= i < j < |items| ensures AssignmentCol(items[i]) != AssignmentCol(items[j]) {
          assert items[j] == rest[j - 1] && items[j] in rest;
          if i > 0 {
            assert items[i] == rest[i - 1];
          }
        }
      }
    }
  }

  /** One `column = $n` item of the SET clause text. */
  datatype SetClause = SetClause(col: string, placeholder: nat)

  /**
   * The for...in loop shared by the three PUT routes: one clause and one
   * value per parsed key outside skip, with placeholders $1, $2, ... in order.
   */
  method BuildSetClauses(d: seq<Schema.Entry>, skip: seq<string>, param: Schema.Entry -> Cell)
    returns (clauses: seq<SetClause>, values: seq<Cell>)
    ensures |clauses| == |values| == |SetItems(d, skip, param)|
    ensures forall j :: 0 <= j < |clauses| ==>
      clauses[j] == SetClause(SetItems(d, skip, param)[j].col, j + 1) && values[j] == SetItems(d, skip, param)[j].value
  {
    clauses := [];
    values := [];
    var idx := 1;
    for i := 0 to |d|
      invariant idx == |clauses| + 1 == |values| + 1 && |clauses| == |SetItems(d[..i], skip, param)|
      invariant forall j :: 0 <= j < |clauses| ==>
        clauses[j] == SetClause(SetItems(d[..i], skip, param)[j].col, j + 1) && values[j] == SetItems(d[..i], skip, param)[j].value
    {
      SetItemsSnoc(d, skip, param, i);
      if d[i].key !in skip {
        clauses := clauses + [SetClause(d[i].key, idx)];
        values := values + [param(d[i])];
        idx := idx + 1;
      }
    }
    assert d[..|d|] == d;
  }

  lemma UpdateShapeDistinct()
    ensures Seqs.DistinctBy(Schema.UpdatePropertyShape, Schema.FieldKey)
  {
  }

  lemma UpdateShapeKeys()
    ensures forall j :: 0 <= j < |Schema.UpdatePropertyShape| ==> Schema.UpdatePropertyShape[j].key != "updated_at"
  {
  }

  /** A parsed update body has distinct keys, each taken from the body, and never updated_at. */
  lemma UpdateParsedKeys(b: Schema.Body, c: Schema.Checks, d: seq<Schema.Entry>)
    requires Schema.ParseShape(Schema.UpdatePropertyShape, b, c) == Some(d)
    ensures Seqs.DistinctBy(d, Schema.EntryKey)
    ensures forall e :: e in d ==> e.key != "updated_at"
  {
    UpdateShapeDistinct();
    Schema.ParseShapeDistinct(Schema.UpdatePropertyShape, b, c);
    Schema.ParseShapeKeys(Schema.UpdatePropertyShape, b, c);
    UpdateShapeKeys();
  }

  /** The SET clause of PUT names no column twice, and never id. */
  lemma UpdateSetsDistinct(d: seq<Schema.Entry>, now: int)
    requires Seqs.DistinctBy(d, Schema.EntryKey) && forall e :: e in d ==> e.key != "updated_at"
    ensures Seqs.DistinctBy(UpdateSets(d, now), AssignmentCol)
    ensures forall i :: 0 <= i < |UpdateSets(d, now)| ==> Cols(UpdateSets(d, now))[i] != "id"
  {
    var sets := UpdateSets(d, now);
    var items := SetItems(d, ["id"], UpdateParam);
    SetItemsDistinct(d, ["id"], UpdateParam);
    SetItemsFromKeys(d, ["id"], UpdateParam);
    forall i | 0 <= i < |items| ensures items[i].col != "updated_at" && items[i].col != "id" {
      assert items[i] in items;
      var k :| 0 <= k < |d| && Keys(d)[k] == items[i].col;
      assert d[k] in d;
    }
    forall i, j | 0 <= i < j < |sets| ensures AssignmentCol(sets[i]) != AssignmentCol(sets[j]) {
      assert sets[i] == items[i];
      if j < |items| {
        assert sets[j] == items[j];
      }
    }
    forall i | 0 <= i < |sets| ensures Cols(sets)[i] != "id" {
      if i < |items| {
        assert sets[i] == items[i];
      }
    }
  }

  /**
   * PUT writes exactly the parsed keys other than id, each with its value,
   * sets updated_at, never changes the id, and leaves every other column as it was.
   */
  lemma UpdateFrame(p: Property, d: seq<Schema.Entry>, now: int)
    requires Seqs.DistinctBy(d, Schema.EntryKey) && forall e :: e in d ==> e.key != "updated_at"
    requires SetProperty(p, UpdateSets(d, now)).Some?
    ensures var q := SetProperty(p, UpdateSets(d, now)).value;
      && q.updated_at == now && q.id == p.id
      && (forall e :: e in d && e.key != "id" ==>
            PropertyColumnNamed(e.key).Some? && ReadProperty(q, PropertyColumnNamed(e.key).value) == UpdateParam(e))
      && (forall col :: PropertyColumnName(col) != "updated_at" && PropertyColumnName(col) !in Keys(d) ==>
            ReadProperty(q, col) == ReadProperty(p, col))
  {
    var sets := UpdateSets(d, now);
    UpdateSetsDistinct(d, now);
    SetPropertyColumns(p, sets);
    var q := SetProperty(p, sets).value;
    UpdateFrameWritten(p, d, now, q);
    UpdateFrameKept(p, d, now, q);
  }

  lemma UpdateFrameWritten(p: Property, d: seq<Schema.Entry>, now: int, q: Property)
    requires forall i :: 0 <= i < |UpdateSets(d, now)| ==>
      PropertyColumnNamed(UpdateSets(d, now)[i].col).Some? &&
      ReadProperty(q, PropertyColumnNamed(UpdateSets(d, now)[i].col).value) == UpdateSets(d, now)[i].value
    ensures q.updated_at == now
    ensures forall e :: e in d && e.key != "id" ==>
      PropertyColumnNamed(e.key).Some? && ReadProperty(q, PropertyColumnNamed(e.key).value) == UpdateParam(e)
  {
    var sets := UpdateSets(d, now);
    var items := SetItems(d, ["id"], UpdateParam);
    SetItemsCover(d, ["id"], UpdateParam);
    assert sets[|items|] == Assignment("updated_at", CTime(now));
    forall e | e in d && e.key != "id"
      ensures PropertyColumnNamed(e.key).Some? && ReadProperty(q, PropertyColumnNamed(e.key).value) == UpdateParam(e)
    {
      var a := Assignment(e.key, UpdateParam(e));
      var i :| 0 <= i < |items| && items[i] == a;
      assert sets[i] == a;
    }
  }

  lemma UpdateFrameKept(p: Property, d: seq<Schema.Entry>, now: int, q: Property)
    requires forall col :: PropertyColumnName(col) !in Cols(UpdateSets(d, now)) ==>
      ReadProperty(q, col) == ReadProperty(p, col)
    ensures q.id == p.id
    ensures forall col :: PropertyColumnName(col) != "updated_at" && PropertyColumnName(col) !in Keys(d) ==>
      ReadProperty(q, col) == ReadProperty(p, col)
  {
    UpdateColsFrom(d, now);
    assert ReadProperty(q, PId) == ReadProperty(p, PId);
  }

  /** The SET clause of a PUT names updated_at and parsed keys other than id, nothing else. */
  lemma UpdateColsFrom(d: seq<Schema.Entry>, now: int)
    ensures forall c :: c in Cols(UpdateSets(d, now)) ==> c == "updated_at" || (c != "id" && c in Keys(d))
  {
    var sets := UpdateSets(d, now);
    var items := SetItems(d, ["id"], UpdateParam);
    SetItemsFromKeys(d, ["id"], UpdateParam);
    forall c | c in Cols(sets) ensures c == "updated_at" || (c != "id" && c in Keys(d)) {
      var i :| 0 <= i < |sets| && Cols(sets)[i] == c;
      if i < |items| {
        assert sets[i] == items[i] && items[i] in items;
      }
    }
  }

  /** The value bound to `$pos`, null when there is none. */
  function Param(values: seq<Cell>, pos: nat): Cell {
    if 1 <= pos <= |values| then values[pos - 1] else CNull
  }

  /** What the database assigns for a SET clause and its bound values. */
  function Bind(clauses: seq<SetClause>, values: seq<Cell>): (r: seq<Assignment>)
    ensures |r| == |clauses|
    ensures forall j :: 0 <= j < |clauses| ==> r[j] == Assignment(clauses[j].col, Param(values, clauses[j].placeholder))
  {
    if |clauses| == 0 then []
    else [Assignment(clauses[0].col, Param(values, clauses[0].placeholder))] + Bind(clauses[1..], values)
  }

  /** SET items laid out with consecutive placeholders bind to exactly those items. */
  lemma BindLayout(clauses: seq<SetClause>, values: seq<Cell>, sets: seq<Assignment>)
    requires |clauses| == |sets| <= |values|
    requires forall j :: 0 <= j < |sets| ==> clauses[j] == SetClause(sets[j].col, j + 1) && values[j] == sets[j].value
    ensures Bind(clauses, values) == sets
  {
  }

  /**
   * The SET clause and values of PUT /properties/:property_id: the loop's
   * items with placeholders from $1 on, then updated_at, and the property id
   * bound to the placeholder after all of them.
   */
  method BuildPropertyUpdate(d: seq<Schema.Entry>, now: int, pid: string)
    returns (clauses: seq<SetClause>, values: seq<Cell>, wherePos: nat)
    ensures |clauses| == |UpdateSets(d, now)| && wherePos == |clauses| + 1 == |values|
    ensures forall j :: 0 <= j < |clauses| ==>
      clauses[j] == SetClause(UpdateSets(d, now)[j].col, j + 1) && values[j] == UpdateSets(d, now)[j].value
    ensures Param(values, wherePos) == CText(pid)
  {
    clauses, values := BuildSetClauses(d, ["id"], UpdateParam);
    var idx := |clauses| + 1;
    clauses := clauses + [SetClause("updated_at", idx)];
    values := values + [CTime(now)];
    wherePos := idx + 1;
    values := values + [CText(pid)];
  }

  /** `WHERE id = $n` for the bound value. */
  function IdIs(v: Cell): Property -> bool {
    (p: Property) => CText(p.id) == v
  }

  function SetTo(sets: seq<Assignment>): Property -> Option<Property> {
    (p: Property) => SetProperty(p, sets)
  }

  /** A property table after `UPDATE ... WHERE id = pid` with the given SET items. */
  predicate Rewritten(rows: seq<Property>, rows2: seq<Property>, pid: string, sets: seq<Assignment>) {
    && |rows2| == |rows|
    && forall i :: 0 <= i < |rows| ==>
      if rows[i].id == pid then SetProperty(rows[i], sets) == Some(rows2[i]) else rows2[i] == rows[i]
  }

  /** PUT /properties/:property_id once the gate has passed and the body is parsed. */
  method ApplyPropertyUpdate(db: Db, pid: string, d: seq<Schema.Entry>, now: int)
    returns (db2: Db, r: Reply<Listing.WithMedia>)
    ensures r.Failed? || r.NotFound? || r.Ok?
    ensures r.NotFound? ==> r.message == PropertyNotFound
    ensures r.NotFound? <==> forall p :: p in db.properties ==> p.id != pid
    ensures r.Failed? <==> UpdateWhere(db.properties, IdIs(CText(pid)), SetTo(UpdateSets(d, now))).None?
    ensures !r.Ok? ==> db2 == db
    ensures r.Ok? ==> db2 == db.(properties := db2.properties) && Rewritten(db.properties, db2.properties, pid, UpdateSets(d, now))
    ensures r.Ok? ==> r.value.property in db2.properties && r.value.property.id == pid
    ensures r.Ok? ==>
      r.value.images == Listing.PropertyMedia(db2, pid).images && r.value.documents == Listing.PropertyMedia(db2, pid).documents
  {
    var clauses, values, wherePos := BuildPropertyUpdate(d, now, pid);
    var sets := UpdateSets(d, now);
    BindLayout(clauses, values, sets);
    var matched := Seqs.Filter(db.properties, IdIs(Param(values, wherePos)));
    var rows := UpdateWhere(db.properties, IdIs(Param(values, wherePos)), SetTo(Bind(clauses, values)));
    Seqs.FilterMembers(db.properties, IdIs(CText(pid)));
    if matched == [] {
      UpdateWhereNone(db.properties, IdIs(CText(pid)), SetTo(sets));
    }
    if rows.None? {
      assert matched[0] in matched;
      return db, Failed;
    }
    if |matched| == 0 {
      return db, NotFound(PropertyNotFound);
    }
    var updated := FirstUpdated(db.properties, IdIs(CText(pid)), SetTo(sets));
    db2 := db.(properties := rows.value);
    var first := matched[0];
    assert first in matched;
    var k :| 0 <= k < |db.properties| && db.properties[k] == first;
    assert db2.properties[k] == updated;
    UpdatedKeepsId(first, d, now, updated);
    var media := Listing.PropertyMedia(db2, pid);
    r := Ok(Listing.WithMedia(updated, media.images, media.documents));
  }

  /** The SET clause of PUT never writes the id column. */
  lemma UpdatedKeepsId(p: Property, d: seq<Schema.Entry>, now: int, q: Property)
    requires SetProperty(p, UpdateSets(d, now)) == Some(q)
    ensures q.id == p.id
  {
    var sets := UpdateSets(d, now);
    SetItemsFromKeys(d, ["id"], UpdateParam);
    var items := SetItems(d, ["id"], UpdateParam);
    forall i | 0 <= i < |sets| ensures Cols(sets)[i] != "id" {
      if i < |items| {
        assert sets[i] == items[i] && items[i] in items;
      }
    }
    SetKeepsUnnamed(p, sets, PId);
  }

  /** Text and enum columns take any text. */
  lemma TextColumnFits(p: Property, k: string, v: Cell)
    requires k in ["user_id", "title", "description", "street", "city", "state", "zip_code", "country"]
      || k in ["status", "property_type"]
    requires v.CText?
    ensures WriteProperty(p, k, v).Some?
  {
  }

  /** The coordinates take null or a number. */
  lemma CoordinateFits(p: Property, k: string, v: Cell)
    requires k in ["latitude", "longitude"] && (v.CNull? || v.CNum?)
    ensures WriteProperty(p, k, v).Some?
  {
  }

  /** The room and area columns take an integer. */
  lemma CountFits(p: Property, k: string, v: Cell)
    requires k in ["bedrooms", "bathrooms", "square_footage"] && IsIntCell(v)
    ensures WriteProperty(p, k, v).Some?
  {
  }

  /**
   * A value the update schema admits for a key other than id fits that
   * column of any row, so no item of the PUT's SET clause is refused.
   */
  lemma UpdateParamFits(p: Property, e: Schema.Entry, c: Schema.Checks)
    requires e.key != "id"
    requires exists i ::
      0 <= i < |Schema.UpdatePropertyShape| &&
      Schema.UpdatePropertyShape[i].key == e.key && Schema.Allows(Schema.UpdatePropertyShape[i], e.value, c)
    ensures WriteProperty(p, e.key, UpdateParam(e)).Some?
  {
    var sh := Schema.UpdatePropertyShape;
    var i :| 0 <= i < |sh| && sh[i].key == e.key && Schema.Allows(sh[i], e.value, c);
    if i <= 10 {
      IdentityFieldFits(p, e, c, i);
    } else {
      DetailFieldFits(p, e, c, i);
    }
  }

  /** The fields of the update schema from user_id to longitude. */
  lemma IdentityFieldFits(p: Property, e: Schema.Entry, c: Schema.Checks, i: nat)
    requires 0 < i <= 10 && Schema.UpdatePropertyShape[i].key == e.key
    requires Schema.Allows(Schema.UpdatePropertyShape[i], e.value, c)
    ensures WriteProperty(p, e.key, UpdateParam(e)).Some?
  {
    var sh := Schema.UpdatePropertyShape;
    if i <= 8 {
      assert e.value.JStr?;
      TextColumnFits(p, e.key, UpdateParam(e));
    } else {
      assert sh[i].kind == Schema.KNullable(Schema.KNumber);
      assert e.value == Schema.JNull || Schema.Accepts(Schema.KNumber, e.value, c);
      CoordinateFits(p, e.key, UpdateParam(e));
    }
  }

  /** The fields of the update schema from price to is_deleted. */
  lemma DetailFieldFits(p: Property, e: Schema.Entry, c: Schema.Checks, i: nat)
    requires 10 < i < |Schema.UpdatePropertyShape| && Schema.UpdatePropertyShape[i].key == e.key
    requires Schema.Allows(Schema.UpdatePropertyShape[i], e.value, c)
    ensures WriteProperty(p, e.key, UpdateParam(e)).Some?
  {
    var sh := Schema.UpdatePropertyShape;
    if i == 11 {
      assert e.key == "price" && e.value.JNum?;
    } else if i <= 13 {
      assert e.value.JStr?;
      TextColumnFits(p, e.key, UpdateParam(e));
    } else if i <= 16 {
      assert e.value.JNum? && Schema.IsInteger(e.value.n);
      CountFits(p, e.key, UpdateParam(e));
    } else if i == 17 {
      assert sh[i].kind == Schema.KNullable(Schema.AnyString);
      assert e.value == Schema.JNull || Schema.Accepts(Schema.AnyString, e.value, c);
      assert e.key == "additional_notes";
    } else if i == 18 {
      assert sh[i].kind == Schema.KNullable(Schema.KStringArray);
      assert e.value == Schema.JNull || Schema.Accepts(Schema.KStringArray, e.value, c);
      assert e.key == "tags";
    } else {
      assert e.key == "is_deleted" && e.value.JBool?;
    }
  }

  /** For a conforming body, the SET clause of PUT rewrites any row. */
  lemma UpdateSetsFit(p: Property, b: Schema.Body, c: Schema.Checks, d: seq<Schema.Entry>, now: int)
    requires Schema.ParseShape(Schema.UpdatePropertyShape, b, c) == Some(d)
    ensures SetProperty(p, UpdateSets(d, now)).Some?
  {
    var sets := UpdateSets(d, now);
    var items := SetItems(d, ["id"], UpdateParam);
    Schema.ParseShapeAllowed(Schema.UpdatePropertyShape, b, c);
    SetItemsFromKeys(d, ["id"], UpdateParam);
    forall q: Property, i | 0 <= i < |sets| ensures WriteProperty(q, sets[i].col, sets[i].value).Some? {
      if i < |items| {
        assert sets[i] == items[i] && items[i] in items;
        var e :| e in d && e.key !in ["id"] && items[i] == Assignment(e.key, UpdateParam(e));
        UpdateParamFits(q, e, c);
      }
    }
    SetPropertyTotal(p, sets);
  }

  /** A column that no SET item names keeps its value. */
  lemma {:induction false} SetKeepsUnnamed(p: Property, sets: seq<Assignment>, col: PropertyColumn)
    requires SetProperty(p, sets).Some? && PropertyColumnName(col) !in Cols(sets)
    ensures ReadProperty(SetProperty(p, sets).value, col) == ReadProperty(p, col)
    decreases |sets|
  {
    if |sets| > 0 {
      assert Cols(sets) == [sets[0].col] + Cols(sets[1..]);
      var q := WriteProperty(p, sets[0].col, sets[0].value).value;
      SetKeepsUnnamed(q, sets[1..], col);
    }
  }

  /** PUT /properties/:property_id: the gate, then validation, then the update. */
  method UpdateProperty(db: Db, caller: Caller, pid: string, body: Schema.Body, c: Schema.Checks, now: int)
    returns (db2: Db, r: Reply<Listing.WithMedia>)
    ensures OwnershipGate(db, caller, pid).GateNotFound? ==> r == NotFound(PropertyNotFound)
    ensures OwnershipGate(db, caller, pid).GateForbidden? ==> r == Forbidden
    ensures OwnershipGate(db, caller, pid).GatePass? ==>
      (r.Invalid? <==> !Schema.Conforms(Schema.UpdatePropertyShape, body, c))
    ensures !r.Ok? ==> db2 == db
    ensures r.Ok? <==> OwnershipGate(db, caller, pid).GatePass? && Schema.Conforms(Schema.UpdatePropertyShape, body, c)
    ensures r.Ok? ==> db2 == db.(properties := db2.properties)
    ensures r.Ok? ==> Rewritten(db.properties, db2.properties, pid,
      UpdateSets(Schema.ParseShape(Schema.UpdatePropertyShape, body, c).value, now))
    ensures r.Ok? ==> r.value.property in db2.properties && r.value.property.id == pid
    ensures r.Ok? ==>
      r.value.images == Listing.PropertyMedia(db2, pid).images && r.value.documents == Listing.PropertyMedia(db2, pid).documents
  {
    match OwnershipGate(db, caller, pid)
    case GateNotFound => return db, NotFound(PropertyNotFound);
    case GateForbidden => return db, Forbidden;
    case GatePass(_) =>
    var parsed := Schema.ParseShape(Schema.UpdatePropertyShape, body, c);
    if parsed.None? {
      return db, Invalid;
    }
    forall q: Property ensures SetTo(UpdateSets(parsed.value, now))(q).Some? {
      UpdateSetsFit(q, body, c, parsed.value, now);
    }
    UpdateWhereTotal(db.properties, IdIs(CText(pid)), SetTo(UpdateSets(parsed.value, now)));
    db2, r := ApplyPropertyUpdate(db, pid, parsed.value, now);
  }

  /** `RETURNING *` of an UPDATE: the new value of the first matching row. */
  function FirstUpdated<T>(rows: seq<T>, p: T -> bool, f: T -> Option<T>): (r: T)
    requires UpdateWhere(rows, p, f).Some? && Seqs.Filter(rows, p) != []
    ensures f(Seqs.Filter(rows, p)[0]) == Some(r)
  {
    var first := Seqs.Filter(rows, p)[0];
    FirstUpdatedSome(rows, p, f);
    f(first).value
  }

  lemma {:induction false} FirstUpdatedSome<T>(rows: seq<T>, p: T -> bool, f: T -> Option<T>)
    requires UpdateWhere(rows, p, f).Some? && Seqs.Filter(rows, p) != []
    ensures f(Seqs.Filter(rows, p)[0]).Some?
  {
    Seqs.FilterCons(rows[0], rows[1..], p);
    assert rows == [rows[0]] + rows[1..];
    if !p(rows[0]) {
      FirstUpdatedSome(rows[1..], p, f);
    }
  }

  lemma UpdateRowFrame(db: Db, db2: Db, body: Schema.Body, c: Schema.Checks, now: int, pid: string, i: nat)
    requires Schema.ParseShape(Schema.UpdatePropertyShape, body, c).Some?
    requires i < |db.properties| == |db2.properties| && db.properties[i].id == pid
    requires SetProperty(db.properties[i], UpdateSets(Schema.ParseShape(Schema.UpdatePropertyShape, body, c).value, now))
          == Some(db2.properties[i])
    ensures var d := Schema.ParseShape(Schema.UpdatePropertyShape, body, c).value;
      var p, q := db.properties[i], db2.properties[i];
      && q.updated_at == now && q.id == pid
      && (forall e :: e in d && e.key != "id" ==>
            PropertyColumnNamed(e.key).Some? && ReadProperty(q, PropertyColumnNamed(e.key).value) == UpdateParam(e))
      && (forall col :: PropertyColumnName(col) != "updated_at" && PropertyColumnName(col) !in Keys(d) ==>
            ReadProperty(q, col) == ReadProperty(p, col))
  {
    var d := Schema.ParseShape(Schema.UpdatePropertyShape, body, c).value;
    UpdateParsedKeys(body, c, d);
    UpdateFrame(db.properties[i], d, now);
  }

  // ------------------------------------------------------------- soft delete

  /** `UPDATE properties SET is_deleted = true, updated_at = $1 WHERE id = $2` */
  function SoftDeleteRows(rows: seq<Property>, pid: string, now: int): (r: seq<Property>)
    ensures |r| == |rows|
    ensures forall i :: 0 <= i < |rows| ==>
      r[i] == if rows[i].id == pid then rows[i].(is_deleted := true, updated_at := now) else rows[i]
  {
    if |rows| == 0 then []
    else [if rows[0].id == pid then rows[0].(is_deleted := true, updated_at := now) else rows[0]]
         + SoftDeleteRows(rows[1..], pid, now)
  }

  /** DELETE /properties/:property_id: a soft delete behind the ownership gate. */
  function DeleteProperty(db: Db, caller: Caller, pid: string, now: int): (r: (Db, Reply<string>))
    ensures OwnershipGate(db, caller, pid).GateNotFound? ==> r.1 == NotFound(PropertyNotFound)
    ensures OwnershipGate(db, caller, pid).GateForbidden? ==> r.1 == Forbidden
    ensures OwnershipGate(db, caller, pid).GatePass? ==> r.1 == Ok("Property deleted successfully")
    ensures !r.1.Ok? ==> r.0 == db
    ensures r.1.Ok? ==> r.0 == db.(properties := SoftDeleteRows(db.properties, pid, now))
  {
    match OwnershipGate(db, caller, pid)
    case GateNotFound => (db, NotFound(PropertyNotFound))
    case GateForbidden => (db, Forbidden)
    case GatePass(p) =>
      assert p in db.properties;
      (db.(properties := SoftDeleteRows(db.properties, pid, now)), Ok("Property deleted successfully"))
  }

  /** After the delete the property is gone for the gate, the detail fetch and the listing. */
  lemma DeleteHides(db: Db, caller: Caller, pid: string, now: int)
    requires DeleteProperty(db, caller, pid, now).1.Ok?
    ensures var db2 := DeleteProperty(db, caller, pid, now).0;
      && OwnershipGate(db2, caller, pid).GateNotFound?
      && Listing.PropertyDetail(db2, pid).DetailNotFound?
      && forall p :: p in db2.properties && p.id == pid ==> p.is_deleted
  {
    var db2 := DeleteProperty(db, caller, pid, now).0;
    forall p | p in db2.properties ensures !(p.id == pid && !p.is_deleted) {
      var i :| 0 <= i < |db2.properties| && db2.properties[i] == p;
    }
  }

  /** A soft delete keeps every row and every id, so ids stay unique. */
  lemma DeleteKeepsValid(db: Db, caller: Caller, pid: string, now: int)
    requires Valid(db)
    ensures Valid(DeleteProperty(db, caller, pid, now).0)
  {
    var db2 := DeleteProperty(db, caller, pid, now).0;
    forall i, j | 0 <= i < j < |db2.properties|
      ensures PropertyId(db2.properties[i]) != PropertyId(db2.properties[j])
    {
      assert PropertyId(db2.properties[i]) == PropertyId(db.properties[i]);
      assert PropertyId(db2.properties[j]) == PropertyId(db.properties[j]);
    }
  }

  // ------------------------------------------------------------------- media

  const ImageNotFound := "Image not found"
  const DocumentNotFound := "Document not found"

  /**
   * An UPDATE ... RETURNING * that reports 404 when no row matches: the
   * table with every matching row rewritten, and the new value of the first one.
   */
  function RunUpdate<T>(rows: seq<T>, p: T -> bool, f: T -> Option<T>, notFound: string): (r: (seq<T>, Reply<T>))
    ensures r.1.Failed? || r.1.NotFound? || r.1.Ok?
    ensures r.1.NotFound? ==> r.1.message == notFound && Seqs.Filter(rows, p) == []
    ensures !r.1.Ok? ==> r.0 == rows
    ensures r.1.Ok? ==> Seqs.Filter(rows, p) != [] && UpdateWhere(rows, p, f) == Some(r.0)
    ensures r.1.Ok? ==> f(Seqs.Filter(rows, p)[0]) == Some(r.1.value)
    ensures r.1.NotFound? <==> Seqs.Filter(rows, p) == []
    ensures r.1.Failed? <==> UpdateWhere(rows, p, f).None?
  {
    if Seqs.Filter(rows, p) == [] then
      UpdateWhereNone(rows, p, f);
      (rows, NotFound(notFound))
    else
      match UpdateWhere(rows, p, f)
      case None => (rows, Failed)
      case Some(rows2) => (rows2, Ok(FirstUpdated(rows, p, f)))
  }

  /** A DELETE ... WHERE that reports 404 when no row matches. */
  function RunDelete<T>(rows: seq<T>, p: T -> bool, notFound: string, done: string): (r: (seq<T>, Reply<string>))
    ensures r.1 == (if Seqs.Filter(rows, p) == [] then NotFound(notFound) else Ok(done))
    ensures r.1.NotFound? ==> r.0 == rows
    ensures forall x :: x in r.0 ==> x in rows && !p(x)
    ensures forall x :: x in rows && !p(x) ==> x in r.0
  {
    Seqs.FilterMembers(rows, (x: T) => !p(x));
    if Seqs.Filter(rows, p) == [] then
      Seqs.FilterMembers(rows, p);
      (rows, NotFound(notFound))
    else (DeleteWhere(rows, p), Ok(done))
  }

  /** The bound value of a media key: the validated value as it is. */
  function MediaParam(e: Schema.Entry): Cell {
    CellOf(e.value)
  }

  /** The media keys that the route's URL fixes. */
  const MediaKeys := ["id", "property_id"]

  /** The SET items of the media PUT routes as written: every parsed key, id and property_id included. */
  function MediaSetsAsWritten(d: seq<Schema.Entry>): seq<Assignment> {
    SetItems(d, [], MediaParam)
  }

  /** The SET items of the media PUT routes, leaving out the keys the URL fixes. */
  function MediaSets(d: seq<Schema.Entry>): seq<Assignment> {
    SetItems(d, MediaKeys, MediaParam)
  }

  /**
   * As written, a media PUT gives the row the id and property id of the
   * body: `{"id": m.id, "property_id": q}` moves the image to property q,
   * whoever owns q, and `{"id": x}` renames the image to x.
   */
  lemma MediaPutAsWrittenMoves(m: Image, q: string, x: string)
    ensures SetImage(m, MediaSetsAsWritten([Schema.Entry("id", Schema.JStr(m.id)), Schema.Entry("property_id", Schema.JStr(q))]))
         == Some(m.(property_id := q))
    ensures SetImage(m, MediaSetsAsWritten([Schema.Entry("id", Schema.JStr(x))])) == Some(m.(id := x))
  {
    var d := [Schema.Entry("id", Schema.JStr(m.id)), Schema.Entry("property_id", Schema.JStr(q))];
    assert d[1..][1..] == [];
    assert SetItems(d[1..], [], MediaParam) == [Assignment("property_id", CText(q))];
    var sets := MediaSetsAsWritten(d);
    assert sets == [Assignment("id", CText(m.id)), Assignment("property_id", CText(q))];
    assert WriteImage(m, "id", CText(m.id)) == Some(m);
    assert sets[1..] == [Assignment("property_id", CText(q))];
    assert SetImage(m, sets[1..]) == Some(m.(property_id := q)) by {
      assert sets[1..][1..] == [];
    }
    var e := [Schema.Entry("id", Schema.JStr(x))];
    assert e[1..] == [];
    var one := MediaSetsAsWritten(e);
    assert one == [Assignment("id", CText(x))];
    assert one[1..] == [];
  }

  /**
   * The SET items of the media PUT routes never name id or property_id, so
   * an image keeps its id and stays with its property.
   */
  lemma ImageSetKeepsPair(m: Image, d: seq<Schema.Entry>)
    requires SetImage(m, MediaSets(d)).Some?
    ensures SetImage(m, MediaSets(d)).value.id == m.id
    ensures SetImage(m, MediaSets(d)).value.property_id == m.property_id
  {
    var sets := MediaSets(d);
    SetItemsFromKeys(d, MediaKeys, MediaParam);
    forall i | 0 <= i < |sets| ensures Cols(sets)[i] != "id" && Cols(sets)[i] != "property_id" {
      assert sets[i] in sets;
    }
    SetImageKeepsUnnamed(m, sets, IId);
    SetImageKeepsUnnamed(m, sets, IPropertyId);
  }

  lemma DocumentSetKeepsPair(doc: Document, d: seq<Schema.Entry>)
    requires SetDocument(doc, MediaSets(d)).Some?
    ensures SetDocument(doc, MediaSets(d)).value.id == doc.id
    ensures SetDocument(doc, MediaSets(d)).value.property_id == doc.property_id
  {
    var sets := MediaSets(d);
    SetItemsFromKeys(d, MediaKeys, MediaParam);
    forall i | 0 <= i < |sets| ensures Cols(sets)[i] != "id" && Cols(sets)[i] != "property_id" {
      assert sets[i] in sets;
    }
    SetDocumentKeepsUnnamed(doc, sets, DId);
    SetDocumentKeepsUnnamed(doc, sets, DPropertyId);
  }

  lemma {:induction false} SetImageKeepsUnnamed(m: Image, sets: seq<Assignment>, col: ImageColumn)
    requires SetImage(m, sets).Some? && ImageColumnName(col) !in Cols(sets)
    ensures ReadImage(SetImage(m, sets).value, col) == ReadImage(m, col)
    decreases |sets|
  {
    if |sets| > 0 {
      assert Cols(sets) == [sets[0].col] + Cols(sets[1..]);
      var q := WriteImage(m, sets[0].col, sets[0].value).value;
      SetImageKeepsUnnamed(q, sets[1..], col);
    }
  }

  lemma {:induction false} SetDocumentKeepsUnnamed(doc: Document, sets: seq<Assignment>, col: DocumentColumn)
    requires SetDocument(doc, sets).Some? && DocumentColumnName(col) !in Cols(sets)
    ensures ReadDocument(SetDocument(doc, sets).value, col) == ReadDocument(doc, col)
    decreases |sets|
  {
    if |sets| > 0 {
      assert Cols(sets) == [sets[0].col] + Cols(sets[1..]);
      var q := WriteDocument(doc, sets[0].col, sets[0].value).value;
      SetDocumentKeepsUnnamed(q, sets[1..], col);
    }
  }

  /**
   * The SET clause and values of the media PUT routes: the loop's items for
   * the keys outside skip with placeholders from $1 on, then the media id and
   * the property id bound to the two placeholders after them. As written,
   * skip is empty; the corrected routes skip MediaKeys.
   */
  method BuildMediaUpdate(d: seq<Schema.Entry>, skip: seq<string>, mid: string, pid: string)
    returns (clauses: seq<SetClause>, values: seq<Cell>, idPos: nat)
    ensures |clauses| == |SetItems(d, skip, MediaParam)| && idPos == |clauses| + 1 && |values| == idPos + 1
    ensures forall j :: 0 <= j < |clauses| ==>
      clauses[j] == SetClause(SetItems(d, skip, MediaParam)[j].col, j + 1)
      && values[j] == SetItems(d, skip, MediaParam)[j].value
    ensures Param(values, idPos) == CText(mid) && Param(values, idPos + 1) == CText(pid)
  {
    clauses, values := BuildSetClauses(d, skip, MediaParam);
    idPos := |clauses| + 1;
    values := values + [CText(mid), CText(pid)];
  }

  /** `WHERE id = $n AND property_id = $n+1` on images. */
  function ImagePair(mid: Cell, pid: Cell): Image -> bool {
    (m: Image) => CText(m.id) == mid && CText(m.property_id) == pid
  }

  function DocumentPair(mid: Cell, pid: Cell): Document -> bool {
    (doc: Document) => CText(doc.id) == mid && CText(doc.property_id) == pid
  }

  function SetImageTo(sets: seq<Assignment>): Image -> Option<Image> {
    (m: Image) => SetImage(m, sets)
  }

  function SetDocumentTo(sets: seq<Assignment>): Document -> Option<Document> {
    (doc: Document) => SetDocument(doc, sets)
  }

  /**
   * PUT /properties/:property_id/images/:image_id as it evidently should be:
   * the SET clause leaves the id and the property id to the URL. A body
   * holding only those keys leaves nothing to set; the corrected route then
   * skips the UPDATE and answers with the matching row as it is.
   */
  method UpdateImage(db: Db, caller: Caller, pid: string, mid: string, body: Schema.Body, c: Schema.Checks)
    returns (db2: Db, r: Reply<Image>)
    ensures OwnershipGate(db, caller, pid).GateNotFound? ==> r == NotFound(PropertyNotFound)
    ensures OwnershipGate(db, caller, pid).GateForbidden? ==> r == Forbidden
    ensures OwnershipGate(db, caller, pid).GatePass? ==>
      (r.Invalid? <==> !Schema.Conforms(Schema.UpdateImageShape, body, c))
    ensures r == NotFound(ImageNotFound) ==> forall m :: m in db.images ==> !(m.id == mid && m.property_id == pid)
    ensures !r.Failed?
    ensures OwnershipGate(db, caller, pid).GatePass? && Schema.Conforms(Schema.UpdateImageShape, body, c) ==>
      (r == NotFound(ImageNotFound) <==> forall m :: m in db.images ==> !(m.id == mid && m.property_id == pid))
    ensures r.Ok? <==>
      && OwnershipGate(db, caller, pid).GatePass? && Schema.Conforms(Schema.UpdateImageShape, body, c)
      && exists m :: m in db.images && m.id == mid && m.property_id == pid
    ensures !r.Ok? ==> db2 == db
    ensures r.Ok? ==> Schema.Conforms(Schema.UpdateImageShape, body, c) && db2 == db.(images := db2.images)
    ensures r.Ok? ==> UpdateWhere(db.images, ImagePair(CText(mid), CText(pid)),
      SetImageTo(MediaSets(Schema.ParseShape(Schema.UpdateImageShape, body, c).value))) == Some(db2.images)
    ensures r.Ok? ==> r.value.id == mid && r.value.property_id == pid
  {
    match OwnershipGate(db, caller, pid)
    case GateNotFound => return db, NotFound(PropertyNotFound);
    case GateForbidden => return db, Forbidden;
    case GatePass(_) =>
    var parsed := Schema.ParseShape(Schema.UpdateImageShape, body, c);
    if parsed.None? {
      return db, Invalid;
    }
    var clauses, values, idPos := BuildMediaUpdate(parsed.value, MediaKeys, mid, pid);
    BindLayout(clauses, values, MediaSets(parsed.value));
    var pair := ImagePair(Param(values, idPos), Param(values, idPos + 1));
    forall m: Image ensures SetImageTo(MediaSets(parsed.value))(m).Some? {
      ImageItemsFit(m, body, c, parsed.value, MediaKeys);
    }
    UpdateWhereTotal(db.images, pair, SetImageTo(MediaSets(parsed.value)));
    var res := RunUpdate(db.images, pair, SetImageTo(Bind(clauses, values)), ImageNotFound);
    db2 := db.(images := res.0);
    r := res.1;
    Seqs.FilterMembers(db.images, pair);
    if r.Ok? {
      var first := Seqs.Filter(db.images, pair)[0];
      assert first in Seqs.Filter(db.images, pair);
      ImageSetKeepsPair(first, parsed.value);
    }
  }

  /**
   * PUT /properties/:property_id/documents/:document_id corrected in the same
   * way, and likewise skipping the UPDATE when nothing is left to set.
   */
  method UpdateDocument(db: Db, caller: Caller, pid: string, mid: string, body: Schema.Body, c: Schema.Checks)
    returns (db2: Db, r: Reply<Document>)
    ensures OwnershipGate(db, caller, pid).GateNotFound? ==> r == NotFound(PropertyNotFound)
    ensures OwnershipGate(db, caller, pid).GateForbidden? ==> r == Forbidden
    ensures OwnershipGate(db, caller, pid).GatePass? ==>
      (r.Invalid? <==> !Schema.Conforms(Schema.UpdateDocumentShape, body, c))
    ensures r == NotFound(DocumentNotFound) ==> forall x :: x in db.documents ==> !(x.id == mid && x.property_id == pid)
    ensures !r.Failed?
    ensures OwnershipGate(db, caller, pid).GatePass? && Schema.Conforms(Schema.UpdateDocumentShape, body, c) ==>
      (r == NotFound(DocumentNotFound) <==> forall x :: x in db.documents ==> !(x.id == mid && x.property_id == pid))
    ensures r.Ok? <==>
      && OwnershipGate(db, caller, pid).GatePass? && Schema.Conforms(Schema.UpdateDocumentShape, body, c)
      && exists x :: x in db.documents && x.id == mid && x.property_id == pid
    ensures !r.Ok? ==> db2 == db
    ensures r.Ok? ==> Schema.Conforms(Schema.UpdateDocumentShape, body, c) && db2 == db.(documents := db2.documents)
    ensures r.Ok? ==> UpdateWhere(db.documents, DocumentPair(CText(mid), CText(pid)),
      SetDocumentTo(MediaSets(Schema.ParseShape(Schema.UpdateDocumentShape, body, c).value))) == Some(db2.documents)
    ensures r.Ok? ==> r.value.id == mid && r.value.property_id == pid
  {
    match OwnershipGate(db, caller, pid)
    case GateNotFound => return db, NotFound(PropertyNotFound);
    case GateForbidden => return db, Forbidden;
    case GatePass(_) =>
    var parsed := Schema.ParseShape(Schema.UpdateDocumentShape, body, c);
    if parsed.None? {
      return db, Invalid;
    }
    var clauses, values, idPos := BuildMediaUpdate(parsed.value, MediaKeys, mid, pid);
    BindLayout(clauses, values, MediaSets(parsed.value));
    var pair := DocumentPair(Param(values, idPos), Param(values, idPos + 1));
    forall x: Document ensures SetDocumentTo(MediaSets(parsed.value))(x).Some? {
      DocumentItemsFit(x, body, c, parsed.value, MediaKeys);
    }
    UpdateWhereTotal(db.documents, pair, SetDocumentTo(MediaSets(parsed.value)));
    var res := RunUpdate(db.documents, pair, SetDocumentTo(Bind(clauses, values)), DocumentNotFound);
    db2 := db.(documents := res.0);
    r := res.1;
    Seqs.FilterMembers(db.documents, pair);
    if r.Ok? {
      var first := Seqs.Filter(db.documents, pair)[0];
      assert first in Seqs.Filter(db.documents, pair);
      DocumentSetKeepsPair(first, parsed.value);
    }
  }

  /**
   * As written, the media SET items carry the parsed id, and the parsed
   * property_id when there is one: the row takes both, and keeps its property
   * only when the parse names none.
   */
  lemma ImageSetWritesItems(m: Image, d: seq<Schema.Entry>)
    requires Seqs.DistinctBy(d, Schema.EntryKey) && Schema.Get(d, "id").Some?
    requires SetImage(m, MediaSetsAsWritten(d)).Some?
    ensures var n := SetImage(m, MediaSetsAsWritten(d)).value;
      && CText(n.id) == CellOf(Schema.Get(d, "id").value)
      && if Schema.Get(d, "property_id").Some? then CText(n.property_id) == CellOf(Schema.Get(d, "property_id").value)
         else n.property_id == m.property_id
  {
    var sets := MediaSetsAsWritten(d);
    MediaItemsWritten(d);
    SetImageColumns(m, sets);
    var n := SetImage(m, sets).value;
    var i :| 0 <= i < |sets| && sets[i] == Assignment("id", CellOf(Schema.Get(d, "id").value));
    assert ReadImage(n, IId) == CellOf(Schema.Get(d, "id").value);
    if Schema.Get(d, "property_id").Some? {
      var j :| 0 <= j < |sets| && sets[j] == Assignment("property_id", CellOf(Schema.Get(d, "property_id").value));
      assert ReadImage(n, IPropertyId) == CellOf(Schema.Get(d, "property_id").value);
    } else {
      assert ReadImage(n, IPropertyId) == ReadImage(m, IPropertyId);
    }
  }

  lemma DocumentSetWritesItems(doc: Document, d: seq<Schema.Entry>)
    requires Seqs.DistinctBy(d, Schema.EntryKey) && Schema.Get(d, "id").Some?
    requires SetDocument(doc, MediaSetsAsWritten(d)).Some?
    ensures var n := SetDocument(doc, MediaSetsAsWritten(d)).value;
      && CText(n.id) == CellOf(Schema.Get(d, "id").value)
      && if Schema.Get(d, "property_id").Some? then CText(n.property_id) == CellOf(Schema.Get(d, "property_id").value)
         else n.property_id == doc.property_id
  {
    var sets := MediaSetsAsWritten(d);
    MediaItemsWritten(d);
    SetDocumentColumns(doc, sets);
    var n := SetDocument(doc, sets).value;
    var i :| 0 <= i < |sets| && sets[i] == Assignment("id", CellOf(Schema.Get(d, "id").value));
    assert ReadDocument(n, DId) == CellOf(Schema.Get(d, "id").value);
    if Schema.Get(d, "property_id").Some? {
      var j :| 0 <= j < |sets| && sets[j] == Assignment("property_id", CellOf(Schema.Get(d, "property_id").value));
      assert ReadDocument(n, DPropertyId) == CellOf(Schema.Get(d, "property_id").value);
    } else {
      assert ReadDocument(n, DPropertyId) == ReadDocument(doc, DPropertyId);
    }
  }

  /**
   * The as-written media SET items of a parse with distinct keys name
   * distinct columns, include `id` and `property_id` with their parsed values
   * when the parse has them, and otherwise never name that column.
   */
  lemma MediaItemsWritten(d: seq<Schema.Entry>)
    requires Seqs.DistinctBy(d, Schema.EntryKey)
    ensures var sets := MediaSetsAsWritten(d);
      && Seqs.DistinctBy(sets, AssignmentCol)
      && (Schema.Get(d, "id").Some? ==> Assignment("id", CellOf(Schema.Get(d, "id").value)) in sets)
      && (Schema.Get(d, "property_id").Some? ==>
            Assignment("property_id", CellOf(Schema.Get(d, "property_id").value)) in sets)
      && (Schema.Get(d, "property_id").None? ==> "property_id" !in Cols(sets))
  {
    var sets := MediaSetsAsWritten(d);
    SetItemsDistinct(d, [], MediaParam);
    SetItemsCover(d, [], MediaParam);
    Schema.GetMembers(d, "id");
    Schema.GetMembers(d, "property_id");
    if Schema.Get(d, "id").Some? {
      assert MediaParam(Schema.Entry("id", Schema.Get(d, "id").value)) == CellOf(Schema.Get(d, "id").value);
    }
    if Schema.Get(d, "property_id").Some? {
      var v := Schema.Get(d, "property_id").value;
      assert MediaParam(Schema.Entry("property_id", v)) == CellOf(v);
    } else {
      SetItemsFromKeys(d, [], MediaParam);
      forall i | 0 <= i < |sets| ensures Cols(sets)[i] != "property_id" {
        assert sets[i] in sets;
        var k :| 0 <= k < |Keys(d)| && Keys(d)[k] == sets[i].col;
        assert d[k] in d;
      }
    }
  }

  /** A valid media update body parses to distinct keys, the body's id and the body's property_id if any. */
  lemma MediaParsed(shape: seq<Schema.FieldSpec>, b: Schema.Body, c: Schema.Checks, d: seq<Schema.Entry>)
    requires shape == Schema.UpdateImageShape || shape == Schema.UpdateDocumentShape
    requires Schema.ParseShape(shape, b, c) == Some(d)
    ensures Seqs.DistinctBy(d, Schema.EntryKey)
    ensures "id" in b && b["id"].JStr? && Schema.Get(d, "id") == Some(b["id"])
    ensures "property_id" in b ==> b["property_id"].JStr? && Schema.Get(d, "property_id") == Some(b["property_id"])
    ensures "property_id" !in b ==> Schema.Get(d, "property_id") == None
  {
    Schema.UpdateMediaShapesDistinct();
    Schema.ParseShapeDistinct(shape, b, c);
    Schema.UpdateMediaPair(shape, b, c);
  }

  /**
   * PUT /properties/:property_id/images/:image_id as written: the SET clause
   * holds every parsed key, so the matched image takes the body's id, and its
   * property_id when the body names one. A rename onto a taken id violates
   * the primary key and fails with 500.
   */
  method UpdateImageAsWritten(db: Db, caller: Caller, pid: string, mid: string, body: Schema.Body, c: Schema.Checks)
    returns (db2: Db, r: Reply<Image>)
    ensures OwnershipGate(db, caller, pid).GateNotFound? ==> r == NotFound(PropertyNotFound)
    ensures OwnershipGate(db, caller, pid).GateForbidden? ==> r == Forbidden
    ensures OwnershipGate(db, caller, pid).GatePass? ==>
      (r.Invalid? <==> !Schema.Conforms(Schema.UpdateImageShape, body, c))
    ensures r.Failed? || r.Ok? ==> OwnershipGate(db, caller, pid).GatePass? && Schema.Conforms(Schema.UpdateImageShape, body, c)
    ensures OwnershipGate(db, caller, pid).GatePass? && Schema.Conforms(Schema.UpdateImageShape, body, c) ==>
      UpdateWhere(db.images, ImagePair(CText(mid), CText(pid)),
        SetImageTo(MediaSetsAsWritten(Schema.ParseShape(Schema.UpdateImageShape, body, c).value))).Some?
    ensures OwnershipGate(db, caller, pid).GatePass? && Schema.Conforms(Schema.UpdateImageShape, body, c) ==>
      (r == NotFound(ImageNotFound) <==> forall m :: m in db.images ==> !(m.id == mid && m.property_id == pid))
    ensures OwnershipGate(db, caller, pid).GatePass? && Schema.Conforms(Schema.UpdateImageShape, body, c) ==>
      (r.Failed? <==>
        && (exists m :: m in db.images && m.id == mid && m.property_id == pid)
        && !Seqs.DistinctBy(UpdateWhere(db.images, ImagePair(CText(mid), CText(pid)),
        SetImageTo(MediaSetsAsWritten(Schema.ParseShape(Schema.UpdateImageShape, body, c).value))).value, ImageId))
    ensures !r.Ok? ==> db2 == db
    ensures r.Ok? ==> db2 == db.(images := db2.images)
    ensures r.Ok? ==> UpdateWhere(db.images, ImagePair(CText(mid), CText(pid)),
        SetImageTo(MediaSetsAsWritten(Schema.ParseShape(Schema.UpdateImageShape, body, c).value))) == Some(db2.images)
    ensures r.Ok? ==> Seqs.DistinctBy(db2.images, ImageId)
    ensures r.Ok? ==> "id" in body && body["id"] == Schema.JStr(r.value.id)
    ensures r.Ok? ==>
      if "property_id" in body then body["property_id"] == Schema.JStr(r.value.property_id) else r.value.property_id == pid
  {
    match OwnershipGate(db, caller, pid)
    case GateNotFound => return db, NotFound(PropertyNotFound);
    case GateForbidden => return db, Forbidden;
    case GatePass(_) =>
    var parsed := Schema.ParseShape(Schema.UpdateImageShape, body, c);
    if parsed.None? {
      return db, Invalid;
    }
    MediaParsed(Schema.UpdateImageShape, body, c, parsed.value);
    forall m: Image ensures SetImageTo(MediaSetsAsWritten(parsed.value))(m).Some? {
      ImageItemsFit(m, body, c, parsed.value, []);
    }
    UpdateWhereTotal(db.images, ImagePair(CText(mid), CText(pid)), SetImageTo(MediaSetsAsWritten(parsed.value)));
    db2, r := PutImageAsWritten(db, pid, mid, parsed.value);
  }

  /**
   * The UPDATE of the as-written image PUT on a parse: 404 when no image
   * has both ids, 500 when a SET item is refused or the rewritten rows share
   * an id, otherwise the first matching image as rewritten.
   */
  method PutImageAsWritten(db: Db, pid: string, mid: string, d: seq<Schema.Entry>)
    returns (db2: Db, r: Reply<Image>)
    requires Seqs.DistinctBy(d, Schema.EntryKey) && Schema.Get(d, "id").Some?
    ensures r == NotFound(ImageNotFound) || r.Failed? || r.Ok?
    ensures r.NotFound? <==> forall m :: m in db.images ==> !(m.id == mid && m.property_id == pid)
    ensures r.Failed? <==>
      || UpdateWhere(db.images, ImagePair(CText(mid), CText(pid)), SetImageTo(MediaSetsAsWritten(d))).None?
      || ((exists m :: m in db.images && m.id == mid && m.property_id == pid)
          && !Seqs.DistinctBy(UpdateWhere(db.images, ImagePair(CText(mid), CText(pid)), SetImageTo(MediaSetsAsWritten(d))).value, ImageId))
    ensures !r.Ok? ==> db2 == db
    ensures r.Ok? ==> db2 == db.(images := db2.images) && UpdateWhere(db.images, ImagePair(CText(mid), CText(pid)), SetImageTo(MediaSetsAsWritten(d))) == Some(db2.images)
    ensures r.Ok? ==> Seqs.DistinctBy(db2.images, ImageId)
    ensures r.Ok? ==> CText(r.value.id) == CellOf(Schema.Get(d, "id").value)
    ensures r.Ok? ==>
      if Schema.Get(d, "property_id").Some? then CText(r.value.property_id) == CellOf(Schema.Get(d, "property_id").value)
      else r.value.property_id == pid
  {
    var clauses, values, idPos := BuildMediaUpdate(d, [], mid, pid);
    BindLayout(clauses, values, MediaSetsAsWritten(d));
    var pair := ImagePair(Param(values, idPos), Param(values, idPos + 1));
    var res := RunUpdate(db.images, pair, SetImageTo(Bind(clauses, values)), ImageNotFound);
    Seqs.FilterMembers(db.images, pair);
    if Seqs.Filter(db.images, pair) != [] {
      assert Seqs.Filter(db.images, pair)[0] in Seqs.Filter(db.images, pair);
    }
    if res.1.Ok? {
      if !Seqs.DistinctBy(res.0, ImageId) {
        return db, Failed;
      }
      ImageSetWritesItems(Seqs.Filter(db.images, pair)[0], d);
    }
    db2 := db.(images := res.0);
    r := res.1;
  }

  /** PUT /properties/:property_id/documents/:document_id as written. */
  method UpdateDocumentAsWritten(db: Db, caller: Caller, pid: string, mid: string, body: Schema.Body, c: Schema.Checks)
    returns (db2: Db, r: Reply<Document>)
    ensures OwnershipGate(db, caller, pid).GateNotFound? ==> r == NotFound(PropertyNotFound)
    ensures OwnershipGate(db, caller, pid).GateForbidden? ==> r == Forbidden
    ensures OwnershipGate(db, caller, pid).GatePass? ==>
      (r.Invalid? <==> !Schema.Conforms(Schema.UpdateDocumentShape, body, c))
    ensures r.Failed? || r.Ok? ==> OwnershipGate(db, caller, pid).GatePass? && Schema.Conforms(Schema.UpdateDocumentShape, body, c)
    ensures OwnershipGate(db, caller, pid).GatePass? && Schema.Conforms(Schema.UpdateDocumentShape, body, c) ==>
      UpdateWhere(db.documents, DocumentPair(CText(mid), CText(pid)),
        SetDocumentTo(MediaSetsAsWritten(Schema.ParseShape(Schema.UpdateDocumentShape, body, c).value))).Some?
    ensures OwnershipGate(db, caller, pid).GatePass? && Schema.Conforms(Schema.UpdateDocumentShape, body, c) ==>
      (r == NotFound(DocumentNotFound) <==> forall x :: x in db.documents ==> !(x.id == mid && x.property_id == pid))
    ensures OwnershipGate(db, caller, pid).GatePass? && Schema.Conforms(Schema.UpdateDocumentShape, body, c) ==>
      (r.Failed? <==>
        && (exists x :: x in db.documents && x.id == mid && x.property_id == pid)
        && !Seqs.DistinctBy(UpdateWhere(db.documents, DocumentPair(CText(mid), CText(pid)),
        SetDocumentTo(MediaSetsAsWritten(Schema.ParseShape(Schema.UpdateDocumentShape, body, c).value))).value, DocumentId))
    ensures !r.Ok? ==> db2 == db
    ensures r.Ok? ==> db2 == db.(documents := db2.documents)
    ensures r.Ok? ==> UpdateWhere(db.documents, DocumentPair(CText(mid), CText(pid)),
        SetDocumentTo(MediaSetsAsWritten(Schema.ParseShape(Schema.UpdateDocumentShape, body, c).value))) == Some(db2.documents)
    ensures r.Ok? ==> Seqs.DistinctBy(db2.documents, DocumentId)
    ensures r.Ok? ==> "id" in body && body["id"] == Schema.JStr(r.value.id)
    ensures r.Ok? ==>
      if "property_id" in body then body["property_id"] == Schema.JStr(r.value.property_id) else r.value.property_id == pid
  {
    match OwnershipGate(db, caller, pid)
    case GateNotFound => return db, NotFound(PropertyNotFound);
    case GateForbidden => return db, Forbidden;
    case GatePass(_) =>
    var parsed := Schema.ParseShape(Schema.UpdateDocumentShape, body, c);
    if parsed.None? {
      return db, Invalid;
    }
    MediaParsed(Schema.UpdateDocumentShape, body, c, parsed.value);
    forall x: Document ensures SetDocumentTo(MediaSetsAsWritten(parsed.value))(x).Some? {
      DocumentItemsFit(x, body, c, parsed.value, []);
    }
    UpdateWhereTotal(db.documents, DocumentPair(CText(mid), CText(pid)), SetDocumentTo(MediaSetsAsWritten(parsed.value)));
    db2, r := PutDocumentAsWritten(db, pid, mid, parsed.value);
  }

  /**
   * The UPDATE of the as-written document PUT on a parse: 404 when no document
   * has both ids, 500 when a SET item is refused or the rewritten rows share
   * an id, otherwise the first matching document as rewritten.
   */
  method PutDocumentAsWritten(db: Db, pid: string, mid: string, d: seq<Schema.Entry>)
    returns (db2: Db, r: Reply<Document>)
    requires Seqs.DistinctBy(d, Schema.EntryKey) && Schema.Get(d, "id").Some?
    ensures r == NotFound(DocumentNotFound) || r.Failed? || r.Ok?
    ensures r.NotFound? <==> forall x :: x in db.documents ==> !(x.id == mid && x.property_id == pid)
    ensures r.Failed? <==>
      || UpdateWhere(db.documents, DocumentPair(CText(mid), CText(pid)), SetDocumentTo(MediaSetsAsWritten(d))).None?
      || ((exists x :: x in db.documents && x.id == mid && x.property_id == pid)
          && !Seqs.DistinctBy(UpdateWhere(db.documents, DocumentPair(CText(mid), CText(pid)), SetDocumentTo(MediaSetsAsWritten(d))).value, DocumentId))
    ensures !r.Ok? ==> db2 == db
    ensures r.Ok? ==> db2 == db.(documents := db2.documents) && UpdateWhere(db.documents, DocumentPair(CText(mid), CText(pid)), SetDocumentTo(MediaSetsAsWritten(d))) == Some(db2.documents)
    ensures r.Ok? ==> Seqs.DistinctBy(db2.documents, DocumentId)
    ensures r.Ok? ==> CText(r.value.id) == CellOf(Schema.Get(d, "id").value)
    ensures r.Ok? ==>
      if Schema.Get(d, "property_id").Some? then CText(r.value.property_id) == CellOf(Schema.Get(d, "property_id").value)
      else r.value.property_id == pid
  {
    var clauses, values, idPos := BuildMediaUpdate(d, [], mid, pid);
    BindLayout(clauses, values, MediaSetsAsWritten(d));
    var pair := DocumentPair(Param(values, idPos), Param(values, idPos + 1));
    var res := RunUpdate(db.documents, pair, SetDocumentTo(Bind(clauses, values)), DocumentNotFound);
    Seqs.FilterMembers(db.documents, pair);
    if Seqs.Filter(db.documents, pair) != [] {
      assert Seqs.Filter(db.documents, pair)[0] in Seqs.Filter(db.documents, pair);
    }
    if res.1.Ok? {
      if !Seqs.DistinctBy(res.0, DocumentId) {
        return db, Failed;
      }
      DocumentSetWritesItems(Seqs.Filter(db.documents, pair)[0], d);
    }
    db2 := db.(documents := res.0);
    r := res.1;
  }

  /**
   * As written, every image with both ids takes the parsed id, and the parsed
   * property_id when there is one; the other images are kept.
   */
  lemma ImageUpdateAsWrittenScoped(rows: seq<Image>, rows2: seq<Image>, mid: string, pid: string, d: seq<Schema.Entry>)
    requires Seqs.DistinctBy(d, Schema.EntryKey) && Schema.Get(d, "id").Some?
    requires UpdateWhere(rows, ImagePair(CText(mid), CText(pid)), SetImageTo(MediaSetsAsWritten(d))) == Some(rows2)
    ensures |rows2| == |rows|
    ensures forall i :: 0 <= i < |rows| && !(rows[i].id == mid && rows[i].property_id == pid) ==> rows2[i] == rows[i]
    ensures forall i :: 0 <= i < |rows| && rows[i].id == mid && rows[i].property_id == pid ==>
      && CText(rows2[i].id) == CellOf(Schema.Get(d, "id").value)
      && if Schema.Get(d, "property_id").Some? then CText(rows2[i].property_id) == CellOf(Schema.Get(d, "property_id").value)
         else rows2[i].property_id == pid
  {
    var f := SetImageTo(MediaSetsAsWritten(d));
    forall i | 0 <= i < |rows| && rows[i].id == mid && rows[i].property_id == pid
      ensures CText(rows2[i].id) == CellOf(Schema.Get(d, "id").value)
      ensures if Schema.Get(d, "property_id").Some? then CText(rows2[i].property_id) == CellOf(Schema.Get(d, "property_id").value)
              else rows2[i].property_id == pid
    {
      assert f(rows[i]) == Some(rows2[i]);
      ImageSetWritesItems(rows[i], d);
    }
  }

  lemma DocumentUpdateAsWrittenScoped(rows: seq<Document>, rows2: seq<Document>, mid: string, pid: string, d: seq<Schema.Entry>)
    requires Seqs.DistinctBy(d, Schema.EntryKey) && Schema.Get(d, "id").Some?
    requires UpdateWhere(rows, DocumentPair(CText(mid), CText(pid)), SetDocumentTo(MediaSetsAsWritten(d))) == Some(rows2)
    ensures |rows2| == |rows|
    ensures forall i :: 0 <= i < |rows| && !(rows[i].id == mid && rows[i].property_id == pid) ==> rows2[i] == rows[i]
    ensures forall i :: 0 <= i < |rows| && rows[i].id == mid && rows[i].property_id == pid ==>
      && CText(rows2[i].id) == CellOf(Schema.Get(d, "id").value)
      && if Schema.Get(d, "property_id").Some? then CText(rows2[i].property_id) == CellOf(Schema.Get(d, "property_id").value)
         else rows2[i].property_id == pid
  {
    var f := SetDocumentTo(MediaSetsAsWritten(d));
    forall i | 0 <= i < |rows| && rows[i].id == mid && rows[i].property_id == pid
      ensures CText(rows2[i].id) == CellOf(Schema.Get(d, "id").value)
      ensures if Schema.Get(d, "property_id").Some? then CText(rows2[i].property_id) == CellOf(Schema.Get(d, "property_id").value)
              else rows2[i].property_id == pid
    {
      assert f(rows[i]) == Some(rows2[i]);
      DocumentSetWritesItems(rows[i], d);
    }
  }

  /**
   * The input that shows the as-written media PUT is unsafe: the body
   * `{id: mid, property_id: q}` passes validation, and the image with both ids
   * of property pid ends up in property q, which the gate never checked.
   */
  lemma ImagePutAsWrittenLeaves(rows: seq<Image>, rows2: seq<Image>, mid: string, pid: string, q: string,
                                c: Schema.Checks, d: seq<Schema.Entry>, i: nat)
    requires q != pid && i < |rows| && rows[i].id == mid && rows[i].property_id == pid
    requires Schema.ParseShape(Schema.UpdateImageShape, map["id" := Schema.JStr(mid), "property_id" := Schema.JStr(q)], c) == Some(d)
    requires UpdateWhere(rows, ImagePair(CText(mid), CText(pid)), SetImageTo(MediaSetsAsWritten(d))) == Some(rows2)
    ensures rows2[i].id == mid && rows2[i].property_id == q && rows2[i].property_id != pid
  {
    MediaParsed(Schema.UpdateImageShape, map["id" := Schema.JStr(mid), "property_id" := Schema.JStr(q)], c, d);
    ImageUpdateAsWrittenScoped(rows, rows2, mid, pid, d);
  }

  /** The body `{id, property_id}` with string values passes the media update schemas whatever the checks. */
  lemma MediaPairBodyValid(mid: string, q: string, c: Schema.Checks)
    ensures Schema.Conforms(Schema.UpdateImageShape, map["id" := Schema.JStr(mid), "property_id" := Schema.JStr(q)], c)
    ensures Schema.Conforms(Schema.UpdateDocumentShape, map["id" := Schema.JStr(mid), "property_id" := Schema.JStr(q)], c)
  {
  }

  /** A value the image update schema admits for a key fits that column of any image. */
  lemma ImageParamFits(m: Image, e: Schema.Entry, c: Schema.Checks)
    requires exists i ::
      0 <= i < |Schema.UpdateImageShape| &&
      Schema.UpdateImageShape[i].key == e.key && Schema.Allows(Schema.UpdateImageShape[i], e.value, c)
    ensures WriteImage(m, e.key, MediaParam(e)).Some?
  {
    var sh := Schema.UpdateImageShape;
    var i :| 0 <= i < |sh| && sh[i].key == e.key && Schema.Allows(sh[i], e.value, c);
    if i == 3 {
      assert sh[i].kind == Schema.KNullable(Schema.AnyString);
      assert e.value == Schema.JNull || Schema.Accepts(Schema.AnyString, e.value, c);
    }
  }

  /** A value the document update schema admits for a key fits that column of any document. */
  lemma DocumentParamFits(doc: Document, e: Schema.Entry, c: Schema.Checks)
    requires exists i ::
      0 <= i < |Schema.UpdateDocumentShape| &&
      Schema.UpdateDocumentShape[i].key == e.key && Schema.Allows(Schema.UpdateDocumentShape[i], e.value, c)
    ensures WriteDocument(doc, e.key, MediaParam(e)).Some?
  {
    var sh := Schema.UpdateDocumentShape;
    var i :| 0 <= i < |sh| && sh[i].key == e.key && Schema.Allows(sh[i], e.value, c);
  }

  /** For a conforming body, the media SET items rewrite any image, whatever keys are skipped. */
  lemma ImageItemsFit(m: Image, b: Schema.Body, c: Schema.Checks, d: seq<Schema.Entry>, skip: seq<string>)
    requires Schema.ParseShape(Schema.UpdateImageShape, b, c) == Some(d)
    ensures SetImage(m, SetItems(d, skip, MediaParam)).Some?
  {
    var sets := SetItems(d, skip, MediaParam);
    Schema.ParseShapeAllowed(Schema.UpdateImageShape, b, c);
    SetItemsFromKeys(d, skip, MediaParam);
    forall n: Image, i | 0 <= i < |sets| ensures WriteImage(n, sets[i].col, sets[i].value).Some? {
      assert sets[i] in sets;
      var e :| e in d && e.key !in skip && sets[i] == Assignment(e.key, MediaParam(e));
      ImageParamFits(n, e, c);
    }
    SetImageTotal(m, sets);
  }

  /** For a conforming body, the media SET items rewrite any document, whatever keys are skipped. */
  lemma DocumentItemsFit(doc: Document, b: Schema.Body, c: Schema.Checks, d: seq<Schema.Entry>, skip: seq<string>)
    requires Schema.ParseShape(Schema.UpdateDocumentShape, b, c) == Some(d)
    ensures SetDocument(doc, SetItems(d, skip, MediaParam)).Some?
  {
    var sets := SetItems(d, skip, MediaParam);
    Schema.ParseShapeAllowed(Schema.UpdateDocumentShape, b, c);
    SetItemsFromKeys(d, skip, MediaParam);
    forall n: Document, i | 0 <= i < |sets| ensures WriteDocument(n, sets[i].col, sets[i].value).Some? {
      assert sets[i] in sets;
      var e :| e in d && e.key !in skip && sets[i] == Assignment(e.key, MediaParam(e));
      DocumentParamFits(n, e, c);
    }
    SetDocumentTotal(doc, sets);
  }

  /** An update touches only rows whose media id and property id both match, and keeps both ids. */
  lemma ImageUpdateScoped(rows: seq<Image>, rows2: seq<Image>, mid: string, pid: string, d: seq<Schema.Entry>)
    requires UpdateWhere(rows, ImagePair(CText(mid), CText(pid)), SetImageTo(MediaSets(d))) == Some(rows2)
    ensures |rows2| == |rows|
    ensures forall i :: 0 <= i < |rows| && !(rows[i].id == mid && rows[i].property_id == pid) ==> rows2[i] == rows[i]
    ensures forall i :: 0 <= i < |rows| ==> rows2[i].id == rows[i].id && rows2[i].property_id == rows[i].property_id
  {
    var p := ImagePair(CText(mid), CText(pid));
    var f := SetImageTo(MediaSets(d));
    forall i | 0 <= i < |rows|
      ensures rows2[i].id == rows[i].id && rows2[i].property_id == rows[i].property_id
      ensures !(rows[i].id == mid && rows[i].property_id == pid) ==> rows2[i] == rows[i]
    {
      if p(rows[i]) {
        assert f(rows[i]) == Some(rows2[i]);
        ImageSetKeepsPair(rows[i], d);
      } else {
        assert rows2[i] == rows[i];
      }
    }
  }

  lemma DocumentUpdateScoped(rows: seq<Document>, rows2: seq<Document>, mid: string, pid: string, d: seq<Schema.Entry>)
    requires UpdateWhere(rows, DocumentPair(CText(mid), CText(pid)), SetDocumentTo(MediaSets(d))) == Some(rows2)
    ensures |rows2| == |rows|
    ensures forall i :: 0 <= i < |rows| && !(rows[i].id == mid && rows[i].property_id == pid) ==> rows2[i] == rows[i]
    ensures forall i :: 0 <= i < |rows| ==> rows2[i].id == rows[i].id && rows2[i].property_id == rows[i].property_id
  {
    var p := DocumentPair(CText(mid), CText(pid));
    var f := SetDocumentTo(MediaSets(d));
    forall i | 0 <= i < |rows|
      ensures rows2[i].id == rows[i].id && rows2[i].property_id == rows[i].property_id
      ensures !(rows[i].id == mid && rows[i].property_id == pid) ==> rows2[i] == rows[i]
    {
      if p(rows[i]) {
        assert f(rows[i]) == Some(rows2[i]);
        DocumentSetKeepsPair(rows[i], d);
      } else {
        assert rows2[i] == rows[i];
      }
    }
  }

  /** DELETE /properties/:property_id/images/:image_id */
  function DeleteImage(db: Db, caller: Caller, pid: string, mid: string): (r: (Db, Reply<string>))
    ensures OwnershipGate(db, caller, pid).GateNotFound? ==> r.1 == NotFound(PropertyNotFound)
    ensures OwnershipGate(db, caller, pid).GateForbidden? ==> r.1 == Forbidden
    ensures !r.1.Ok? ==> r.0 == db
    ensures r.1.Ok? ==> r.0 == db.(images := r.0.images) && r.1.value == "Image deleted successfully"
    ensures r.1.Ok? ==> forall m :: m in r.0.images <==> m in db.images && !(m.id == mid && m.property_id == pid)
    ensures OwnershipGate(db, caller, pid).GatePass? ==>
      r.1 == if exists m :: m in db.images && m.id == mid && m.property_id == pid
             then Ok("Image deleted successfully") else NotFound(ImageNotFound)
  {
    match OwnershipGate(db, caller, pid)
    case GateNotFound => (db, NotFound(PropertyNotFound))
    case GateForbidden => (db, Forbidden)
    case GatePass(_) =>
      var pair := ImagePair(CText(mid), CText(pid));
      var res := RunDelete(db.images, pair, ImageNotFound, "Image deleted successfully");
      Seqs.FilterMembers(db.images, pair);
      assert Seqs.Filter(db.images, pair) != [] ==> Seqs.Filter(db.images, pair)[0] in Seqs.Filter(db.images, pair);
      (db.(images := res.0), res.1)
  }

  /** DELETE /properties/:property_id/documents/:document_id */
  function DeleteDocument(db: Db, caller: Caller, pid: string, mid: string): (r: (Db, Reply<string>))
    ensures OwnershipGate(db, caller, pid).GateNotFound? ==> r.1 == NotFound(PropertyNotFound)
    ensures OwnershipGate(db, caller, pid).GateForbidden? ==> r.1 == Forbidden
    ensures !r.1.Ok? ==> r.0 == db
    ensures r.1.Ok? ==> r.0 == db.(documents := r.0.documents) && r.1.value == "Document deleted successfully"
    ensures r.1.Ok? ==> forall x :: x in r.0.documents <==> x in db.documents && !(x.id == mid && x.property_id == pid)
    ensures OwnershipGate(db, caller, pid).GatePass? ==>
      r.1 == if exists x :: x in db.documents && x.id == mid && x.property_id == pid
             then Ok("Document deleted successfully") else NotFound(DocumentNotFound)
  {
    match OwnershipGate(db, caller, pid)
    case GateNotFound => (db, NotFound(PropertyNotFound))
    case GateForbidden => (db, Forbidden)
    case GatePass(_) =>
      var pair := DocumentPair(CText(mid), CText(pid));
      var res := RunDelete(db.documents, pair, DocumentNotFound, "Document deleted successfully");
      Seqs.FilterMembers(db.documents, pair);
      assert Seqs.Filter(db.documents, pair) != [] ==> Seqs.Filter(db.documents, pair)[0] in Seqs.Filter(db.documents, pair);
      (db.(documents := res.0), res.1)
  }

  /** A delete that finds no row with both ids answers 404 and removes nothing. */
  lemma DeleteImageMissing(db: Db, caller: Caller, pid: string, mid: string)
    requires OwnershipGate(db, caller, pid).GatePass?
    requires forall m :: m in db.images ==> !(m.id == mid && m.property_id == pid)
    ensures DeleteImage(db, caller, pid, mid) == (db, NotFound(ImageNotFound))
  {
  }

  /** The same for documents. */
  lemma DeleteDocumentMissing(db: Db, caller: Caller, pid: string, mid: string)
    requires OwnershipGate(db, caller, pid).GatePass?
    requires forall x :: x in db.documents ==> !(x.id == mid && x.property_id == pid)
    ensures DeleteDocument(db, caller, pid, mid) == (db, NotFound(DocumentNotFound))
  {
  }

  /** A delete that finds an image with both ids answers 200 and removes exactly the images with both ids. */
  lemma DeleteImageFound(db: Db, caller: Caller, pid: string, mid: string, m: Image)
    requires OwnershipGate(db, caller, pid).GatePass?
    requires m in db.images && m.id == mid && m.property_id == pid
    ensures DeleteImage(db, caller, pid, mid).1 == Ok("Image deleted successfully")
    ensures m !in DeleteImage(db, caller, pid, mid).0.images
    ensures DeleteImage(db, caller, pid, mid).0 == db.(images := DeleteImage(db, caller, pid, mid).0.images)
  {
  }

  /** The same for documents. */
  lemma DeleteDocumentFound(db: Db, caller: Caller, pid: string, mid: string, x: Document)
    requires OwnershipGate(db, caller, pid).GatePass?
    requires x in db.documents && x.id == mid && x.property_id == pid
    ensures DeleteDocument(db, caller, pid, mid).1 == Ok("Document deleted successfully")
    ensures x !in DeleteDocument(db, caller, pid, mid).0.documents
    ensures DeleteDocument(db, caller, pid, mid).0 == db.(documents := DeleteDocument(db, caller, pid, mid).0.documents)
  {
  }

  // ------------------------------------------------------------ media create

  predicate HasImageId(db: Db, id: string) {
    exists m :: m in db.images && m.id == id
  }

  predicate HasDocumentId(db: Db, id: string) {
    exists x :: x in db.documents && x.id == id
  }

  /** The row the INSERT of POST .../images stores: the URL's property, `alt_text || null`, `display_order || 0`. */
  function NewImage(d: seq<Schema.Entry>, pid: string, id: string, now: int): (m: Image)
    ensures m.id == id && m.property_id == pid && m.created_at == now
  {
    Image(id, pid, Schema.TextOf(d, "image_url"), TruthyText(Schema.NullableTextOf(d, "alt_text")),
          Schema.NumberOf(d, "display_order").Floor, now)
  }

  /** POST /properties/:property_id/images: the gate, then validation, then the insert. */
  function AddImage(db: Db, caller: Caller, pid: string, body: Schema.Body, c: Schema.Checks, id: string, now: int)
    : (r: (Db, Reply<Image>))
    ensures OwnershipGate(db, caller, pid).GateNotFound? ==> r.1 == NotFound(PropertyNotFound)
    ensures OwnershipGate(db, caller, pid).GateForbidden? ==> r.1 == Forbidden
    ensures OwnershipGate(db, caller, pid).GatePass? ==>
      (r.1.Invalid? <==> !Schema.Conforms(Schema.CreateImageShape, body, c))
    ensures r.1.Failed? ==> HasImageId(db, id)
    ensures r.1.Failed? <==>
      OwnershipGate(db, caller, pid).GatePass? && Schema.Conforms(Schema.CreateImageShape, body, c) && HasImageId(db, id)
    ensures !r.1.Ok? ==> r.0 == db
    ensures r.1.Ok? ==> r.0 == db.(images := db.images + [r.1.value])
    ensures r.1.Ok? ==> r.1.value.id == id && r.1.value.property_id == pid && r.1.value.created_at == now
    ensures r.1.Ok? ==> OwnershipGate(db, caller, pid).GatePass?
  {
    match OwnershipGate(db, caller, pid)
    case GateNotFound => (db, NotFound(PropertyNotFound))
    case GateForbidden => (db, Forbidden)
    case GatePass(_) =>
      match Schema.ParseShape(Schema.CreateImageShape, body, c)
      case None => (db, Invalid)
      case Some(d) =>
        if HasImageId(db, id) then (db, Failed)
        else
          var m := NewImage(d, pid, id, now);
          (db.(images := db.images + [m]), Ok(m))
  }

  /** The new image is among the property's media from then on. */
  lemma AddedImageShown(db: Db, caller: Caller, pid: string, body: Schema.Body, c: Schema.Checks, id: string, now: int)
    requires AddImage(db, caller, pid, body, c, id, now).1.Ok?
    ensures var r := AddImage(db, caller, pid, body, c, id, now);
      r.1.value in Listing.PropertyMedia(r.0, pid).images
  {
    var r := AddImage(db, caller, pid, body, c, id, now);
    Listing.PropertyMediaMembers(r.0, pid);
    assert r.1.value in r.0.images;
  }

  /** Without alt_text or display_order in the body the image gets null and 0; its URL is the body's. */
  lemma NewImageDefaults(b: Schema.Body, c: Schema.Checks, d: seq<Schema.Entry>, pid: string, id: string, now: int)
    requires Schema.ParseShape(Schema.CreateImageShape, b, c) == Some(d)
    ensures var m := NewImage(d, pid, id, now);
      && "image_url" in b && b["image_url"] == Schema.JStr(m.image_url) && c.isUrl(m.image_url)
      && ("alt_text" !in b ==> m.alt_text == None)
      && ("display_order" !in b ==> m.display_order == 0)
  {
    var sh := Schema.CreateImageShape;
    Schema.CreateImageRules(b, c, d);
    Schema.ImageShapeDistinct();
    Schema.DistinctUnique(sh, 1);
    Schema.DistinctUnique(sh, 2);
    Schema.ParseShapeGet(sh, b, c, 1);
    Schema.ParseShapeGet(sh, b, c, 2);
  }

  /** The row the INSERT of POST .../documents stores, for the URL's property. */
  function NewDocument(d: seq<Schema.Entry>, pid: string, id: string, now: int): (x: Document)
    ensures x.id == id && x.property_id == pid && x.created_at == now
  {
    Document(id, pid, Schema.TextOf(d, "document_url"), Schema.TextOf(d, "document_name"),
             Schema.TextOf(d, "document_type"), now)
  }

  /** POST /properties/:property_id/documents: the gate, then validation, then the insert. */
  function AddDocument(db: Db, caller: Caller, pid: string, body: Schema.Body, c: Schema.Checks, id: string, now: int)
    : (r: (Db, Reply<Document>))
    ensures OwnershipGate(db, caller, pid).GateNotFound? ==> r.1 == NotFound(PropertyNotFound)
    ensures OwnershipGate(db, caller, pid).GateForbidden? ==> r.1 == Forbidden
    ensures OwnershipGate(db, caller, pid).GatePass? ==>
      (r.1.Invalid? <==> !Schema.Conforms(Schema.CreateDocumentShape, body, c))
    ensures r.1.Failed? ==> HasDocumentId(db, id)
    ensures r.1.Failed? <==>
      OwnershipGate(db, caller, pid).GatePass? && Schema.Conforms(Schema.CreateDocumentShape, body, c) && HasDocumentId(db, id)
    ensures !r.1.Ok? ==> r.0 == db
    ensures r.1.Ok? ==> r.0 == db.(documents := db.documents + [r.1.value])
    ensures r.1.Ok? ==> r.1.value.id == id && r.1.value.property_id == pid && r.1.value.created_at == now
    ensures r.1.Ok? ==> OwnershipGate(db, caller, pid).GatePass?
  {
    match OwnershipGate(db, caller, pid)
    case GateNotFound => (db, NotFound(PropertyNotFound))
    case GateForbidden => (db, Forbidden)
    case GatePass(_) =>
      match Schema.ParseShape(Schema.CreateDocumentShape, body, c)
      case None => (db, Invalid)
      case Some(d) =>
        if HasDocumentId(db, id) then (db, Failed)
        else
          var x := NewDocument(d, pid, id, now);
          (db.(documents := db.documents + [x]), Ok(x))
  }

  /** A stored document has the body's non-empty name and type. */
  lemma NewDocumentText(b: Schema.Body, c: Schema.Checks, d: seq<Schema.Entry>, pid: string, id: string, now: int)
    requires Schema.ParseShape(Schema.CreateDocumentShape, b, c) == Some(d)
    ensures var x := NewDocument(d, pid, id, now);
      && "document_name" in b && b["document_name"] == Schema.JStr(x.document_name) && x.document_name != ""
      && "document_type" in b && b["document_type"] == Schema.JStr(x.document_type) && x.document_type != ""
  {
    var sh := Schema.CreateDocumentShape;
    assert Seqs.DistinctBy(sh, Schema.FieldKey);
    Schema.DistinctUnique(sh, 2);
    Schema.DistinctUnique(sh, 3);
    Schema.ParsedText(sh, b, c, d, 2);
    Schema.ParsedText(sh, b, c, d, 3);
  }
}
