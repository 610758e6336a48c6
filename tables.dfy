/**
 * The four database tables as rows in storage order, the typed value of one
 * cell, and reading and writing a column of a row.
 */
module Tables {
  import opened Wrappers
  import Seqs
  import Schema

  /** A cell value as the driver sends it to or reads it from the database. */
  datatype Cell =
    | CNull
    | CText(s: string)
    | CNum(n: real)
    | CBool(b: bool)
    | CTags(tags: seq<string>)     // the JSON text of a string array
    | CTime(t: int)                // a timestamp, in milliseconds
    | COther(j: Schema.Json)       // anything no column accepts

  datatype Property = Property(
    id: string, user_id: string,
    title: string, description: string, street: string, city: string,
    state: string, zip_code: string, country: string,
    latitude: Option<real>, longitude: Option<real>, price: real,
    status: string, property_type: string,
    bedrooms: int, bathrooms: int, square_footage: int,
    additional_notes: Option<string>, tags: Option<seq<string>>,
    is_deleted: bool, created_at: int, updated_at: int)

  datatype Image = Image(
    id: string, property_id: string, image_url: string,
    alt_text: Option<string>, display_order: int, created_at: int)

  datatype Document = Document(
    id: string, property_id: string, document_url: string,
    document_name: string, document_type: string, created_at: int)

  datatype User = User(
    id: string, name: string, email: string, password_hash: string, role: string,
    reset_token: Option<string>, reset_expires_at: Option<int>,
    created_at: int, updated_at: int)

  datatype Db = Db(users: seq<User>, properties: seq<Property>, images: seq<Image>, documents: seq<Document>)

  function PropertyId(p: Property): string { p.id }
  function ImageId(m: Image): string { m.id }
  function DocumentId(d: Document): string { d.id }
  function ImageOwner(m: Image): string { m.property_id }
  function DocumentOwner(d: Document): string { d.property_id }
  function UserId(u: User): string { u.id }

  /** Primary keys are unique in every table. */
  predicate Valid(db: Db) {
    && Seqs.DistinctBy(db.users, UserId)
    && Seqs.DistinctBy(db.properties, PropertyId)
    && Seqs.DistinctBy(db.images, ImageId)
    && Seqs.DistinctBy(db.documents, DocumentId)
  }

  // ------------------------------------------------------------ cell coding

  function NullableText(o: Option<string>): Cell { if o.Some? then CText(o.value) else CNull }
  function NullableNum(o: Option<real>): Cell { if o.Some? then CNum(o.value) else CNull }
  function IntCell(i: int): Cell { CNum(i as real) }
  predicate IsIntCell(v: Cell) { v.CNum? && Schema.IsInteger(v.n) }

  /** The cell a validated JSON value becomes when it is passed as a parameter. */
  function CellOf(j: Schema.Json): Cell {
    match j
    case JNull => CNull
    case JBool(b) => CBool(b)
    case JNum(n) => CNum(n)
    case JStr(s) => CText(s)
    case _ => COther(j)
  }

  // --------------------------------------------------------- property columns

  datatype PropertyColumn =
    | PId | PUserId | PTitle | PDescription | PStreet | PCity | PState | PZipCode | PCountry
    | PLatitude | PLongitude | PPrice | PStatus | PPropertyType | PBedrooms | PBathrooms
    | PSquareFootage | PAdditionalNotes | PTags | PIsDeleted | PCreatedAt | PUpdatedAt

  function PropertyColumnName(c: PropertyColumn): string {
    match c
    case PId => "id"
    case PUserId => "user_id"
    case PTitle => "title"
    case PDescription => "description"
    case PStreet => "street"
    case PCity => "city"
    case PState => "state"
    case PZipCode => "zip_code"
    case PCountry => "country"
    case PLatitude => "latitude"
    case PLongitude => "longitude"
    case PPrice => "price"
    case PStatus => "status"
    case PPropertyType => "property_type"
    case PBedrooms => "bedrooms"
    case PBathrooms => "bathrooms"
    case PSquareFootage => "square_footage"
    case PAdditionalNotes => "additional_notes"
    case PTags => "tags"
    case PIsDeleted => "is_deleted"
    case PCreatedAt => "created_at"
    case PUpdatedAt => "updated_at"
  }

  /** The column a name in an SQL statement refers to, if the table has one. */
  function PropertyColumnNamed(name: string): (r: Option<PropertyColumn>)
    ensures r.Some? ==> PropertyColumnName(r.value) == name
  {
    match name
    case "id" => Some(PId)
    case "user_id" => Some(PUserId)
    case "title" => Some(PTitle)
    case "description" => Some(PDescription)
    case "street" => Some(PStreet)
    case "city" => Some(PCity)
    case "state" => Some(PState)
    case "zip_code" => Some(PZipCode)
    case "country" => Some(PCountry)
    case "latitude" => Some(PLatitude)
    case "longitude" => Some(PLongitude)
    case "price" => Some(PPrice)
    case "status" => Some(PStatus)
    case "property_type" => Some(PPropertyType)
    case "bedrooms" => Some(PBedrooms)
    case "bathrooms" => Some(PBathrooms)
    case "square_footage" => Some(PSquareFootage)
    case "additional_notes" => Some(PAdditionalNotes)
    case "tags" => Some(PTags)
    case "is_deleted" => Some(PIsDeleted)
    case "created_at" => Some(PCreatedAt)
    case "updated_at" => Some(PUpdatedAt)
    case _ => None
  }

  /** The value of a column of a property row. */
  function ReadProperty(p: Property, col: PropertyColumn): Cell {
    match col
    case PId => CText(p.id)
    case PUserId => CText(p.user_id)
    case PTitle => CText(p.title)
    case PDescription => CText(p.description)
    case PStreet => CText(p.street)
    case PCity => CText(p.city)
    case PState => CText(p.state)
    case PZipCode => CText(p.zip_code)
    case PCountry => CText(p.country)
    case PLatitude => NullableNum(p.latitude)
    case PLongitude => NullableNum(p.longitude)
    case PPrice => CNum(p.price)
    case PStatus => CText(p.status)
    case PPropertyType => CText(p.property_type)
    case PBedrooms => IntCell(p.bedrooms)
    case PBathrooms => IntCell(p.bathrooms)
    case PSquareFootage => IntCell(p.square_footage)
    case PAdditionalNotes => NullableText(p.additional_notes)
    case PTags => if p.tags.Some? then CTags(p.tags.value) else CNull
    case PIsDeleted => CBool(p.is_deleted)
    case PCreatedAt => CTime(p.created_at)
    case PUpdatedAt => CTime(p.updated_at)
  }

  predicate IsIdentityColumn(col: PropertyColumn) {
    col.PId? || col.PUserId? || col.PTitle? || col.PDescription? || col.PStreet? || col.PCity?
    || col.PState? || col.PZipCode? || col.PCountry? || col.PLatitude? || col.PLongitude?
  }

  function WriteIdentity(p: Property, col: PropertyColumn, v: Cell): (r: Option<Property>)
    requires IsIdentityColumn(col)
    ensures r.Some? ==> ReadProperty(r.value, col) == v
    ensures r.Some? ==> forall c :: c != col ==> ReadProperty(r.value, c) == ReadProperty(p, c)
  {
    match col
    case PId => if v.CText? then Some(p.(id := v.s)) else None
    case PUserId => if v.CText? then Some(p.(user_id := v.s)) else None
    case PTitle => if v.CText? then Some(p.(title := v.s)) else None
    case PDescription => if v.CText? then Some(p.(description := v.s)) else None
    case PStreet => if v.CText? then Some(p.(street := v.s)) else None
    case PCity => if v.CText? then Some(p.(city := v.s)) else None
    case PState => if v.CText? then Some(p.(state := v.s)) else None
    case PZipCode => if v.CText? then Some(p.(zip_code := v.s)) else None
    case PCountry => if v.CText? then Some(p.(country := v.s)) else None
    case PLatitude =>
      if v.CNull? then Some(p.(latitude := None)) else if v.CNum? then Some(p.(latitude := Some(v.n))) else None
    case PLongitude =>
      if v.CNull? then Some(p.(longitude := None)) else if v.CNum? then Some(p.(longitude := Some(v.n))) else None
  }

  function WriteDetail(p: Property, col: PropertyColumn, v: Cell): (r: Option<Property>)
    requires !IsIdentityColumn(col)
    ensures r.Some? ==> ReadProperty(r.value, col) == v
    ensures r.Some? ==> forall c :: c != col ==> ReadProperty(r.value, c) == ReadProperty(p, c)
  {
    match col
    case PPrice => if v.CNum? then Some(p.(price := v.n)) else None
    case PStatus => if v.CText? then Some(p.(status := v.s)) else None
    case PPropertyType => if v.CText? then Some(p.(property_type := v.s)) else None
    case PBedrooms => if IsIntCell(v) then Some(p.(bedrooms := v.n.Floor)) else None
    case PBathrooms => if IsIntCell(v) then Some(p.(bathrooms := v.n.Floor)) else None
    case PSquareFootage => if IsIntCell(v) then Some(p.(square_footage := v.n.Floor)) else None
    case PAdditionalNotes =>
      if v.CNull? then Some(p.(additional_notes := None))
      else if v.CText? then Some(p.(additional_notes := Some(v.s))) else None
    case PTags =>
      if v.CNull? then Some(p.(tags := None)) else if v.CTags? then Some(p.(tags := Some(v.tags))) else None
    case PIsDeleted => if v.CBool? then Some(p.(is_deleted := v.b)) else None
    case PCreatedAt => if v.CTime? then Some(p.(created_at := v.t)) else None
    case PUpdatedAt => if v.CTime? then Some(p.(updated_at := v.t)) else None
  }

  /**
   * `name = value` in an UPDATE of the properties table: the named column
   * takes the value and no other column changes; None when there is no such
   * column or it does not accept the value (the database reports an error).
   */
  function WriteProperty(p: Property, name: string, v: Cell): (r: Option<Property>)
    ensures r.Some? ==> PropertyColumnNamed(name).Some?
    ensures r.Some? ==> ReadProperty(r.value, PropertyColumnNamed(name).value) == v
    ensures r.Some? ==> forall c :: PropertyColumnName(c) != name ==> ReadProperty(r.value, c) == ReadProperty(p, c)
  {
    match PropertyColumnNamed(name)
    case None => None
    case Some(col) => if IsIdentityColumn(col) then WriteIdentity(p, col, v) else WriteDetail(p, col, v)
  }

  /** A property row is determined by its columns. */
  lemma PropertyColumnsDetermine(p: Property, q: Property)
    requires forall c :: ReadProperty(p, c) == ReadProperty(q, c)
    ensures p == q
  {
    IdentityColumnsDetermine(p, q);
    DetailColumnsDetermine(p, q);
  }

  lemma IdentityColumnsDetermine(p: Property, q: Property)
    requires forall c :: ReadProperty(p, c) == ReadProperty(q, c)
    ensures p.id == q.id && p.user_id == q.user_id && p.title == q.title && p.description == q.description
    ensures p.street == q.street && p.city == q.city && p.state == q.state && p.zip_code == q.zip_code
    ensures p.country == q.country && p.latitude == q.latitude && p.longitude == q.longitude
  {
    assert ReadProperty(p, PId) == ReadProperty(q, PId);
    assert ReadProperty(p, PUserId) == ReadProperty(q, PUserId);
    assert ReadProperty(p, PTitle) == ReadProperty(q, PTitle);
    assert ReadProperty(p, PDescription) == ReadProperty(q, PDescription);
    assert ReadProperty(p, PStreet) == ReadProperty(q, PStreet);
    assert ReadProperty(p, PCity) == ReadProperty(q, PCity);
    assert ReadProperty(p, PState) == ReadProperty(q, PState);
    assert ReadProperty(p, PZipCode) == ReadProperty(q, PZipCode);
    assert ReadProperty(p, PCountry) == ReadProperty(q, PCountry);
    assert ReadProperty(p, PLatitude) == ReadProperty(q, PLatitude);
    assert ReadProperty(p, PLongitude) == ReadProperty(q, PLongitude);
  }

  lemma DetailColumnsDetermine(p: Property, q: Property)
    requires forall c :: ReadProperty(p, c) == ReadProperty(q, c)
    ensures p.price == q.price && p.status == q.status && p.property_type == q.property_type
    ensures p.bedrooms == q.bedrooms && p.bathrooms == q.bathrooms && p.square_footage == q.square_footage
    ensures p.additional_notes == q.additional_notes && p.tags == q.tags && p.is_deleted == q.is_deleted
    ensures p.created_at == q.created_at && p.updated_at == q.updated_at
  {
    assert ReadProperty(p, PPrice) == ReadProperty(q, PPrice);
    assert ReadProperty(p, PStatus) == ReadProperty(q, PStatus);
    assert ReadProperty(p, PPropertyType) == ReadProperty(q, PPropertyType);
    assert ReadProperty(p, PBedrooms) == ReadProperty(q, PBedrooms);
    assert ReadProperty(p, PBathrooms) == ReadProperty(q, PBathrooms);
    assert ReadProperty(p, PSquareFootage) == ReadProperty(q, PSquareFootage);
    assert ReadProperty(p, PAdditionalNotes) == ReadProperty(q, PAdditionalNotes);
    assert ReadProperty(p, PTags) == ReadProperty(q, PTags);
    assert ReadProperty(p, PIsDeleted) == ReadProperty(q, PIsDeleted);
    assert ReadProperty(p, PCreatedAt) == ReadProperty(q, PCreatedAt);
    assert ReadProperty(p, PUpdatedAt) == ReadProperty(q, PUpdatedAt);
  }

  // ------------------------------------------------------------ media columns

  datatype ImageColumn = IId | IPropertyId | IImageUrl | IAltText | IDisplayOrder | ICreatedAt

  function ImageColumnName(c: ImageColumn): string {
    match c
    case IId => "id"
    case IPropertyId => "property_id"
    case IImageUrl => "image_url"
    case IAltText => "alt_text"
    case IDisplayOrder => "display_order"
    case ICreatedAt => "created_at"
  }

  function ImageColumnNamed(name: string): (r: Option<ImageColumn>)
    ensures r.Some? ==> ImageColumnName(r.value) == name
  {
    match name
    case "id" => Some(IId)
    case "property_id" => Some(IPropertyId)
    case "image_url" => Some(IImageUrl)
    case "alt_text" => Some(IAltText)
    case "display_order" => Some(IDisplayOrder)
    case "created_at" => Some(ICreatedAt)
    case _ => None
  }

  function ReadImage(m: Image, col: ImageColumn): Cell {
    match col
    case IId => CText(m.id)
    case IPropertyId => CText(m.property_id)
    case IImageUrl => CText(m.image_url)
    case IAltText => NullableText(m.alt_text)
    case IDisplayOrder => IntCell(m.display_order)
    case ICreatedAt => CTime(m.created_at)
  }

  /** `name = value` in an UPDATE of the property_images table. */
  function WriteImage(m: Image, name: string, v: Cell): (r: Option<Image>)
    ensures r.Some? ==> ImageColumnNamed(name).Some?
    ensures r.Some? ==> ReadImage(r.value, ImageColumnNamed(name).value) == v
    ensures r.Some? ==> forall c :: ImageColumnName(c) != name ==> ReadImage(r.value, c) == ReadImage(m, c)
  {
    match ImageColumnNamed(name)
    case None => None
    case Some(IId) => if v.CText? then Some(m.(id := v.s)) else None
    case Some(IPropertyId) => if v.CText? then Some(m.(property_id := v.s)) else None
    case Some(IImageUrl) => if v.CText? then Some(m.(image_url := v.s)) else None
    case Some(IAltText) =>
      if v.CNull? then Some(m.(alt_text := None)) else if v.CText? then Some(m.(alt_text := Some(v.s))) else None
    case Some(IDisplayOrder) => if IsIntCell(v) then Some(m.(display_order := v.n.Floor)) else None
    case Some(ICreatedAt) => if v.CTime? then Some(m.(created_at := v.t)) else None
  }

  lemma ImageColumnsDetermine(m: Image, n: Image)
    requires forall c :: ReadImage(m, c) == ReadImage(n, c)
    ensures m == n
  {
    assert ReadImage(m, IId) == ReadImage(n, IId);
    assert ReadImage(m, IPropertyId) == ReadImage(n, IPropertyId);
    assert ReadImage(m, IImageUrl) == ReadImage(n, IImageUrl);
    assert ReadImage(m, IAltText) == ReadImage(n, IAltText);
    assert ReadImage(m, IDisplayOrder) == ReadImage(n, IDisplayOrder);
    assert ReadImage(m, ICreatedAt) == ReadImage(n, ICreatedAt);
  }

  datatype DocumentColumn = DId | DPropertyId | DDocumentUrl | DDocumentName | DDocumentType | DCreatedAt

  function DocumentColumnName(c: DocumentColumn): string {
    match c
    case DId => "id"
    case DPropertyId => "property_id"
    case DDocumentUrl => "document_url"
    case DDocumentName => "document_name"
    case DDocumentType => "document_type"
    case DCreatedAt => "created_at"
  }

  function DocumentColumnNamed(name: string): (r: Option<DocumentColumn>)
    ensures r.Some? ==> DocumentColumnName(r.value) == name
  {
    match name
    case "id" => Some(DId)
    case "property_id" => Some(DPropertyId)
    case "document_url" => Some(DDocumentUrl)
    case "document_name" => Some(DDocumentName)
    case "document_type" => Some(DDocumentType)
    case "created_at" => Some(DCreatedAt)
    case _ => None
  }

  function ReadDocument(d: Document, col: DocumentColumn): Cell {
    match col
    case DId => CText(d.id)
    case DPropertyId => CText(d.property_id)
    case DDocumentUrl => CText(d.document_url)
    case DDocumentName => CText(d.document_name)
    case DDocumentType => CText(d.document_type)
    case DCreatedAt => CTime(d.created_at)
  }

  /** `name = value` in an UPDATE of the property_documents table. */
  function WriteDocument(d: Document, name: string, v: Cell): (r: Option<Document>)
    ensures r.Some? ==> DocumentColumnNamed(name).Some?
    ensures r.Some? ==> ReadDocument(r.value, DocumentColumnNamed(name).value) == v
    ensures r.Some? ==> forall c :: DocumentColumnName(c) != name ==> ReadDocument(r.value, c) == ReadDocument(d, c)
  {
    match DocumentColumnNamed(name)
    case None => None
    case Some(DId) => if v.CText? then Some(d.(id := v.s)) else None
    case Some(DPropertyId) => if v.CText? then Some(d.(property_id := v.s)) else None
    case Some(DDocumentUrl) => if v.CText? then Some(d.(document_url := v.s)) else None
    case Some(DDocumentName) => if v.CText? then Some(d.(document_name := v.s)) else None
    case Some(DDocumentType) => if v.CText? then Some(d.(document_type := v.s)) else None
    case Some(DCreatedAt) => if v.CTime? then Some(d.(created_at := v.t)) else None
  }

  lemma DocumentColumnsDetermine(d: Document, e: Document)
    requires forall c :: ReadDocument(d, c) == ReadDocument(e, c)
    ensures d == e
  {
    assert ReadDocument(d, DId) == ReadDocument(e, DId);
    assert ReadDocument(d, DPropertyId) == ReadDocument(e, DPropertyId);
    assert ReadDocument(d, DDocumentUrl) == ReadDocument(e, DDocumentUrl);
    assert ReadDocument(d, DDocumentName) == ReadDocument(e, DDocumentName);
    assert ReadDocument(d, DDocumentType) == ReadDocument(e, DDocumentType);
    assert ReadDocument(d, DCreatedAt) == ReadDocument(e, DCreatedAt);
  }

  // ------------------------------------------------------------- SET clauses

  /** One `column = $n` item of a SET clause, with the value bound to $n. */
  datatype Assignment = Assignment(col: string, value: Cell)

  function AssignmentCol(a: Assignment): string { a.col }

  /** The columns a SET clause names, in order. */
  function Cols(sets: seq<Assignment>): (r: seq<string>)
    ensures |r| == |sets| && forall i :: 0 <= i < |sets| ==> r[i] == sets[i].col
  {
    if |sets| == 0 then [] else [sets[0].col] + Cols(sets[1..])
  }

  /** Applies the items of a SET clause to a property row; None if any item fails. */
  function SetProperty(p: Property, sets: seq<Assignment>): Option<Property>
    decreases |sets|
  {
    if |sets| == 0 then Some(p)
    else
      var q :- WriteProperty(p, sets[0].col, sets[0].value);
      SetProperty(q, sets[1..])
  }

  function SetImage(m: Image, sets: seq<Assignment>): Option<Image>
    decreases |sets|
  {
    if |sets| == 0 then Some(m)
    else
      var q :- WriteImage(m, sets[0].col, sets[0].value);
      SetImage(q, sets[1..])
  }

  function SetDocument(d: Document, sets: seq<Assignment>): Option<Document>
    decreases |sets|
  {
    if |sets| == 0 then Some(d)
    else
      var q :- WriteDocument(d, sets[0].col, sets[0].value);
      SetDocument(q, sets[1..])
  }

  /** A SET clause whose every item fits any row never fails. */
  lemma {:induction false} SetPropertyTotal(p: Property, sets: seq<Assignment>)
    requires forall q: Property, i :: 0 <= i < |sets| ==> WriteProperty(q, sets[i].col, sets[i].value).Some?
    ensures SetProperty(p, sets).Some?
    decreases |sets|
  {
    if |sets| > 0 {
      var q := WriteProperty(p, sets[0].col, sets[0].value).value;
      forall r: Property, i | 0 <= i < |sets[1..]|
        ensures WriteProperty(r, sets[1..][i].col, sets[1..][i].value).Some?
      {
        assert sets[1..][i] == sets[i + 1];
      }
      SetPropertyTotal(q, sets[1..]);
    }
  }

  lemma {:induction false} SetImageTotal(m: Image, sets: seq<Assignment>)
    requires forall n: Image, i :: 0 <= i < |sets| ==> WriteImage(n, sets[i].col, sets[i].value).Some?
    ensures SetImage(m, sets).Some?
    decreases |sets|
  {
    if |sets| > 0 {
      var n := WriteImage(m, sets[0].col, sets[0].value).value;
      forall k: Image, i | 0 <= i < |sets[1..]|
        ensures WriteImage(k, sets[1..][i].col, sets[1..][i].value).Some?
      {
        assert sets[1..][i] == sets[i + 1];
      }
      SetImageTotal(n, sets[1..]);
    }
  }

  lemma {:induction false} SetDocumentTotal(d: Document, sets: seq<Assignment>)
    requires forall e: Document, i :: 0 <= i < |sets| ==> WriteDocument(e, sets[i].col, sets[i].value).Some?
    ensures SetDocument(d, sets).Some?
    decreases |sets|
  {
    if |sets| > 0 {
      var e := WriteDocument(d, sets[0].col, sets[0].value).value;
      forall k: Document, i | 0 <= i < |sets[1..]|
        ensures WriteDocument(k, sets[1..][i].col, sets[1..][i].value).Some?
      {
        assert sets[1..][i] == sets[i + 1];
      }
      SetDocumentTotal(e, sets[1..]);
    }
  }

  lemma FirstColNotLater(sets: seq<Assignment>)
    requires |sets| > 0 && Seqs.DistinctBy(sets, AssignmentCol)
    ensures sets[0].col !in Cols(sets[1..])
    ensures Seqs.DistinctBy(sets[1..], AssignmentCol)
  {
    forall j | 0 <= j < |sets| - 1 ensures Cols(sets[1..])[j] != sets[0].col {
      assert sets[1..][j] == sets[j + 1];
    }
  }

  /**
   * With distinct column names, SET gives every named column its value and
   * leaves every other column as it was.
   */
  lemma {:induction false} SetPropertyColumns(p: Property, sets: seq<Assignment>)
    requires Seqs.DistinctBy(sets, AssignmentCol)
    requires SetProperty(p, sets).Some?
    ensures forall i :: 0 <= i < |sets| ==>
      PropertyColumnNamed(sets[i].col).Some? &&
      ReadProperty(SetProperty(p, sets).value, PropertyColumnNamed(sets[i].col).value) == sets[i].value
    ensures forall c :: PropertyColumnName(c) !in Cols(sets) ==>
      ReadProperty(SetProperty(p, sets).value, c) == ReadProperty(p, c)
    decreases |sets|
  {
    if |sets| > 0 {
      FirstColNotLater(sets);
      var q := WriteProperty(p, sets[0].col, sets[0].value).value;
      SetPropertyColumns(q, sets[1..]);
      var r := SetProperty(p, sets).value;
      assert r == SetProperty(q, sets[1..]).value;
      var c0 := PropertyColumnNamed(sets[0].col).value;
      assert PropertyColumnName(c0) !in Cols(sets[1..]);
      forall i | 0 < i < |sets| ensures PropertyColumnNamed(sets[i].col).Some? &&
        ReadProperty(r, PropertyColumnNamed(sets[i].col).value) == sets[i].value {
        assert sets[i] == sets[1..][i - 1];
      }
      assert Cols(sets) == [sets[0].col] + Cols(sets[1..]);
    }
  }

  lemma {:induction false} SetImageColumns(m: Image, sets: seq<Assignment>)
    requires Seqs.DistinctBy(sets, AssignmentCol)
    requires SetImage(m, sets).Some?
    ensures forall i :: 0 <= i < |sets| ==>
      ImageColumnNamed(sets[i].col).Some? &&
      ReadImage(SetImage(m, sets).value, ImageColumnNamed(sets[i].col).value) == sets[i].value
    ensures forall c :: ImageColumnName(c) !in Cols(sets) ==>
      ReadImage(SetImage(m, sets).value, c) == ReadImage(m, c)
    decreases |sets|
  {
    if |sets| > 0 {
      FirstColNotLater(sets);
      var q := WriteImage(m, sets[0].col, sets[0].value).value;
      SetImageColumns(q, sets[1..]);
      var r := SetImage(m, sets).value;
      assert r == SetImage(q, sets[1..]).value;
      var c0 := ImageColumnNamed(sets[0].col).value;
      assert ImageColumnName(c0) !in Cols(sets[1..]);
      forall i | 0 < i < |sets| ensures ImageColumnNamed(sets[i].col).Some? &&
        ReadImage(r, ImageColumnNamed(sets[i].col).value) == sets[i].value {
        assert sets[i] == sets[1..][i - 1];
      }
      assert Cols(sets) == [sets[0].col] + Cols(sets[1..]);
    }
  }

  lemma {:induction false} SetDocumentColumns(d: Document, sets: seq<Assignment>)
    requires Seqs.DistinctBy(sets, AssignmentCol)
    requires SetDocument(d, sets).Some?
    ensures forall i :: 0 <= i < |sets| ==>
      DocumentColumnNamed(sets[i].col).Some? &&
      ReadDocument(SetDocument(d, sets).value, DocumentColumnNamed(sets[i].col).value) == sets[i].value
    ensures forall c :: DocumentColumnName(c) !in Cols(sets) ==>
      ReadDocument(SetDocument(d, sets).value, c) == ReadDocument(d, c)
    decreases |sets|
  {
    if |sets| > 0 {
      FirstColNotLater(sets);
      var q := WriteDocument(d, sets[0].col, sets[0].value).value;
      SetDocumentColumns(q, sets[1..]);
      var r := SetDocument(d, sets).value;
      assert r == SetDocument(q, sets[1..]).value;
      var c0 := DocumentColumnNamed(sets[0].col).value;
      assert DocumentColumnName(c0) !in Cols(sets[1..]);
      forall i | 0 < i < |sets| ensures DocumentColumnNamed(sets[i].col).Some? &&
        ReadDocument(r, DocumentColumnNamed(sets[i].col).value) == sets[i].value {
        assert sets[i] == sets[1..][i - 1];
      }
      assert Cols(sets) == [sets[0].col] + Cols(sets[1..]);
    }
  }

  // ------------------------------------------------------- UPDATE and DELETE

  /**
   * UPDATE ... WHERE p: every matching row is rewritten by f; None when the
   * rewrite of any matching row fails.
   */
  function UpdateWhere<T>(rows: seq<T>, p: T -> bool, f: T -> Option<T>): (r: Option<seq<T>>)
    ensures r.Some? ==> |r.value| == |rows|
    ensures r.Some? ==> forall i :: 0 <= i < |rows| ==>
      if p(rows[i]) then f(rows[i]) == Some(r.value[i]) else r.value[i] == rows[i]
  {
    if |rows| == 0 then Some([])
    else
      var rest :- UpdateWhere(rows[1..], p, f);
      if p(rows[0]) then
        var x :- f(rows[0]);
        Some([x] + rest)
      else Some([rows[0]] + rest)
  }

  /** With no matching row, UPDATE succeeds and changes nothing. */
  lemma {:induction false} UpdateWhereNone<T>(rows: seq<T>, p: T -> bool, f: T -> Option<T>)
    requires Seqs.Filter(rows, p) == []
    ensures UpdateWhere(rows, p, f) == Some(rows)
  {
    if |rows| > 0 {
      Seqs.FilterCons(rows[0], rows[1..], p);
      assert rows == [rows[0]] + rows[1..];
      UpdateWhereNone(rows[1..], p, f);
    }
  }

  /** An UPDATE whose row function never fails always succeeds. */
  lemma {:induction false} UpdateWhereTotal<T>(rows: seq<T>, p: T -> bool, f: T -> Option<T>)
    requires forall x :: f(x).Some?
    ensures UpdateWhere(rows, p, f).Some?
  {
    if |rows| > 0 {
      UpdateWhereTotal(rows[1..], p, f);
    }
  }

  /** DELETE ... WHERE p keeps the other rows, in order. */
  function DeleteWhere<T>(rows: seq<T>, p: T -> bool): seq<T> {
    Seqs.Filter(rows, (x: T) => !p(x))
  }
}
