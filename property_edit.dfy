/**
 * The property edit view of the client: the tag list shown as one text
 * field and read back from it, the form state filled from the fetched
 * property, and the payloads of the update and add-image requests.
 */
module PropertyEdit {
  import opened Wrappers
  import Text
  import Seqs
  import opened Tables

  // --------------------------------------------------------------- tag text

  /** The tag field's text: the tags joined with ", ", or "" when there are none. */
  function FormatTags(tags: Option<seq<string>>): string {
    if tags.Some? then Text.Join(tags.value, ", ") else ""
  }

  /** `map(t => t.trim())` over the pieces of the tag field. */
  function TrimAll(parts: seq<string>): (r: seq<string>)
    ensures |r| == |parts| && forall i :: 0 <= i < |parts| ==> r[i] == Text.Trim(parts[i])
  {
    Seqs.Map(parts, Text.Trim)
  }

  /** The tag list sent back: the text split on "," with every piece trimmed; "" gives no tags. */
  function ParseTags(s: string): (r: seq<string>)
    ensures s == "" ==> r == []
    ensures s != "" ==> |r| == Text.Count(s, ',') + 1
    ensures forall i :: 0 <= i < |r| ==> Text.NoSurroundingSpace(r[i]) && ',' !in r[i]
  {
    if s == "" then []
    else
      var pieces := Text.Split(s, ',');
      var r := TrimAll(pieces);
      forall i | 0 <= i < |r| ensures Text.NoSurroundingSpace(r[i]) && ',' !in r[i] {
        TrimmedPiece(pieces[i], ',');
      }
      r
  }

  /** A trimmed piece has no white space at its ends and no character the piece did not have. */
  lemma TrimmedPiece(p: string, c: char)
    requires c !in p
    ensures Text.NoSurroundingSpace(Text.Trim(p)) && c !in Text.Trim(p)
  {
    Text.TrimSpec(p);
  }

  /** A tag the field can carry unchanged: not empty, no comma, no white space at either end. */
  predicate PlainTag(t: string) {
    t != "" && ',' !in t && Text.NoSurroundingSpace(t)
  }

  /** Reading back the text of plain tags gives the tags. */
  lemma TagsRoundTrip(tags: seq<string>)
    requires forall i :: 0 <= i < |tags| ==> PlainTag(tags[i])
    ensures ParseTags(FormatTags(Some(tags))) == tags
  {
    if |tags| > 0 {
      var parts := [tags[0]] + Text.SpaceBefore(tags[1..]);
      FormatPieces(tags);
      TrimPieces(tags);
    }
  }

  /** The text of plain tags splits on "," into the first tag and the others with a blank in front. */
  lemma FormatPieces(tags: seq<string>)
    requires |tags| > 0
    requires forall i :: 0 <= i < |tags| ==> PlainTag(tags[i])
    ensures Text.Split(FormatTags(Some(tags)), ',') == [tags[0]] + Text.SpaceBefore(tags[1..])
  {
    var rest := tags[1..];
    var parts := [tags[0]] + Text.SpaceBefore(rest);
    Text.JoinCommaSpace(tags);
    forall i | 0 <= i < |parts| ensures ',' !in parts[i] {
      if i > 0 {
        assert parts[i] == " " + rest[i - 1];
        assert PlainTag(tags[i]);
        assert rest[i - 1] == tags[i];
      }
    }
    Text.SplitJoin(parts, ',');
  }

  /** Trimming those pieces gives the tags back. */
  lemma TrimPieces(tags: seq<string>)
    requires |tags| > 0
    requires forall i :: 0 <= i < |tags| ==> PlainTag(tags[i])
    ensures TrimAll([tags[0]] + Text.SpaceBefore(tags[1..])) == tags
  {
    var parts := [tags[0]] + Text.SpaceBefore(tags[1..]);
    forall i | 0 < i < |tags| ensures parts[i] == " " + tags[i] {
      assert parts[i] == Text.SpaceBefore(tags[1..])[i - 1];
    }
    TrimPadded(tags, parts);
  }

  lemma TrimPadded(tags: seq<string>, parts: seq<string>)
    requires |parts| == |tags| > 0 && parts[0] == tags[0]
    requires forall i :: 0 < i < |tags| ==> parts[i] == " " + tags[i]
    requires forall i :: 0 <= i < |tags| ==> PlainTag(tags[i])
    ensures TrimAll(parts) == tags
  {
    forall i | 0 <= i < |tags| ensures Text.Trim(parts[i]) == tags[i] {
      TrimPlain(tags[i]);
    }
    TrimAllEq(parts, tags);
  }

  lemma TrimAllEq(parts: seq<string>, tags: seq<string>)
    requires |parts| == |tags|
    requires forall i :: 0 <= i < |tags| ==> Text.Trim(parts[i]) == tags[i]
    ensures TrimAll(parts) == tags
  {
  }

  /** A plain tag survives trimming, also with a blank in front. */
  lemma TrimPlain(t: string)
    requires PlainTag(t)
    ensures Text.Trim(t) == t && Text.Trim(" " + t) == t
  {
    Text.TrimOfTrimmed(t);
    assert " " + t == [' '] + t;
    Text.TrimAfterSpace(' ', t);
  }

  /** A property without tags shows an empty field, which is sent back as no tags. */
  lemma NoTagsRoundTrip()
    ensures ParseTags(FormatTags(None)) == [] && ParseTags(FormatTags(Some([]))) == []
  {
  }

  /** A tag with white space around it comes back trimmed: the round trip is not exact for it. */
  lemma PaddedTagTrimmed()
    ensures ParseTags(FormatTags(Some(["a "]))) == ["a"]
  {
    var s := FormatTags(Some(["a "]));
    assert s == "a ";
    assert Text.Split(s, ',') == ["a "] by { Text.SplitWithoutSeparator(s, ','); }
    assert Text.TrimStart("a ") == "a ";
    assert Text.TrimEnd("a ") == Text.TrimEnd("a") by { assert "a "[..1] == "a"; }
  }

  // ------------------------------------------------------------ the payloads

  datatype UpdatePayload = UpdatePayload(
    id: string, title: string, description: string, street: string, city: string,
    state: string, zip_code: string, country: string, latitude: real, longitude: real,
    price: real, status: string, property_type: string,
    bedrooms: int, bathrooms: int, square_footage: int,
    additional_notes: string, tags: seq<string>)

  datatype ImagePayload = ImagePayload(property_id: string, image_url: string, alt_text: Option<string>,
                                       display_order: int)

  /** `x || 0` on a nullable number. */
  function OrZero(x: Option<real>): real {
    if x.Some? then x.value else 0.0
  }

  /** The property inputs of the edit form. */
  datatype Fields = Fields(
    title: string, description: string, street: string, city: string,
    state: string, zip_code: string, country: string, latitude: real, longitude: real,
    price: real, status: string, property_type: string,
    bedrooms: int, bathrooms: int, square_footage: int,
    additional_notes: string, tags: string)

  /** What the form holds before the property has loaded. */
  const EmptyFields := Fields("", "", "", "", "", "", "", 0.0, 0.0, 0.0, "for_sale", "residential",
                              0, 0, 0, "", "")

  /**
   * The inputs filled from a fetched property: missing coordinates show 0,
   * missing notes "", and the tags their text.
   */
  function FieldsOf(p: Property): (f: Fields)
    ensures f.title == p.title && f.description == p.description
    ensures f.street == p.street && f.city == p.city && f.state == p.state
    ensures f.zip_code == p.zip_code && f.country == p.country
    ensures f.latitude == (if p.latitude.Some? then p.latitude.value else 0.0)
    ensures f.longitude == (if p.longitude.Some? then p.longitude.value else 0.0)
    ensures f.price == p.price && f.status == p.status && f.property_type == p.property_type
    ensures f.bedrooms == p.bedrooms && f.bathrooms == p.bathrooms && f.square_footage == p.square_footage
    ensures f.additional_notes == (if p.additional_notes.Some? then p.additional_notes.value else "")
    ensures f.tags == FormatTags(p.tags)
  {
    Fields(p.title, p.description, p.street, p.city, p.state, p.zip_code, p.country,
           OrZero(p.latitude), OrZero(p.longitude), p.price, p.status, p.property_type,
           p.bedrooms, p.bathrooms, p.square_footage, p.additional_notes.GetOr(""), FormatTags(p.tags))
  }

  /** The body of the update request for the property with id `pid`. */
  function Payload(f: Fields, pid: string): (r: UpdatePayload)
    ensures r.id == pid && r.tags == ParseTags(f.tags)
    ensures r.title == f.title && r.description == f.description
    ensures r.street == f.street && r.city == f.city && r.state == f.state
    ensures r.zip_code == f.zip_code && r.country == f.country
    ensures r.latitude == f.latitude && r.longitude == f.longitude
    ensures r.price == f.price && r.status == f.status && r.property_type == f.property_type
    ensures r.bedrooms == f.bedrooms && r.bathrooms == f.bathrooms && r.square_footage == f.square_footage
    ensures r.additional_notes == f.additional_notes
  {
    UpdatePayload(pid, f.title, f.description, f.street, f.city, f.state, f.zip_code, f.country,
                  f.latitude, f.longitude, f.price, f.status, f.property_type,
                  f.bedrooms, f.bathrooms, f.square_footage, f.additional_notes, ParseTags(f.tags))
  }

  /**
   * The payload an untouched form sends for property p: its own values, with
   * missing coordinates as 0, missing notes as "" and no tags (null) as [].
   */
  function UnchangedPayload(p: Property): UpdatePayload {
    UpdatePayload(p.id, p.title, p.description, p.street, p.city, p.state, p.zip_code, p.country,
                  OrZero(p.latitude), OrZero(p.longitude), p.price, p.status, p.property_type,
                  p.bedrooms, p.bathrooms, p.square_footage, p.additional_notes.GetOr(""),
                  if p.tags.Some? then p.tags.value else [])
  }

  /**
   * Submitting a form filled from a property and left untouched sends the
   * property's id and every one of its values, tags included.
   */
  lemma SubmitUnchanged(p: Property)
    requires p.tags.Some? ==> forall i :: 0 <= i < |p.tags.value| ==> PlainTag(p.tags.value[i])
    ensures Payload(FieldsOf(p), p.id) == UnchangedPayload(p)
  {
    if p.tags.Some? {
      TagsRoundTrip(p.tags.value);
    }
  }

  /** The edit form: the property inputs and the inputs for a new image. */
  class EditForm {
    var fields: Fields
    var new_image_url: string
    var new_image_alt: string

    constructor ()
      ensures fields == EmptyFields && new_image_url == "" && new_image_alt == ""
    {
      fields, new_image_url, new_image_alt := EmptyFields, "", "";
    }

    /** Fills the property inputs from the fetched property; the image inputs keep what they hold. */
    method Prefill(p: Property)
      modifies this
      ensures fields == FieldsOf(p)
      ensures new_image_url == old(new_image_url) && new_image_alt == old(new_image_alt)
    {
      fields := FieldsOf(p);
    }

    /**
     * The add-image request the Add Image button sends: none while the URL
     * input is empty, otherwise the URL with order 0, and no alt text when
     * its input is empty.
     */
    function ImageRequest(pid: string): (r: Option<ImagePayload>)
      reads this
      ensures r.None? <==> new_image_url == ""
      ensures r.Some? ==> r.value.property_id == pid && r.value.image_url == new_image_url && r.value.display_order == 0
      ensures r.Some? ==> (r.value.alt_text.None? <==> new_image_alt == "")
      ensures r.Some? && r.value.alt_text.Some? ==> r.value.alt_text.value == new_image_alt
    {
      if new_image_url == "" then None
      else Some(ImagePayload(pid, new_image_url, if new_image_alt != "" then Some(new_image_alt) else None, 0))
    }

    /** After a successful add, both image inputs are cleared and the property inputs are kept. */
    method ImageAdded()
      modifies this
      ensures new_image_url == "" && new_image_alt == "" && fields == old(fields)
    {
      new_image_url, new_image_alt := "", "";
    }
  }

  /**
   * Loading a property into a fresh form and submitting it: the request is the
   * payload of the property's own inputs.
   */
  method LoadAndSubmit(p: Property) returns (r: UpdatePayload)
    requires p.tags.Some? ==> forall i :: 0 <= i < |p.tags.value| ==> PlainTag(p.tags.value[i])
    ensures r == UnchangedPayload(p)
  {
    var form := new EditForm();
    form.Prefill(p);
    r := Payload(form.fields, p.id);
    SubmitUnchanged(p);
  }
}
