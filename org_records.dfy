/**
 * The organization documents the editor writes to, and reads from, the
 * `organizations` collection, and the form they are assembled from.
 * A document is a map from field names to values, as the JavaScript object
 * the editor fills field by field.
 */
module OrgRecords {
  import opened Pickers

  datatype Option<T> = None | Some(value: T)

  /** The rich-text description; Blank is what the widget's `setDefaultData()` installs. */
  datatype Description = Blank | Document(content: string)

  /** The ids of the nine text inputs, which are also the names their values are stored under. */
  datatype TextField = DisplayName | Country | City | Phone | Website | Google | Facebook | Twitter | Github

  /** The editor's inputs: nine text fields and the description widget. */
  datatype Form = Form(
    displayName: string, country: string, city: string, phone: string, website: string,
    google: string, facebook: string, twitter: string, github: string,
    description: Description)
  {
    /** The value of the text input with the given id. */
    function Input(id: TextField): string
    {
      match id
      case DisplayName => displayName
      case Country => country
      case City => city
      case Phone => phone
      case Website => website
      case Google => google
      case Facebook => facebook
      case Twitter => twitter
      case Github => github
    }
  }

  /** What `_setDefaultData` puts in the inputs. */
  const DefaultForm := Form("", "", "", "", "", "", "", "", "", Blank)

  /** The fields of an organization document. */
  datatype Field = Created | Updated | OwnerId | Sales | Verified | TextInput(id: TextField) | Image | DescriptionField

  /** Fields stamped at creation only: never taken from the form, never sent by `save`. */
  predicate IsBookkeeping(k: Field)
  {
    k.Created? || k.OwnerId? || k.Sales? || k.Verified?
  }

  /** Every field `add` writes. */
  const RecordKeys: set<Field> := {
    Created, Updated, OwnerId, Sales, Verified,
    TextInput(DisplayName), TextInput(Country), TextInput(City), TextInput(Phone), TextInput(Website),
    TextInput(Google), TextInput(Facebook), TextInput(Twitter), TextInput(Github),
    Image, DescriptionField}

  /** Every field `save` sends. */
  const UpdateKeys: set<Field> := set k | k in RecordKeys && !IsBookkeeping(k)

  /** One stored field value; ServerTimestamp is the store's server-time sentinel. */
  datatype Value =
    | Text(s: string)
    | Number(n: int)
    | Flag(b: bool)
    | ServerTimestamp
    | ImageField(image: ImageValue)
    | RichText(description: Description)

  type Doc = map<Field, Value>

  const Collection := "organizations"

  /** `data || {}`: only a falsy picker value is replaced by the empty object. */
  function Fallback(v: ImageValue): (r: ImageValue)
    ensures r != Undefined
    ensures v == Undefined ==> r == Empty
    ensures v != Undefined ==> r == v
  {
    if v == Undefined then Empty else v
  }

  /** The document `add` writes for the signed-in user `uid`. */
  function NewRecord(form: Form, image: ImageValue, uid: string): Doc
  {
    map[
      Created := ServerTimestamp,
      Updated := ServerTimestamp,
      OwnerId := Text(uid),
      Sales := Number(0),
      Verified := Flag(false),
      TextInput(DisplayName) := Text(form.Input(DisplayName)),
      TextInput(Country) := Text(form.Input(Country)),
      TextInput(City) := Text(form.Input(City)),
      TextInput(Phone) := Text(form.Input(Phone)),
      TextInput(Website) := Text(form.Input(Website)),
      TextInput(Google) := Text(form.Input(Google)),
      TextInput(Facebook) := Text(form.Input(Facebook)),
      TextInput(Twitter) := Text(form.Input(Twitter)),
      TextInput(Github) := Text(form.Input(Github)),
      Image := ImageField(Fallback(image)),
      DescriptionField := RichText(form.description)]
  }

  /** The partial update `save` sends. */
  function UpdateOf(form: Form, image: ImageValue): Doc
  {
    map[
      Updated := ServerTimestamp,
      TextInput(DisplayName) := Text(form.Input(DisplayName)),
      TextInput(Country) := Text(form.Input(Country)),
      TextInput(City) := Text(form.Input(City)),
      TextInput(Phone) := Text(form.Input(Phone)),
      TextInput(Website) := Text(form.Input(Website)),
      TextInput(Google) := Text(form.Input(Google)),
      TextInput(Facebook) := Text(form.Input(Facebook)),
      TextInput(Twitter) := Text(form.Input(Twitter)),
      TextInput(Github) := Text(form.Input(Github)),
      Image := ImageField(Fallback(image)),
      DescriptionField := RichText(form.description)]
  }

  /** The store's `update`: each field sent replaces the stored one; the others stay. */
  function Merge(existing: Doc, changes: Doc): (r: Doc)
    ensures r.Keys == existing.Keys + changes.Keys
    ensures forall k :: k in changes ==> r[k] == changes[k]
    ensures forall k :: k in existing && k !in changes ==> r[k] == existing[k]
  {
    existing + changes
  }

  /** Every text input is among the fields `add` writes and `save` sends. */
  lemma TextInputsAreStored(id: TextField)
    ensures TextInput(id) in RecordKeys && TextInput(id) in UpdateKeys
  {
  }

  /** What `_setOrgData` copies out of a fetched document: the inputs and the picker value. */
  datatype Fetched = Fetched(form: Form, image: ImageValue)

  predicate HasText(doc: Doc, id: TextField)
  {
    TextInput(id) in doc && doc[TextInput(id)].Text?
  }

  /**
   * Whether `_setOrgData` can read the document within this model: the nine
   * text fields are strings, the description is a rich-text value, and the
   * image, when present, is an image value.
   */
  predicate Readable(doc: Doc)
  {
    (forall id :: HasText(doc, id))
    && DescriptionField in doc && doc[DescriptionField].RichText?
    && (Image in doc ==> doc[Image].ImageField?)
  }

  /** The document as `_setOrgData` reads it; a missing `image` reads as undefined. */
  function Readback(doc: Doc): (r: Option<Fetched>)
    ensures r.Some? <==> Readable(doc)
    ensures r.Some? ==> forall id :: HasText(doc, id) && r.value.form.Input(id) == doc[TextInput(id)].s
    ensures r.Some? ==> r.value.form.description == doc[DescriptionField].description
    ensures r.Some? ==> r.value.image == if Image in doc then doc[Image].image else Undefined
  {
    if Readable(doc) then
      assert HasText(doc, DisplayName) && HasText(doc, Country) && HasText(doc, City);
      assert HasText(doc, Phone) && HasText(doc, Website) && HasText(doc, Google);
      assert HasText(doc, Facebook) && HasText(doc, Twitter) && HasText(doc, Github);
      var form := Form(
        doc[TextInput(DisplayName)].s, doc[TextInput(Country)].s, doc[TextInput(City)].s,
        doc[TextInput(Phone)].s, doc[TextInput(Website)].s, doc[TextInput(Google)].s,
        doc[TextInput(Facebook)].s, doc[TextInput(Twitter)].s, doc[TextInput(Github)].s,
        doc[DescriptionField].description);
      Some(Fetched(form, if Image in doc then doc[Image].image else Undefined))
    else None
  }

  /** A document holding a form's values reads back as that form. */
  lemma ReadbackOfStoredForm(doc: Doc, form: Form, image: ImageValue)
    requires forall id :: TextInput(id) in doc && doc[TextInput(id)] == Text(form.Input(id))
    requires DescriptionField in doc && doc[DescriptionField] == RichText(form.description)
    requires Image in doc && doc[Image] == ImageField(image)
    ensures Readback(doc) == Some(Fetched(form, image))
  {
  }

  /** The document `add` writes has every field. */
  lemma RecordKeysExact(form: Form, image: ImageValue, uid: string)
    ensures NewRecord(form, image, uid).Keys == RecordKeys
  {
  }

  /** Its five bookkeeping fields are stamped, never taken from the form. */
  lemma RecordStamps(form: Form, image: ImageValue, uid: string)
    ensures NewRecord(form, image, uid)[Created] == ServerTimestamp
    ensures NewRecord(form, image, uid)[Updated] == ServerTimestamp
    ensures NewRecord(form, image, uid)[OwnerId] == Text(uid)
    ensures NewRecord(form, image, uid)[Sales] == Number(0)
    ensures NewRecord(form, image, uid)[Verified] == Flag(false)
  {
  }

  /** Every other field of the document `add` writes is the form's value. */
  lemma RecordCopiesForm(form: Form, image: ImageValue, uid: string)
    ensures forall id :: TextInput(id) in NewRecord(form, image, uid) &&
              NewRecord(form, image, uid)[TextInput(id)] == Text(form.Input(id))
    ensures NewRecord(form, image, uid)[Image] == ImageField(Fallback(image))
    ensures NewRecord(form, image, uid)[DescriptionField] == RichText(form.description)
  {
    forall id ensures TextInput(id) in NewRecord(form, image, uid) &&
                NewRecord(form, image, uid)[TextInput(id)] == Text(form.Input(id))
    {
      match id
      case DisplayName =>
      case Country =>
      case City =>
      case Phone =>
      case Website =>
      case Google =>
      case Facebook =>
      case Twitter =>
      case Github =>
    }
  }

  /** The update `save` sends has `updated` and the form's fields, and never a bookkeeping field. */
  lemma UpdateKeysExact(form: Form, image: ImageValue)
    ensures UpdateOf(form, image).Keys == UpdateKeys
    ensures forall k :: k in UpdateOf(form, image) <==> !IsBookkeeping(k)
  {
    forall k ensures k in UpdateOf(form, image) <==> !IsBookkeeping(k) {
      if k.TextInput? {
        TextInputsAreStored(k.id);
      }
    }
  }

  /** Each field of the update is the form's value. */
  lemma UpdateCopiesForm(form: Form, image: ImageValue)
    ensures UpdateOf(form, image)[Updated] == ServerTimestamp
    ensures forall id :: TextInput(id) in UpdateOf(form, image) &&
              UpdateOf(form, image)[TextInput(id)] == Text(form.Input(id))
    ensures UpdateOf(form, image)[Image] == ImageField(Fallback(image))
    ensures UpdateOf(form, image)[DescriptionField] == RichText(form.description)
  {
    forall id ensures TextInput(id) in UpdateOf(form, image) &&
                UpdateOf(form, image)[TextInput(id)] == Text(form.Input(id))
    {
      match id
      case DisplayName =>
      case Country =>
      case City =>
      case Phone =>
      case Website =>
      case Google =>
      case Facebook =>
      case Twitter =>
      case Github =>
    }
  }

  /** From the same form, `save` sends exactly what `add` would write, less the bookkeeping fields. */
  lemma UpdateIsRecordWithoutBookkeeping(form: Form, image: ImageValue, uid: string)
    ensures UpdateOf(form, image) == map k | k in NewRecord(form, image, uid) && !IsBookkeeping(k) :: NewRecord(form, image, uid)[k]
  {
  }

  /** Reloading a created document gives back the form it was created from. */
  lemma CreatedRecordReadsBack(form: Form, image: ImageValue, uid: string)
    ensures Readback(NewRecord(form, image, uid)) == Some(Fetched(form, Fallback(image)))
  {
    RecordCopiesForm(form, image, uid);
    ReadbackOfStoredForm(NewRecord(form, image, uid), form, Fallback(image));
  }

  /**
   * Whatever the stored document was, after merging a `save` it reloads as the
   * saved form, and its bookkeeping fields are untouched.
   */
  lemma SavedRecordReadsBack(existing: Doc, form: Form, image: ImageValue)
    ensures Readback(Merge(existing, UpdateOf(form, image))) == Some(Fetched(form, Fallback(image)))
    ensures forall k :: IsBookkeeping(k) && k in existing ==>
              k in Merge(existing, UpdateOf(form, image)) && Merge(existing, UpdateOf(form, image))[k] == existing[k]
  {
    UpdateKeysExact(form, image);
    UpdateCopiesForm(form, image);
    ReadbackOfStoredForm(Merge(existing, UpdateOf(form, image)), form, Fallback(image));
  }
}
