/**
 * The organization editor (ht-organization-editor): a form for one
 * organization that is either new (empty `orgId`) or being edited. Its DOM
 * inputs are the `form` field; its embedded logo picker (`#image`) is the
 * `image` object. The store and the signed-in user are outside: what they
 * answer is passed in, and what is written to the store is returned.
 */
module OrgEditor {
  import opened Events
  import opened Pickers
  import opened OrgRecords

  const LoadingDataText := "Загрузка данных"
  const CreatingText := "Создание организации"
  const SavingText := "Идет сохранение"

  const AddHeading := "Добавить организацию"
  const SettingsHeading := "Настройки организации"
  const AddLabel := "Добавить"
  const SaveLabel := "Сохранить"

  /** How a store call settled: resolved, or threw (rejected). */
  datatype Outcome = Resolved | Rejected

  /** A write issued to the store: `collection(c).add(doc)` or `collection(c).doc(id).update(changes)`. */
  datatype Write = Create(collection: string, doc: Doc) | Update(collection: string, id: string, changes: Doc)

  /** The page heading: it tells a new organization from an existing one by the empty id. */
  function Heading(orgId: string): (h: string)
    ensures h == AddHeading <==> orgId == ""
    ensures h == SettingsHeading <==> orgId != ""
  {
    if orgId == "" then AddHeading else SettingsHeading
  }

  /** The submit button's label, decided by the same test. */
  function SubmitLabel(orgId: string): (l: string)
    ensures l == AddLabel <==> orgId == ""
    ensures l == SaveLabel <==> orgId != ""
  {
    if orgId == "" then AddLabel else SaveLabel
  }

  class Editor {
    var orgId: string
    var loading: bool
    var loadingText: string
    var form: Form
    const image: ImagePicker

    /** A fresh editor: no id (a new organization), loading, and an empty logo picker. */
    constructor()
      ensures orgId == "" && loading && loadingText == LoadingDataText
      ensures form == DefaultForm
      ensures fresh(image) && image.allowedFormats == LogoFormats && image.data == Empty
    {
      orgId := "";
      loading := true;
      loadingText := LoadingDataText;
      form := DefaultForm;
      image := new ImagePicker.Logo();
    }

    /** `_setDefaultData`: clear the nine inputs, reset the picker and the description. */
    method SetDefaultData()
      modifies this, image
      ensures form == DefaultForm && image.data == Empty
      ensures orgId == old(orgId) && loading == old(loading) && loadingText == old(loadingText)
    {
      form := form.(displayName := "");
      form := form.(country := "");
      form := form.(city := "");
      form := form.(phone := "");
      form := form.(website := "");
      form := form.(google := "");
      form := form.(facebook := "");
      form := form.(twitter := "");
      form := form.(github := "");
      image.Reset();
      form := form.(description := Blank);
    }

    /**
     * `_setOrgData`: copy a fetched organization into the inputs and the
     * picker. `fetched` is None when the document is missing or the read
     * failed; then the first field access throws, the error is caught, and
     * nothing changes.
     */
    method SetOrgData(fetched: Option<Fetched>)
      modifies this, image
      ensures fetched.None? ==> form == old(form) && image.data == old(image.data)
      ensures fetched.Some? ==> form == fetched.value.form && image.data == fetched.value.image
      ensures orgId == old(orgId) && loading == old(loading) && loadingText == old(loadingText)
    {
      if fetched.None? {
        return;
      }
      var org := fetched.value;
      form := form.(displayName := org.form.displayName);
      form := form.(country := org.form.country);
      form := form.(city := org.form.city);
      form := form.(phone := org.form.phone);
      form := form.(website := org.form.website);
      form := form.(google := org.form.google);
      form := form.(facebook := org.form.facebook);
      form := form.(twitter := org.form.twitter);
      form := form.(github := org.form.github);
      image.data := org.image;
      form := form.(description := org.form.description);
    }

    /**
     * `reset`: defaults first; then, for an existing organization, what the
     * store returns for `orgId`; loading always ends.
     */
    method Reset(fetched: Option<Fetched>)
      modifies this, image
      ensures !loading
      ensures orgId == "" || fetched.None? ==> form == DefaultForm && image.data == Empty
      ensures orgId != "" && fetched.Some? ==> form == fetched.value.form && image.data == fetched.value.image
      ensures orgId == old(orgId) && loadingText == old(loadingText)
    {
      SetDefaultData();
      if orgId != "" {
        SetOrgData(fetched);
      }
      loading := false;
    }

    /**
     * `add`: build the new document field by field and write it. `user` is the
     * signed-in user's uid (None: no user, so reading it throws before any
     * write); `outcome` is how the write settled. Only a resolved write
     * announces `on-add` and ends loading.
     */
    method Add(user: Option<string>, outcome: Outcome) returns (write: Option<Write>, events: seq<Event>)
      modifies this
      ensures user.None? ==> write == None
      ensures user.Some? ==> write == Some(Create(Collection, NewRecord(form, image.data, user.value)))
      ensures user.Some? && outcome == Resolved ==> events == [OnAdd] && !loading
      ensures user.None? || outcome == Rejected ==> events == [] && loading
      ensures loadingText == CreatingText
      ensures orgId == old(orgId) && form == old(form)
    {
      loading := true;
      loadingText := CreatingText;
      events := [];
      var org: Doc := map[];
      org := org[Created := ServerTimestamp];
      org := org[Updated := ServerTimestamp];
      if user.None? {
        write := None;
        return;
      }
      org := org[OwnerId := Text(user.value)];
      org := org[Sales := Number(0)];
      org := org[Verified := Flag(false)];
      org := org[TextInput(DisplayName) := Text(form.Input(DisplayName))];
      org := org[TextInput(Country) := Text(form.Input(Country))];
      org := org[TextInput(City) := Text(form.Input(City))];
      org := org[TextInput(Phone) := Text(form.Input(Phone))];
      org := org[TextInput(Website) := Text(form.Input(Website))];
      org := org[TextInput(Google) := Text(form.Input(Google))];
      org := org[TextInput(Facebook) := Text(form.Input(Facebook))];
      org := org[TextInput(Twitter) := Text(form.Input(Twitter))];
      org := org[TextInput(Github) := Text(form.Input(Github))];
      org := org[Image := ImageField(Fallback(image.data))];
      org := org[DescriptionField := RichText(form.description)];
      write := Some(Create(Collection, org));
      if outcome == Resolved {
        events := [OnAdd];
        loading := false;
      }
    }

    /**
     * `save`: build the partial update field by field and merge it into the
     * document `orgId`; only a resolved write announces `on-updated` and ends
     * loading.
     */
    method Save(outcome: Outcome) returns (write: Write, events: seq<Event>)
      modifies this
      ensures write == Update(Collection, orgId, UpdateOf(form, image.data))
      ensures outcome == Resolved ==> events == [OnUpdated] && !loading
      ensures outcome == Rejected ==> events == [] && loading
      ensures loadingText == SavingText
      ensures orgId == old(orgId) && form == old(form)
    {
      loading := true;
      loadingText := SavingText;
      events := [];
      var id := orgId;
      var updates: Doc := map[];
      updates := updates[Updated := ServerTimestamp];
      updates := updates[TextInput(DisplayName) := Text(form.Input(DisplayName))];
      updates := updates[TextInput(Country) := Text(form.Input(Country))];
      updates := updates[TextInput(City) := Text(form.Input(City))];
      updates := updates[TextInput(Phone) := Text(form.Input(Phone))];
      updates := updates[TextInput(Website) := Text(form.Input(Website))];
      updates := updates[TextInput(Google) := Text(form.Input(Google))];
      updates := updates[TextInput(Facebook) := Text(form.Input(Facebook))];
      updates := updates[TextInput(Twitter) := Text(form.Input(Twitter))];
      updates := updates[TextInput(Github) := Text(form.Input(Github))];
      updates := updates[Image := ImageField(Fallback(image.data))];
      updates := updates[DescriptionField := RichText(form.description)];
      write := Update(Collection, id, updates);
      if outcome == Resolved {
        events := [OnUpdated];
        loading := false;
      }
    }

    /** The submit button: `add` for a new organization, `save` for an existing one. */
    method Submit(user: Option<string>, outcome: Outcome) returns (write: Option<Write>, events: seq<Event>)
      modifies this
      ensures orgId == old(orgId) && form == old(form)
      ensures loadingText == if orgId == "" then CreatingText else SavingText
      ensures orgId == "" ==> write == if user.Some? then Some(Create(Collection, NewRecord(form, image.data, user.value))) else None
      ensures orgId != "" ==> write == Some(Update(Collection, orgId, UpdateOf(form, image.data)))
      ensures write.Some? ==> (write.value.Create? <==> Heading(orgId) == AddHeading && SubmitLabel(orgId) == AddLabel)
      ensures events == if write.Some? && outcome == Resolved then [if orgId == "" then OnAdd else OnUpdated] else []
      ensures loading <==> events == []
    {
      if orgId == "" {
        write, events := Add(user, outcome);
      } else {
        var w;
        w, events := Save(outcome);
        write := Some(w);
      }
    }
  }
}
