/** The choir treasury: shared recordings, videos and sheet music, a kind
    filter, and upload and removal of materials. */
module ChoirPage {
  import opened Types
  import Lists
  import StorageService

  /** The filter buttons: every material, or one kind. */
  datatype ChoirFilter = AllMaterials | OnlyKind(kind: MediaType)

  /** The upload form; `url` holds the file's contents once it has been read,
      and stays empty until then. */
  datatype ChoirForm = ChoirForm(title: string, description: string, kind: MediaType, url: string, fileName: string)

  const EMPTY_FORM: ChoirForm := ChoirForm("", "", Audio, "", "")

  /** Why an upload is refused: no file was read. */
  datatype UploadError = NoFile

  /** The materials a filter shows, in treasury order. */
  function Filtered(materials: seq<ChoirMaterial>, f: ChoirFilter): (r: seq<ChoirMaterial>)
    ensures f.AllMaterials? ==> r == materials
    ensures forall x :: x in r <==> x in materials && (f.AllMaterials? || x.kind == f.kind)
    ensures |r| <= |materials|
  {
    if f.AllMaterials? || materials == [] then materials
    else if materials[0].kind == f.kind then [materials[0]] + Filtered(materials[1..], f)
    else Filtered(materials[1..], f)
  }

  /** `handleSubmit` without the side effects: the material to store, or the
      refusal when no file has been read. */
  function NewMaterial(form: ChoirForm, user: User, id: string, now: int): (r: Result<ChoirMaterial, UploadError>)
    ensures r.Err? <==> form.url == ""
    ensures r.Ok? ==>
      && r.value.id == id && r.value.timestamp == now
      && r.value.title == form.title && r.value.description == form.description
      && r.value.kind == form.kind && r.value.url == form.url
      && r.value.fileName == Some(form.fileName)
      && r.value.uploadedBy == user.id && r.value.uploaderName == user.name
  {
    if form.url == "" then Err(NoFile)
    else Ok(ChoirMaterial(id, form.title, form.description, form.kind, form.url,
                          Some(form.fileName), user.id, user.name, now))
  }

  /** The delete control: for the uploader and for Trainers. */
  predicate ShowsDelete(m: ChoirMaterial, viewer: User)
  {
    m.uploadedBy == viewer.id || viewer.role == Trainer
  }

  // ---- properties ----

  /** Filtering twice by the same kind is filtering once. */
  lemma {:induction false} FilterIdempotent(materials: seq<ChoirMaterial>, f: ChoirFilter)
    ensures Filtered(Filtered(materials, f), f) == Filtered(materials, f)
  {
    if !f.AllMaterials? && materials != [] {
      FilterIdempotent(materials[1..], f);
      if materials[0].kind == f.kind {
        assert ([materials[0]] + Filtered(materials[1..], f))[1..] == Filtered(materials[1..], f);
      }
    }
  }

  /** A filter keeps or drops a single material by its kind alone. */
  lemma FilteredOne(m: ChoirMaterial, f: ChoirFilter)
    ensures Filtered([m], f) == if f.AllMaterials? || m.kind == f.kind then [m] else []
  {
    assert [m][1..] == [];
  }

  /** Filtering the concatenation of two lists concatenates their filtered
      lists: the materials shown keep their relative order. */
  lemma {:induction false} FilteredConcat(a: seq<ChoirMaterial>, b: seq<ChoirMaterial>, f: ChoirFilter)
    ensures Filtered(a + b, f) == Filtered(a, f) + Filtered(b, f)
  {
    if a == [] {
      assert a + b == b;
    } else if !f.AllMaterials? {
      assert (a + b)[0] == a[0];
      assert (a + b)[1..] == a[1..] + b;
      FilteredConcat(a[1..], b, f);
    }
  }

  /** The delete control: a Trainer sees it on every material, anyone else
      exactly on their own uploads. */
  lemma DeleteRights(m: ChoirMaterial, viewer: User)
    ensures viewer.role == Trainer ==> ShowsDelete(m, viewer)
    ensures viewer.role != Trainer ==> (ShowsDelete(m, viewer) <==> m.uploadedBy == viewer.id)
  {
  }

  /** A stored upload shows first under "all" and under its own kind. */
  lemma UploadOnTop(form: ChoirForm, user: User, id: string, now: int, materials: seq<ChoirMaterial>)
    requires form.url != ""
    ensures Filtered([NewMaterial(form, user, id, now).value] + materials, OnlyKind(form.kind))
         == [NewMaterial(form, user, id, now).value] + Filtered(materials, OnlyKind(form.kind))
  {
    var all := [NewMaterial(form, user, id, now).value] + materials;
    assert all[1..] == materials;
  }

  /** The state of the choir page over the record store. */
  class ChoirState {
    var materials: seq<ChoirMaterial>
    var isAdding: bool
    var filter: ChoirFilter
    var form: ChoirForm
    const user: User
    const store: StorageService.RecordStore

    ghost predicate Valid()
      reads this, store
    {
      store.Valid()
    }

    constructor (user: User, store: StorageService.RecordStore)
      requires store.Valid()
      ensures Valid() && this.user == user && this.store == store
      ensures materials == [] && !isAdding && filter == AllMaterials && form == EMPTY_FORM
    {
      this.user := user;
      this.store := store;
      materials := [];
      isAdding := false;
      filter := AllMaterials;
      form := EMPTY_FORM;
    }

    /** The materials on screen. */
    function Visible(): seq<ChoirMaterial>
      reads this
    {
      Filtered(materials, filter)
    }

    /** `refreshData`, run on mount and on every `storage_sync`. */
    method Refresh()
      modifies this
      ensures materials == store.Choir()
      ensures isAdding == old(isAdding) && filter == old(filter) && form == old(form)
    {
      materials := store.Choir();
    }

    method SetFilter(f: ChoirFilter)
      modifies this
      ensures filter == f
      ensures materials == old(materials) && isAdding == old(isAdding) && form == old(form)
    {
      filter := f;
    }

    /** "Upload" opens the form; "Cancel" closes it. */
    method SetAdding(open: bool)
      modifies this
      ensures isAdding == open
      ensures materials == old(materials) && filter == old(filter) && form == old(form)
    {
      isAdding := open;
    }

    method EditForm(f: ChoirForm)
      modifies this
      ensures form == f
      ensures materials == old(materials) && filter == old(filter) && isAdding == old(isAdding)
    {
      form := f;
    }

    /** `handleFileUpload`, once the file has been read: its contents and its
        name go into the form. */
    method HandleFileUpload(data: string, name: string)
      modifies this
      ensures form == old(form).(url := data, fileName := name)
      ensures materials == old(materials) && filter == old(filter) && isAdding == old(isAdding)
    {
      form := form.(url := data, fileName := name);
    }

    /** `handleSubmit`: with no file read the upload is refused and nothing
        changes; otherwise the material goes on top and the form closes and
        resets. */
    method HandleSubmit(id: string, now: int) returns (r: Result<ChoirMaterial, UploadError>)
      requires Valid()
      modifies this, store
      ensures Valid()
      ensures r == NewMaterial(old(form), user, id, now)
      ensures r.Err? ==> unchanged(this) && unchanged(store)
      ensures r.Ok? ==>
        && store.items == old(store.items)[StorageService.CHOIR_KEY :=
             StorageService.ChoirList([r.value] + old(store.Choir()))]
        && store.syncEvents == old(store.syncEvents) + 1
        && materials == store.Choir()
        && !isAdding && form == EMPTY_FORM && filter == old(filter)
    {
      r := NewMaterial(form, user, id, now);
      if r.Err? {
        return;
      }
      store.AddChoirMaterial(r.value);
      Refresh();
      isAdding := false;
      form := EMPTY_FORM;
    }

    /** `handleDelete`: removes the material once the user confirms. */
    method HandleDelete(id: string, confirmed: bool)
      requires Valid()
      modifies this, store
      ensures Valid()
      ensures !confirmed ==> unchanged(this) && unchanged(store)
      ensures confirmed ==>
        && store.items == old(store.items)[StorageService.CHOIR_KEY :=
             StorageService.ChoirList(Lists.Without(old(store.Choir()), id, MaterialId))]
        && store.syncEvents == old(store.syncEvents) + 1
        && materials == store.Choir()
      ensures isAdding == old(isAdding) && filter == old(filter) && form == old(form)
    {
      if confirmed {
        store.DeleteChoirMaterial(id);
        Refresh();
      }
    }
  }
}
