/** Community updates: posts newest first, a category filter, and posting and
    removal of posts. */
module UpdatesPage {
  import opened Types
  import Lists
  import StorageService

  const UNTITLED: string := "Untitled"

  /** The filter buttons: every post, or one category. */
  datatype UpdateFilter = AllPosts | OnlyCategory(category: UpdateCategory)

  /** The form; an image not chosen is the empty text. */
  datatype UpdateForm = UpdateForm(title: string, content: string, category: UpdateCategory, image: string)

  const EMPTY_FORM: UpdateForm := UpdateForm("", "", Event, "")

  /** The posts a filter shows, in wall order. */
  function Filtered(posts: seq<UpdatePost>, f: UpdateFilter): (r: seq<UpdatePost>)
    ensures f.AllPosts? ==> r == posts
    ensures forall x :: x in r <==> x in posts && (f.AllPosts? || x.category == f.category)
    ensures |r| <= |posts|
  {
    if f.AllPosts? || posts == [] then posts
    else if posts[0].category == f.category then [posts[0]] + Filtered(posts[1..], f)
    else Filtered(posts[1..], f)
  }

  /** The number of posts in one category. */
  function CountIn(posts: seq<UpdatePost>, c: UpdateCategory): nat
  {
    if posts == [] then 0 else (if posts[0].category == c then 1 else 0) + CountIn(posts[1..], c)
  }

  /** The post `handleSubmit` builds: an empty title becomes "Untitled"; the
      image is kept even when it is the empty text. */
  function NewUpdate(form: UpdateForm, user: User, id: string, now: string): (p: UpdatePost)
    ensures p.id == id && p.userId == user.id && p.date == now
    ensures p.title != ""
    ensures form.title != "" ==> p.title == form.title
    ensures form.title == "" ==> p.title == UNTITLED
    ensures p.content == form.content && p.category == form.category
    ensures p.image == Some(form.image)
  {
    UpdatePost(id, user.id, if form.title != "" then form.title else UNTITLED,
               form.content, now, Some(form.image), form.category)
  }

  /** The delete control: for the author and for Trainers. */
  predicate ShowsDelete(p: UpdatePost, viewer: User)
  {
    p.userId == viewer.id || viewer.role == Trainer
  }

  // ---- properties ----

  /** A category filter shows exactly the posts of that category. */
  lemma {:induction false} FilteredLength(posts: seq<UpdatePost>, c: UpdateCategory)
    ensures |Filtered(posts, OnlyCategory(c))| == CountIn(posts, c)
  {
    if posts != [] {
      FilteredLength(posts[1..], c);
    }
  }

  /** The three category filters split the wall: every post shows under
      exactly one of them. */
  lemma {:induction false} FiltersPartition(posts: seq<UpdatePost>)
    ensures CountIn(posts, Event) + CountIn(posts, Notice) + CountIn(posts, Spiritual) == |posts|
  {
    if posts != [] {
      FiltersPartition(posts[1..]);
    }
  }

  /** A filter keeps or drops a single post by its category alone. */
  lemma FilteredOne(p: UpdatePost, f: UpdateFilter)
    ensures Filtered([p], f) == if f.AllPosts? || p.category == f.category then [p] else []
  {
    assert [p][1..] == [];
  }

  /** Filtering the concatenation of two walls concatenates their filtered
      walls: the posts shown keep their relative order. */
  lemma {:induction false} FilteredConcat(a: seq<UpdatePost>, b: seq<UpdatePost>, f: UpdateFilter)
    ensures Filtered(a + b, f) == Filtered(a, f) + Filtered(b, f)
  {
    if a == [] {
      assert a + b == b;
    } else if !f.AllPosts? {
      assert (a + b)[0] == a[0];
      assert (a + b)[1..] == a[1..] + b;
      FilteredConcat(a[1..], b, f);
    }
  }

  /** The delete control: a Trainer sees it on every post, anyone else
      exactly on their own. */
  lemma DeleteRights(p: UpdatePost, viewer: User)
    ensures viewer.role == Trainer ==> ShowsDelete(p, viewer)
    ensures viewer.role != Trainer ==> (ShowsDelete(p, viewer) <==> p.userId == viewer.id)
  {
  }

  /** A new post appears first under "All" and under its own category. */
  lemma NewPostOnTop(form: UpdateForm, user: User, id: string, now: string, posts: seq<UpdatePost>)
    ensures Filtered([NewUpdate(form, user, id, now)] + posts, AllPosts)[0] == NewUpdate(form, user, id, now)
    ensures Filtered([NewUpdate(form, user, id, now)] + posts, OnlyCategory(form.category))
         == [NewUpdate(form, user, id, now)] + Filtered(posts, OnlyCategory(form.category))
  {
    var all := [NewUpdate(form, user, id, now)] + posts;
    assert all[1..] == posts;
  }

  /** The state of the updates page over the record store. */
  class UpdatesState {
    var updates: seq<UpdatePost>
    var filter: UpdateFilter
    var isAdding: bool
    var form: UpdateForm
    const user: User
    const store: StorageService.RecordStore

    ghost predicate Valid()
      reads this, store
    {
      store.Valid()
    }

    constructor (user: User, store: StorageService.RecordStore)
      requires store.Valid()
      ensures Valid() && this.user == user && this.store == store
      ensures updates == [] && filter == AllPosts && !isAdding && form == EMPTY_FORM
    {
      this.user := user;
      this.store := store;
      updates := [];
      filter := AllPosts;
      isAdding := false;
      form := EMPTY_FORM;
    }

    /** The posts on screen. */
    function Visible(): seq<UpdatePost>
      reads this
    {
      Filtered(updates, filter)
    }

    /** `refreshData`, run on mount and on every `storage_sync`. */
    method Refresh()
      modifies this
      ensures updates == store.Updates()
      ensures filter == old(filter) && isAdding == old(isAdding) && form == old(form)
    {
      updates := store.Updates();
    }

    method SetFilter(f: UpdateFilter)
      modifies this
      ensures filter == f
      ensures updates == old(updates) && isAdding == old(isAdding) && form == old(form)
    {
      filter := f;
    }

    /** "Post Update" opens the form; "Cancel" closes it. */
    method SetAdding(open: bool)
      modifies this
      ensures isAdding == open
      ensures updates == old(updates) && filter == old(filter) && form == old(form)
    {
      isAdding := open;
    }

    method EditForm(f: UpdateForm)
      modifies this
      ensures form == f
      ensures updates == old(updates) && filter == old(filter) && isAdding == old(isAdding)
    {
      form := f;
    }

    /** `handleImageUpload`, once the file has been read. */
    method HandleImageUpload(data: string)
      modifies this
      ensures form == old(form).(image := data)
      ensures updates == old(updates) && filter == old(filter) && isAdding == old(isAdding)
    {
      form := form.(image := data);
    }

    /** `handleSubmit`: posts on top of the wall, closes and resets the form;
        returns the title handed to `onNewUpdate`. */
    method HandleSubmit(id: string, now: string) returns (announced: string)
      requires Valid()
      modifies this, store
      ensures Valid()
      ensures store.items == old(store.items)[StorageService.UPDATES_KEY :=
                StorageService.UpdateList([NewUpdate(old(form), user, id, now)] + old(store.Updates()))]
      ensures store.syncEvents == old(store.syncEvents) + 1
      ensures updates == store.Updates()
      ensures announced == NewUpdate(old(form), user, id, now).title
      ensures !isAdding && form == EMPTY_FORM && filter == old(filter)
    {
      var post := NewUpdate(form, user, id, now);
      store.AddUpdate(post);
      Refresh();
      announced := post.title;
      isAdding := false;
      form := EMPTY_FORM;
    }

    /** `handleDelete`: removes the post once the user confirms. */
    method HandleDelete(id: string, confirmed: bool)
      requires Valid()
      modifies this, store
      ensures Valid()
      ensures !confirmed ==> unchanged(this) && unchanged(store)
      ensures confirmed ==>
        && store.items == old(store.items)[StorageService.UPDATES_KEY :=
             StorageService.UpdateList(Lists.Without(old(store.Updates()), id, PostId))]
        && store.syncEvents == old(store.syncEvents) + 1
        && updates == store.Updates()
      ensures filter == old(filter) && isAdding == old(isAdding) && form == old(form)
    {
      if confirmed {
        store.DeleteUpdate(id);
        Refresh();
      }
    }
  }
}
