/** The prayer wall: petitions newest first, "Amen" likes, and removal by the
    author or a Trainer. */
module PetitionsPage {
  import opened Types
  import opened Text
  import Lists
  import StorageService

  const SYSTEM_ID: string := "system"

  /** The petition `handleCreate` builds; it starts with no likes. */
  function NewPetition(user: User, content: string, id: string, now: int): (p: PrayerPetition)
    ensures p.id == id && p.timestamp == now && p.likes == 0
    ensures p.userId == user.id && p.userName == user.name && p.content == content
  {
    PrayerPetition(id, user.id, user.name, content, now, 0)
  }

  /** The author and Trainers manage a petition. */
  predicate CanManage(p: PrayerPetition, viewer: User)
  {
    p.userId == viewer.id || viewer.role == Trainer
  }

  /** The delete control: for those who manage it, except on system petitions. */
  predicate ShowsDelete(p: PrayerPetition, viewer: User)
  {
    CanManage(p, viewer) && p.userId != SYSTEM_ID
  }

  // ---- properties ----

  /** A new petition liked `n` times shows `n` likes, and the petitions below
      it are untouched. */
  lemma NewPetitionLikes(user: User, content: string, id: string, now: int, ps: seq<PrayerPetition>, n: nat)
    requires forall i :: 0 <= i < |ps| ==> ps[i].id != id
    ensures StorageService.LikeTimes([NewPetition(user, content, id, now)] + ps, id, n)[0].likes == n
    ensures StorageService.LikeTimes([NewPetition(user, content, id, now)] + ps, id, n)[1..] == ps
  {
    var all := [NewPetition(user, content, id, now)] + ps;
    StorageService.LikeTimesCounts(all, id, n);
    var r := StorageService.LikeTimes(all, id, n);
    forall i | 0 <= i < |ps| ensures r[1..][i] == ps[i] {
      assert all[i + 1] == ps[i];
      assert r[i + 1].likes == ps[i].likes;
    }
  }

  /** Deleting a petition just created under a fresh id gives back the wall
      as it was. */
  lemma CreateThenDelete(p: PrayerPetition, ps: seq<PrayerPetition>)
    requires forall i :: 0 <= i < |ps| ==> ps[i].id != p.id
    ensures Lists.Without([p] + ps, p.id, PetitionId) == ps
  {
    Lists.WithoutConcat([p], ps, p.id, PetitionId);
    Lists.WithoutAbsent(ps, p.id, PetitionId);
    assert Lists.Without([p], p.id, PetitionId) == [];
  }

  /** A Trainer is offered deletion of every petition but the system's; other
      users only of their own. */
  lemma DeleteRights(p: PrayerPetition, viewer: User)
    requires p.userId != SYSTEM_ID
    ensures viewer.role == Trainer ==> ShowsDelete(p, viewer)
    ensures viewer.role != Trainer ==> (ShowsDelete(p, viewer) <==> p.userId == viewer.id)
  {
  }

  /** The state of the prayer wall over the record store. */
  class PetitionsState {
    var petitions: seq<PrayerPetition>
    var isAdding: bool
    var newContent: string
    const user: User
    const store: StorageService.RecordStore

    ghost predicate Valid()
      reads this, store
    {
      store.Valid()
    }

    constructor (user: User, store: StorageService.RecordStore)
      requires store.Valid()
      ensures Valid() && this.user == user && this.store == store
      ensures petitions == [] && !isAdding && newContent == ""
    {
      this.user := user;
      this.store := store;
      petitions := [];
      isAdding := false;
      newContent := "";
    }

    /** `refreshData`, run on mount and on every `storage_sync`. */
    method Refresh()
      modifies this
      ensures petitions == store.Petitions()
      ensures isAdding == old(isAdding) && newContent == old(newContent)
    {
      petitions := store.Petitions();
    }

    /** "Request Prayer" opens the form; "Cancel" closes it. */
    method SetAdding(open: bool)
      modifies this
      ensures isAdding == open
      ensures petitions == old(petitions) && newContent == old(newContent)
    {
      isAdding := open;
    }

    method EditContent(text: string)
      modifies this
      ensures newContent == text
      ensures petitions == old(petitions) && isAdding == old(isAdding)
    {
      newContent := text;
    }

    /** `handleCreate`: a non-blank petition goes on top of the wall and the
        form closes and clears; a blank one changes nothing. */
    method HandleCreate(id: string, now: int)
      requires Valid()
      modifies this, store
      ensures Valid()
      ensures IsBlank(old(newContent)) ==> unchanged(this) && unchanged(store)
      ensures !IsBlank(old(newContent)) ==>
        && store.items == old(store.items)[StorageService.PETITIONS_KEY :=
             StorageService.PetitionList([NewPetition(user, old(newContent), id, now)] + old(store.Petitions()))]
        && store.syncEvents == old(store.syncEvents) + 1
        && petitions == store.Petitions()
        && newContent == "" && !isAdding
    {
      if IsBlank(newContent) {
        return;
      }
      store.AddPetition(NewPetition(user, newContent, id, now));
      Refresh();
      newContent := "";
      isAdding := false;
    }

    /** `handleDelete`: removes the petition once the user confirms. */
    method HandleDelete(id: string, confirmed: bool)
      requires Valid()
      modifies this, store
      ensures Valid()
      ensures !confirmed ==> unchanged(this) && unchanged(store)
      ensures confirmed ==>
        && store.items == old(store.items)[StorageService.PETITIONS_KEY :=
             StorageService.PetitionList(Lists.Without(old(store.Petitions()), id, PetitionId))]
        && store.syncEvents == old(store.syncEvents) + 1
        && petitions == store.Petitions()
      ensures isAdding == old(isAdding) && newContent == old(newContent)
    {
      if confirmed {
        store.DeletePetition(id);
        Refresh();
      }
    }

    /** `handleLike`: one more "Amen" for the petition. */
    method HandleLike(id: string)
      requires Valid()
      modifies this, store
      ensures Valid()
      ensures store.items == old(store.items)[StorageService.PETITIONS_KEY :=
                StorageService.PetitionList(StorageService.LikeById(old(store.Petitions()), id))]
      ensures store.syncEvents == old(store.syncEvents) + 1
      ensures petitions == store.Petitions()
      ensures isAdding == old(isAdding) && newContent == old(newContent)
    {
      store.LikePetition(id);
      Refresh();
    }
  }
}
