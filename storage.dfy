/** The record store: browser-local storage holding one whole collection per
    key, the typed repository operations built on it, and the `storage_sync`
    signal every repository write raises. Each repository operation reads the
    whole collection, transforms it and writes it back. */
module StorageService {
  import opened Types
  import Lists

  // The keys the repositories use; each collection has its own.
  const USERS_KEY: string := "zuca_all_users"
  const CHAT_KEY: string := "zuca_chat_history"
  const UPDATES_KEY: string := "zuca_updates"
  const PETITIONS_KEY: string := "zuca_petitions"
  const CHOIR_KEY: string := "zuca_choir_materials"
  const CURRENT_USER_KEY: string := "zuca_user"

  /** The value stored under a key: the deserialised JSON of one collection,
      of the signed-in user, or a plain text setting. */
  datatype Stored =
    | UserList(users: seq<User>)
    | ChatList(messages: seq<ChatMessage>)
    | UpdateList(posts: seq<UpdatePost>)
    | PetitionList(petitions: seq<PrayerPetition>)
    | ChoirList(materials: seq<ChoirMaterial>)
    | OneUser(user: User)
    | Text(text: string)

  /** The shape each known key holds; other keys may hold anything. */
  predicate Fits(key: string, v: Stored)
  {
    && (key == USERS_KEY ==> v.UserList?)
    && (key == CHAT_KEY ==> v.ChatList?)
    && (key == UPDATES_KEY ==> v.UpdateList?)
    && (key == PETITIONS_KEY ==> v.PetitionList?)
    && (key == CHOIR_KEY ==> v.ChoirList?)
    && (key == CURRENT_USER_KEY ==> v.OneUser?)
  }

  // ---- the list transforms of the repositories ----

  /** `saveUser` identifies a stored record with the new one by id or by email. */
  predicate SameAccount(stored: User, u: User)
  {
    stored.id == u.id || stored.email == u.email
  }

  /** `i` is the first position holding a record of the same account. */
  predicate IsFirstMatch(users: seq<User>, u: User, i: int)
  {
    && 0 <= i < |users|
    && SameAccount(users[i], u)
    && forall j :: 0 <= j < i ==> !SameAccount(users[j], u)
  }

  predicate NoMatch(users: seq<User>, u: User)
  {
    forall j :: 0 <= j < |users| ==> !SameAccount(users[j], u)
  }

  /** `findIndex`: the first position of a same-account record, or -1. */
  function MatchIndex(users: seq<User>, u: User): (i: int)
    ensures i == -1 <==> NoMatch(users, u)
    ensures i != -1 ==> IsFirstMatch(users, u, i)
  {
    if users == [] then -1
    else if SameAccount(users[0], u) then 0
    else
      var k := MatchIndex(users[1..], u);
      if k == -1 then -1 else k + 1
  }

  /** The users collection after `saveUser(u)`: the first record with the same
      id or email is replaced where it stands; without one, `u` is appended. */
  function Upsert(users: seq<User>, u: User): (r: seq<User>)
    ensures u in r
    ensures forall i :: IsFirstMatch(users, u, i) ==> r == users[i := u]
    ensures NoMatch(users, u) ==> r == users + [u]
  {
    var i := MatchIndex(users, u);
    if i > -1 then
      assert users[i := u][i] == u;
      users[i := u]
    else
      assert (users + [u])[|users|] == u;
      users + [u]
  }

  /** One `likePetition`: every petition with that id gains one like. */
  function LikeById(petitions: seq<PrayerPetition>, id: string): (r: seq<PrayerPetition>)
    ensures |r| == |petitions|
    ensures forall i :: 0 <= i < |r| ==>
      && r[i].likes == petitions[i].likes + (if petitions[i].id == id then 1 else 0)
      && r[i].(likes := petitions[i].likes) == petitions[i]
  {
    seq(|petitions|, i requires 0 <= i < |petitions| =>
      if petitions[i].id == id then petitions[i].(likes := petitions[i].likes + 1) else petitions[i])
  }

  /** `n` successive likes of the same petition. */
  function LikeTimes(petitions: seq<PrayerPetition>, id: string, n: nat): (r: seq<PrayerPetition>)
    ensures |r| == |petitions|
  {
    if n == 0 then petitions else LikeById(LikeTimes(petitions, id, n - 1), id)
  }

  // ---- properties of the transforms ----

  /** The collection grows by one exactly when no record matched; otherwise
      every record but the replaced one is untouched. */
  lemma UpsertShape(users: seq<User>, u: User)
    ensures |Upsert(users, u)| == |users| + (if NoMatch(users, u) then 1 else 0)
    ensures forall j :: 0 <= j < |users| && !IsFirstMatch(users, u, j) ==> Upsert(users, u)[j] == users[j]
  {
    var i := MatchIndex(users, u);
    if i != -1 {
      forall j | 0 <= j < |users| && !IsFirstMatch(users, u, j) ensures Upsert(users, u)[j] == users[j] {
        assert j != i;
      }
    }
  }

  /** Saving the same record twice leaves the collection as saving it once. */
  lemma UpsertIdempotent(users: seq<User>, u: User)
    ensures Upsert(Upsert(users, u), u) == Upsert(users, u)
  {
    var r := Upsert(users, u);
    var i := MatchIndex(users, u);
    if i == -1 {
      assert r == users + [u];
      assert IsFirstMatch(r, u, |users|);
      assert r[|users| := u] == r;
    } else {
      assert r == users[i := u];
      assert IsFirstMatch(r, u, i);
      assert r[i := u] == r;
    }
  }

  /** After `n` likes, a petition carrying `id` has exactly `n` more likes and
      every other field, every other petition and the order are unchanged. */
  lemma {:induction false} LikeTimesCounts(petitions: seq<PrayerPetition>, id: string, n: nat)
    ensures forall i :: 0 <= i < |petitions| ==>
      && LikeTimes(petitions, id, n)[i].likes == petitions[i].likes + (if petitions[i].id == id then n else 0)
      && LikeTimes(petitions, id, n)[i].(likes := petitions[i].likes) == petitions[i]
  {
    if n > 0 {
      LikeTimesCounts(petitions, id, n - 1);
    }
  }

  // ---- reading the stored items ----

  /** `get(key, fallback)`: the stored value, or the caller's default when
      the key holds nothing. */
  function Lookup(items: map<string, Stored>, key: string, fallback: Stored): (v: Stored)
    ensures key !in items ==> v == fallback
    ensures key in items ==> v == items[key]
  {
    if key in items then items[key] else fallback
  }

  /** `getUsers`: the users collection, empty when none is stored. */
  function UsersIn(items: map<string, Stored>): (us: seq<User>)
    ensures USERS_KEY !in items ==> us == []
    ensures USERS_KEY in items && items[USERS_KEY].UserList? ==> us == items[USERS_KEY].users
  {
    match Lookup(items, USERS_KEY, UserList([]))
    case UserList(us) => us
    case _ => []
  }

  /** `getChat`: the chat history, empty when none is stored. */
  function ChatIn(items: map<string, Stored>): (ms: seq<ChatMessage>)
    ensures CHAT_KEY !in items ==> ms == []
    ensures CHAT_KEY in items && items[CHAT_KEY].ChatList? ==> ms == items[CHAT_KEY].messages
  {
    match Lookup(items, CHAT_KEY, ChatList([]))
    case ChatList(ms) => ms
    case _ => []
  }

  /** `getUpdates`: the announcements, empty when none are stored. */
  function UpdatesIn(items: map<string, Stored>): (ps: seq<UpdatePost>)
    ensures UPDATES_KEY !in items ==> ps == []
    ensures UPDATES_KEY in items && items[UPDATES_KEY].UpdateList? ==> ps == items[UPDATES_KEY].posts
  {
    match Lookup(items, UPDATES_KEY, UpdateList([]))
    case UpdateList(ps) => ps
    case _ => []
  }

  /** `getPetitions`: the prayer wall, empty when none is stored. */
  function PetitionsIn(items: map<string, Stored>): (ps: seq<PrayerPetition>)
    ensures PETITIONS_KEY !in items ==> ps == []
    ensures PETITIONS_KEY in items && items[PETITIONS_KEY].PetitionList? ==> ps == items[PETITIONS_KEY].petitions
  {
    match Lookup(items, PETITIONS_KEY, PetitionList([]))
    case PetitionList(ps) => ps
    case _ => []
  }

  /** `getChoir`: the choir materials, empty when none are stored. */
  function ChoirIn(items: map<string, Stored>): (cs: seq<ChoirMaterial>)
    ensures CHOIR_KEY !in items ==> cs == []
    ensures CHOIR_KEY in items && items[CHOIR_KEY].ChoirList? ==> cs == items[CHOIR_KEY].materials
  {
    match Lookup(items, CHOIR_KEY, ChoirList([]))
    case ChoirList(cs) => cs
    case _ => []
  }

  /** The signed-in user kept under its own key, if any. */
  function CurrentUserIn(items: map<string, Stored>): (u: Option<User>)
    ensures CURRENT_USER_KEY !in items ==> u == None
    ensures u.Some? ==> CURRENT_USER_KEY in items && items[CURRENT_USER_KEY] == OneUser(u.value)
  {
    if CURRENT_USER_KEY in items && items[CURRENT_USER_KEY].OneUser?
    then Some(items[CURRENT_USER_KEY].user) else None
  }

  /** Every reading the app makes of the store agrees between `a` and `b`,
      except possibly the one under `key`. */
  predicate SameReadingsExcept(a: map<string, Stored>, b: map<string, Stored>, key: string)
  {
    && (key != USERS_KEY ==> (USERS_KEY in a <==> USERS_KEY in b) && UsersIn(a) == UsersIn(b))
    && (key != CHAT_KEY ==> ChatIn(a) == ChatIn(b))
    && (key != UPDATES_KEY ==> UpdatesIn(a) == UpdatesIn(b))
    && (key != PETITIONS_KEY ==> PetitionsIn(a) == PetitionsIn(b))
    && (key != CHOIR_KEY ==> ChoirIn(a) == ChoirIn(b))
    && (key != CURRENT_USER_KEY ==> CurrentUserIn(a) == CurrentUserIn(b))
  }

  /** A value written under a key is what `get` returns for it afterwards,
      a removed key reads as the default, and every other key reads as
      before. */
  lemma ReadAfterWrite(items: map<string, Stored>, key: string, v: Stored, other: string, fallback: Stored)
    ensures Lookup(items[key := v], key, fallback) == v
    ensures Lookup(items - {key}, key, fallback) == fallback
    ensures other != key ==> Lookup(items[key := v], other, fallback) == Lookup(items, other, fallback)
    ensures other != key ==> Lookup(items - {key}, other, fallback) == Lookup(items, other, fallback)
  {
  }

  /** Each collection written through its key reads back as written. */
  lemma CollectionsReadBack(items: map<string, Stored>, us: seq<User>, ms: seq<ChatMessage>,
                            ps: seq<UpdatePost>, pe: seq<PrayerPetition>, cs: seq<ChoirMaterial>, u: User)
    ensures UsersIn(items[USERS_KEY := UserList(us)]) == us
    ensures ChatIn(items[CHAT_KEY := ChatList(ms)]) == ms
    ensures UpdatesIn(items[UPDATES_KEY := UpdateList(ps)]) == ps
    ensures PetitionsIn(items[PETITIONS_KEY := PetitionList(pe)]) == pe
    ensures ChoirIn(items[CHOIR_KEY := ChoirList(cs)]) == cs
    ensures CurrentUserIn(items[CURRENT_USER_KEY := OneUser(u)]) == Some(u)
    ensures CurrentUserIn(items - {CURRENT_USER_KEY}) == None
  {
  }

  /** Writing or removing one key changes no reading of any other
      collection: the keys are pairwise distinct. */
  lemma WriteIsolated(items: map<string, Stored>, key: string, v: Stored)
    ensures SameReadingsExcept(items, items[key := v], key)
    ensures SameReadingsExcept(items, items - {key}, key)
  {
  }

  // ---- the store ----

  /** localStorage together with the number of `storage_sync` events raised. */
  class RecordStore {
    var items: map<string, Stored>
    var syncEvents: nat

    ghost predicate Valid()
      reads this
    {
      forall k :: k in items ==> Fits(k, items[k])
    }

    constructor ()
      ensures Valid()
      ensures items == map[] && syncEvents == 0
    {
      items := map[];
      syncEvents := 0;
    }

    function Users(): seq<User>
      reads this
    {
      UsersIn(items)
    }

    /** What the leaderboard reads: the users collection if it is stored. */
    function SavedUsers(): (saved: Option<seq<User>>)
      reads this
      ensures saved.Some? <==> USERS_KEY in items
      ensures saved.Some? ==> saved.value == Users()
    {
      if USERS_KEY in items then Some(Users()) else None
    }

    function Chat(): seq<ChatMessage>
      reads this
    {
      ChatIn(items)
    }

    function Updates(): seq<UpdatePost>
      reads this
    {
      UpdatesIn(items)
    }

    function Petitions(): seq<PrayerPetition>
      reads this
    {
      PetitionsIn(items)
    }

    function Choir(): seq<ChoirMaterial>
      reads this
    {
      ChoirIn(items)
    }

    function SavedUser(): Option<User>
      reads this
    {
      CurrentUserIn(items)
    }

    /** `set(key, data)`: replaces the whole value under `key`, then raises
        one `storage_sync`. */
    method Set(key: string, v: Stored)
      requires Valid() && Fits(key, v)
      modifies this
      ensures Valid()
      ensures items == old(items)[key := v]
      ensures syncEvents == old(syncEvents) + 1
    {
      items := items[key := v];
      syncEvents := syncEvents + 1;
    }

    /** A direct `localStorage.setItem`, which raises no `storage_sync`. */
    method SetItem(key: string, v: Stored)
      requires Valid() && Fits(key, v)
      modifies this
      ensures Valid()
      ensures items == old(items)[key := v]
      ensures syncEvents == old(syncEvents)
    {
      items := items[key := v];
    }

    /** A direct `localStorage.removeItem`, which raises no `storage_sync`. */
    method RemoveItem(key: string)
      requires Valid()
      modifies this
      ensures Valid()
      ensures items == old(items) - {key}
      ensures syncEvents == old(syncEvents)
    {
      items := items - {key};
    }

    method SaveUser(u: User)
      requires Valid()
      modifies this
      ensures Valid()
      ensures items == old(items)[USERS_KEY := UserList(Upsert(old(Users()), u))]
      ensures SameReadingsExcept(old(items), items, USERS_KEY)
      ensures syncEvents == old(syncEvents) + 1
    {
      var users := Users();
      var idx := FindUserIndex(users, u);
      if idx > -1 {
        users := users[idx := u];
      } else {
        users := users + [u];
      }
      Set(USERS_KEY, UserList(users));
    }

    method AddChatMessage(m: ChatMessage)
      requires Valid()
      modifies this
      ensures Valid()
      ensures items == old(items)[CHAT_KEY := ChatList(old(Chat()) + [m])]
      ensures SameReadingsExcept(old(items), items, CHAT_KEY)
      ensures syncEvents == old(syncEvents) + 1
    {
      var history := Chat();
      Set(CHAT_KEY, ChatList(history + [m]));
    }

    method DeleteChatMessage(id: string)
      requires Valid()
      modifies this
      ensures Valid()
      ensures items == old(items)[CHAT_KEY := ChatList(Lists.Without(old(Chat()), id, MessageId))]
      ensures SameReadingsExcept(old(items), items, CHAT_KEY)
      ensures syncEvents == old(syncEvents) + 1
    {
      var history := Lists.Without(Chat(), id, MessageId);
      Set(CHAT_KEY, ChatList(history));
    }

    method AddUpdate(post: UpdatePost)
      requires Valid()
      modifies this
      ensures Valid()
      ensures items == old(items)[UPDATES_KEY := UpdateList([post] + old(Updates()))]
      ensures SameReadingsExcept(old(items), items, UPDATES_KEY)
      ensures syncEvents == old(syncEvents) + 1
    {
      var updates := [post] + Updates();
      Set(UPDATES_KEY, UpdateList(updates));
    }

    method DeleteUpdate(id: string)
      requires Valid()
      modifies this
      ensures Valid()
      ensures items == old(items)[UPDATES_KEY := UpdateList(Lists.Without(old(Updates()), id, PostId))]
      ensures SameReadingsExcept(old(items), items, UPDATES_KEY)
      ensures syncEvents == old(syncEvents) + 1
    {
      var updates := Lists.Without(Updates(), id, PostId);
      Set(UPDATES_KEY, UpdateList(updates));
    }

    method AddPetition(p: PrayerPetition)
      requires Valid()
      modifies this
      ensures Valid()
      ensures items == old(items)[PETITIONS_KEY := PetitionList([p] + old(Petitions()))]
      ensures SameReadingsExcept(old(items), items, PETITIONS_KEY)
      ensures syncEvents == old(syncEvents) + 1
    {
      var petitions := [p] + Petitions();
      Set(PETITIONS_KEY, PetitionList(petitions));
    }

    method DeletePetition(id: string)
      requires Valid()
      modifies this
      ensures Valid()
      ensures items == old(items)[PETITIONS_KEY := PetitionList(Lists.Without(old(Petitions()), id, PetitionId))]
      ensures SameReadingsExcept(old(items), items, PETITIONS_KEY)
      ensures syncEvents == old(syncEvents) + 1
    {
      var petitions := Lists.Without(Petitions(), id, PetitionId);
      Set(PETITIONS_KEY, PetitionList(petitions));
    }

    method LikePetition(id: string)
      requires Valid()
      modifies this
      ensures Valid()
      ensures items == old(items)[PETITIONS_KEY := PetitionList(LikeById(old(Petitions()), id))]
      ensures SameReadingsExcept(old(items), items, PETITIONS_KEY)
      ensures syncEvents == old(syncEvents) + 1
    {
      var petitions := LikeById(Petitions(), id);
      Set(PETITIONS_KEY, PetitionList(petitions));
    }

    method AddChoirMaterial(item: ChoirMaterial)
      requires Valid()
      modifies this
      ensures Valid()
      ensures items == old(items)[CHOIR_KEY := ChoirList([item] + old(Choir()))]
      ensures SameReadingsExcept(old(items), items, CHOIR_KEY)
      ensures syncEvents == old(syncEvents) + 1
    {
      var choir := [item] + Choir();
      Set(CHOIR_KEY, ChoirList(choir));
    }

    method DeleteChoirMaterial(id: string)
      requires Valid()
      modifies this
      ensures Valid()
      ensures items == old(items)[CHOIR_KEY := ChoirList(Lists.Without(old(Choir()), id, MaterialId))]
      ensures SameReadingsExcept(old(items), items, CHOIR_KEY)
      ensures syncEvents == old(syncEvents) + 1
    {
      var choir := Lists.Without(Choir(), id, MaterialId);
      Set(CHOIR_KEY, ChoirList(choir));
    }
  }

  /** `users.findIndex(u => u.id === user.id || u.email === user.email)`. */
  method FindUserIndex(users: seq<User>, u: User) returns (idx: int)
    ensures idx == -1 <==> NoMatch(users, u)
    ensures idx != -1 ==> IsFirstMatch(users, u, idx)
  {
    var i := 0;
    while i < |users|
      invariant 0 <= i <= |users|
      invariant forall j :: 0 <= j < i ==> !SameAccount(users[j], u)
    {
      if SameAccount(users[i], u) {
        return i;
      }
      i := i + 1;
    }
    return -1;
  }
}
