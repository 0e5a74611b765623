/** The application shell: who is signed in, the active view, the theme, the
    notification stack and the mobile menu, kept in step with the record
    store. */
module App {
  import opened Types
  import Lists
  import StorageService

  const THEME_KEY: string := "zuca_theme"
  const DARK: string := "dark"
  const LIGHT: string := "light"

  /** The text the theme effect writes. */
  function ThemeValue(isDark: bool): (v: string)
    ensures v == DARK || v == LIGHT
    ensures v == DARK <==> isDark
  {
    assert LIGHT != DARK by { assert LIGHT[0] != DARK[0]; }
    if isDark then DARK else LIGHT
  }

  /** The initial theme: dark exactly when the stored setting is "dark". */
  function ThemeFromStored(saved: Option<StorageService.Stored>): bool
  {
    saved == Some(StorageService.Text(DARK))
  }

  /** Nothing stored, "light", or any other spelling of "dark" starts in
      light mode; only the exact text "dark" starts in dark mode. */
  lemma ThemeDefaultsLight()
    ensures !ThemeFromStored(None)
    ensures !ThemeFromStored(Some(StorageService.Text(LIGHT)))
    ensures !ThemeFromStored(Some(StorageService.Text("Dark")))
    ensures !ThemeFromStored(Some(StorageService.Text("")))
    ensures ThemeFromStored(Some(StorageService.Text("dark")))
  {
    assert LIGHT[0] != DARK[0];
    assert "Dark"[0] != DARK[0];
  }

  /** Writing the theme and reading it back at the next start gives the same
      theme. */
  lemma ThemeRoundTrip(isDark: bool)
    ensures ThemeFromStored(Some(StorageService.Text(ThemeValue(isDark)))) == isDark
  {
    assert isDark || ThemeValue(isDark) == LIGHT;
    assert LIGHT != DARK by { assert LIGHT[0] != DARK[0]; }
  }

  /** What fills the screen. */
  datatype Screen =
    | SignIn
    | HeroScreen
    | TriviaScreen
    | ChatScreen
    | ProfileScreen
    | UpdatesScreen
    | PetitionsScreen
    | FaithAIScreen
    | ChoirScreen

  /** `renderView`, behind the sign-in gate: without a user only the sign-in
      form shows; otherwise each view has its own page. */
  function RenderScreen(user: Option<User>, view: View): (s: Screen)
    ensures user.None? <==> s == SignIn
    ensures user.Some? ==> (s == HeroScreen <==> view == Home)
    ensures user.Some? ==> (s == TriviaScreen <==> view == Trivia)
    ensures user.Some? ==> (s == ChatScreen <==> view == Chat)
    ensures user.Some? ==> (s == ProfileScreen <==> view == Profile)
    ensures user.Some? ==> (s == UpdatesScreen <==> view == Updates)
    ensures user.Some? ==> (s == PetitionsScreen <==> view == Petitions)
    ensures user.Some? ==> (s == FaithAIScreen <==> view == FaithAI)
    ensures user.Some? ==> (s == ChoirScreen <==> view == Choir)
  {
    if user.None? then SignIn
    else
      match view
      case Home => HeroScreen
      case Trivia => TriviaScreen
      case Chat => ChatScreen
      case Profile => ProfileScreen
      case Updates => UpdatesScreen
      case Petitions => PetitionsScreen
      case FaithAI => FaithAIScreen
      case Choir => ChoirScreen
  }

  /** The greeting pushed on sign-in; the user's name can be read back from
      it. */
  function WelcomeMessage(u: User): (msg: string)
    ensures |msg| == |u.name| + 10
    ensures msg[..9] == "Welcome, " && msg[9..|msg| - 1] == u.name && msg[|msg| - 1] == '!'
  {
    "Welcome, " + u.name + "!"
  }

  /** A notification raised with a fresh id and then dismissed by its timer
      leaves the stack as it was. */
  lemma NotificationExpires(ns: seq<Notification>, n: Notification)
    requires forall i :: 0 <= i < |ns| ==> ns[i].id != n.id
    ensures Lists.Without(ns + [n], n.id, NotificationId) == ns
  {
    Lists.WithoutConcat(ns, [n], n.id, NotificationId);
    Lists.WithoutAbsent(ns, n.id, NotificationId);
    assert Lists.Without([n], n.id, NotificationId) == [];
  }

  /** Dismissing one notification keeps every other one, in order. */
  lemma DismissKeepsOthers(ns: seq<Notification>, m: Notification, n: Notification)
    requires m.id != n.id
    ensures Lists.Without(ns + [m] + [n], n.id, NotificationId)
         == Lists.Without(ns, n.id, NotificationId) + [m]
  {
    Lists.WithoutConcat(ns + [m], [n], n.id, NotificationId);
    Lists.WithoutConcat(ns, [m], n.id, NotificationId);
    assert Lists.Without([m], n.id, NotificationId) == [m];
    assert Lists.Without([n], n.id, NotificationId) == [];
  }

  /** The state of the application shell over its record store. */
  class AppState {
    var user: Option<User>
    var currentView: View
    var isDarkMode: bool
    var notifications: seq<Notification>
    var isMobileMenuOpen: bool
    const store: StorageService.RecordStore

    ghost predicate Valid()
      reads this, store
    {
      store.Valid()
    }

    /** The first render: the theme comes from the stored setting. */
    constructor (store: StorageService.RecordStore)
      requires store.Valid()
      ensures Valid() && this.store == store
      ensures user == None && currentView == Home && notifications == [] && !isMobileMenuOpen
      ensures isDarkMode == ThemeFromStored(if THEME_KEY in store.items then Some(store.items[THEME_KEY]) else None)
    {
      this.store := store;
      user := None;
      currentView := Home;
      isDarkMode := ThemeFromStored(if THEME_KEY in store.items then Some(store.items[THEME_KEY]) else None);
      notifications := [];
      isMobileMenuOpen := false;
    }

    /** The effects that run once mounted: restore the signed-in user, and
        write the theme. */
    method Mount()
      requires Valid()
      modifies this, store
      ensures Valid()
      ensures old(store.SavedUser()).Some? ==> user == old(store.SavedUser())
      ensures old(store.SavedUser()).None? ==> user == old(user)
      ensures store.items == old(store.items)[THEME_KEY := StorageService.Text(ThemeValue(isDarkMode))]
      ensures store.syncEvents == old(store.syncEvents)
      ensures currentView == old(currentView) && isDarkMode == old(isDarkMode)
      ensures notifications == old(notifications) && isMobileMenuOpen == old(isMobileMenuOpen)
    {
      var saved := store.SavedUser();
      if saved.Some? {
        user := saved;
      }
      PersistTheme();
    }

    /** The theme effect: the setting is written on every change. */
    method PersistTheme()
      requires Valid()
      modifies store
      ensures Valid()
      ensures store.items == old(store.items)[THEME_KEY := StorageService.Text(ThemeValue(isDarkMode))]
      ensures store.syncEvents == old(store.syncEvents)
    {
      store.SetItem(THEME_KEY, StorageService.Text(ThemeValue(isDarkMode)));
    }

    /** The theme toggle, followed by its effect. */
    method SetDarkMode(dark: bool)
      requires Valid()
      modifies this, store
      ensures Valid()
      ensures isDarkMode == dark
      ensures store.items == old(store.items)[THEME_KEY := StorageService.Text(ThemeValue(dark))]
      ensures store.syncEvents == old(store.syncEvents)
      ensures user == old(user) && currentView == old(currentView)
      ensures notifications == old(notifications) && isMobileMenuOpen == old(isMobileMenuOpen)
    {
      isDarkMode := dark;
      PersistTheme();
    }

    /** The `storage_sync` listener: adopt the stored signed-in user, if any. */
    method HandleSync()
      requires Valid()
      modifies this
      ensures Valid()
      ensures old(store.SavedUser()).Some? ==> user == old(store.SavedUser())
      ensures old(store.SavedUser()).None? ==> user == old(user)
      ensures currentView == old(currentView) && isDarkMode == old(isDarkMode)
      ensures notifications == old(notifications) && isMobileMenuOpen == old(isMobileMenuOpen)
    {
      var saved := store.SavedUser();
      if saved.Some? {
        user := saved;
      }
    }

    /** `addNotification`: pushes a notification; its id comes from the
        random source. */
    method AddNotification(message: string, kind: NotificationKind, id: string)
      modifies this
      ensures notifications == old(notifications) + [Notification(id, message, kind)]
      ensures user == old(user) && currentView == old(currentView)
      ensures isDarkMode == old(isDarkMode) && isMobileMenuOpen == old(isMobileMenuOpen)
    {
      notifications := notifications + [Notification(id, message, kind)];
    }

    /** The four-second timer of a notification: removes every notification
        with that id. */
    method DismissNotification(id: string)
      modifies this
      ensures notifications == Lists.Without(old(notifications), id, NotificationId)
      ensures user == old(user) && currentView == old(currentView)
      ensures isDarkMode == old(isDarkMode) && isMobileMenuOpen == old(isMobileMenuOpen)
    {
      notifications := Lists.Without(notifications, id, NotificationId);
    }

    /** `handleLogin`: saves the account into the users collection (whose
        `storage_sync` is heard at once, before the signed-in user is
        written), signs it in, stores it as the signed-in user and greets it. */
    method HandleLogin(u: User, noteId: string)
      requires Valid()
      modifies this, store
      ensures Valid()
      ensures user == Some(u)
      ensures store.items == old(store.items)
        [StorageService.USERS_KEY := StorageService.UserList(StorageService.Upsert(old(store.Users()), u))]
        [StorageService.CURRENT_USER_KEY := StorageService.OneUser(u)]
      ensures store.SavedUser() == Some(u)
      ensures store.syncEvents == old(store.syncEvents) + 1
      ensures notifications == old(notifications) + [Notification(noteId, WelcomeMessage(u), Success)]
      ensures currentView == old(currentView) && isDarkMode == old(isDarkMode)
      ensures isMobileMenuOpen == old(isMobileMenuOpen)
    {
      store.SaveUser(u);
      HandleSync();
      user := Some(u);
      store.SetItem(StorageService.CURRENT_USER_KEY, StorageService.OneUser(u));
      AddNotification(WelcomeMessage(u), Success, noteId);
    }

    /** `handleLogout`: forgets the signed-in user in memory and in storage,
        returns to Home and closes the menu. */
    method HandleLogout()
      requires Valid()
      modifies this, store
      ensures Valid()
      ensures user == None && currentView == Home && !isMobileMenuOpen
      ensures store.items == old(store.items) - {StorageService.CURRENT_USER_KEY}
      ensures store.SavedUser() == None
      ensures store.syncEvents == old(store.syncEvents)
      ensures notifications == old(notifications) && isDarkMode == old(isDarkMode)
    {
      user := None;
      store.RemoveItem(StorageService.CURRENT_USER_KEY);
      currentView := Home;
      isMobileMenuOpen := false;
    }

    /** `handleUpdateUser`: as sign-in, without the greeting. */
    method HandleUpdateUser(u: User)
      requires Valid()
      modifies this, store
      ensures Valid()
      ensures user == Some(u)
      ensures store.items == old(store.items)
        [StorageService.USERS_KEY := StorageService.UserList(StorageService.Upsert(old(store.Users()), u))]
        [StorageService.CURRENT_USER_KEY := StorageService.OneUser(u)]
      ensures store.SavedUser() == Some(u)
      ensures store.syncEvents == old(store.syncEvents) + 1
      ensures notifications == old(notifications) && currentView == old(currentView)
      ensures isDarkMode == old(isDarkMode) && isMobileMenuOpen == old(isMobileMenuOpen)
    {
      store.SaveUser(u);
      HandleSync();
      user := Some(u);
      store.SetItem(StorageService.CURRENT_USER_KEY, StorageService.OneUser(u));
    }

    /** `handleSetView`: switches the view and closes the mobile menu. */
    method HandleSetView(view: View)
      modifies this
      ensures currentView == view && !isMobileMenuOpen
      ensures user == old(user) && notifications == old(notifications) && isDarkMode == old(isDarkMode)
    {
      currentView := view;
      isMobileMenuOpen := false;
    }

    /** The Home page's "play trivia" callback: sets the view directly, so
        the menu is left as it is. */
    method OnPlayTrivia()
      modifies this
      ensures currentView == Trivia && isMobileMenuOpen == old(isMobileMenuOpen)
      ensures user == old(user) && notifications == old(notifications) && isDarkMode == old(isDarkMode)
    {
      currentView := Trivia;
    }

    /** The chat page's activity callback, which the chat page calls with the
        sender's name after each message sent: an info notification naming
        the sender. */
    method OnChatActivity(senderName: string, noteId: string)
      modifies this
      ensures notifications == old(notifications) + [Notification(noteId, "Fellowship activity: " + senderName, Info)]
      ensures user == old(user) && currentView == old(currentView)
      ensures isDarkMode == old(isDarkMode) && isMobileMenuOpen == old(isMobileMenuOpen)
    {
      AddNotification("Fellowship activity: " + senderName, Info, noteId);
    }

    /** The updates page's callback: a success notification naming the post. */
    method OnNewUpdate(title: string, noteId: string)
      modifies this
      ensures notifications == old(notifications) + [Notification(noteId, "Update: " + title, Success)]
      ensures user == old(user) && currentView == old(currentView)
      ensures isDarkMode == old(isDarkMode) && isMobileMenuOpen == old(isMobileMenuOpen)
    {
      AddNotification("Update: " + title, Success, noteId);
    }

    /** The screen the current state shows. */
    function Shown(): Screen
      reads this
    {
      RenderScreen(user, currentView)
    }
  }
}
