/** The app shell: the signed-in user, the active tab and the viewed uid under
    start-up, navigation, profile clicks, sign-in, logout and session loss, the
    mapping of a profile row to the user record, and which page is rendered. */
module AppShell {
  import opened Common
  import opened Types
  import ProfilePage
  import FeedPage
  import SignupPage

  datatype Tab = FeedTab | SearchTab | InboxTab | ProfileTab

  /** The two pages offered to a signed-out visitor. */
  datatype AuthPage = LoginForm | SignupForm

  datatype AppState = AppState(user: Option<User>, tab: Tab, viewing: Option<string>, authPage: AuthPage, loading: bool)

  /** The state the shell starts in: nobody signed in, the feed tab, the login
      page, and the spinner until the start-up session check finishes. */
  const Initial: AppState := AppState(None, FeedTab, None, LoginForm, true)

  // ---------------------------------------------------------------------------
  // Loading the signed-in user

  /** The backend's answers to the `profiles` lookup by row id: `lookup(id)` is
      the reply to the query for the single row whose `id` is `id`. */
  type ProfileLookup = string -> Remote<ProfileRow>

  /** A lookup that only ever answers with the row it was asked for. */
  ghost predicate KeyedById(lookup: ProfileLookup) {
    forall id :: lookup(id).Ok? ==> lookup(id).data.id == id
  }

  /** The `User` built from a `profiles` row by `fetchProfile`: identity, photos
      and bio copied, no email, nobody followed or following. */
  function UserFromRow(row: ProfileRow): (u: User)
    ensures u.uid == row.uid && u.dbId == Some(row.id) && u.name == row.name
    ensures u.profilePhoto == row.profilePhoto && u.coverPhoto == row.coverPhoto && u.bio == row.bio
    ensures u.email == "" && u.followers == [] && u.following == []
    ensures u.joinedAt == row.createdAt
  {
    User(row.uid, Some(row.id), row.name, "", row.profilePhoto, row.coverPhoto, row.bio, row.createdAt, [], [])
  }

  /** `fetchProfile(dbId)`: only a row returned without error becomes the
      current user, and with a lookup keyed by id that user is the account
      `dbId`; anything else leaves the state untouched. */
  function FetchUser(s: AppState, dbId: string, lookup: ProfileLookup): (r: AppState)
    ensures lookup(dbId).Err? ==> r == s
    ensures lookup(dbId).Ok? ==> r == s.(user := Some(UserFromRow(lookup(dbId).data)))
    ensures KeyedById(lookup) && lookup(dbId).Ok? ==> r.user.Some? && r.user.value.dbId == Some(dbId)
  {
    match lookup(dbId)
    case Ok(row) => s.(user := Some(UserFromRow(row)))
    case Err(_) => s
  }

  /** The start-up `checkUser`: the session's user is loaded when there is a
      session, and the spinner goes away either way. */
  function CheckUser(s: AppState, session: Option<string>, lookup: ProfileLookup): (r: AppState)
    ensures !r.loading
    ensures session.None? ==> r == s.(loading := false)
    ensures session.Some? ==> r == FetchUser(s, session.value, lookup).(loading := false)
  {
    var loaded := if session.Some? then FetchUser(s, session.value, lookup) else s;
    loaded.(loading := false)
  }

  /** The auth listener: with a session the session user's profile is loaded;
      without one the shell resets to a signed-out feed with no viewed uid. */
  function OnAuthChange(s: AppState, session: Option<string>, lookup: ProfileLookup): (r: AppState)
    ensures session.None? ==> r.user.None? && r.tab == FeedTab && r.viewing.None?
    ensures session.None? ==> r.authPage == s.authPage && r.loading == s.loading
    ensures session.Some? ==> r == FetchUser(s, session.value, lookup)
  {
    match session
    case None => s.(user := None, tab := FeedTab, viewing := None)
    case Some(id) => FetchUser(s, id, lookup)
  }

  /** A session event loads exactly the session's account. */
  lemma SessionUserLoaded(s: AppState, id: string, lookup: ProfileLookup)
    requires KeyedById(lookup) && lookup(id).Ok?
    ensures OnAuthChange(s, Some(id), lookup).user.Some?
    ensures OnAuthChange(s, Some(id), lookup).user.value.dbId == Some(id)
    ensures OnAuthChange(s, Some(id), lookup).user.value.uid == lookup(id).data.uid
  {
  }

  /** The profile page's `onUpdateUser`: reload the signed-in user by row id,
      when the record has one. */
  function RefreshUser(s: AppState, lookup: ProfileLookup): (r: AppState)
    requires s.user.Some?
    ensures !Truthy(s.user.value.dbId) ==> r == s
    ensures Truthy(s.user.value.dbId) ==> r == FetchUser(s, s.user.value.dbId.value, lookup)
  {
    if Truthy(s.user.value.dbId) then FetchUser(s, s.user.value.dbId.value, lookup) else s
  }

  /** Reloading after a profile edit keeps the same account signed in and the
      same page on screen. */
  lemma RefreshKeepsAccount(s: AppState, lookup: ProfileLookup)
    requires s.user.Some? && KeyedById(lookup)
    ensures RefreshUser(s, lookup).user.Some?
    ensures RefreshUser(s, lookup).user.value.dbId == s.user.value.dbId
    ensures RefreshUser(s, lookup).tab == s.tab && RefreshUser(s, lookup).viewing == s.viewing
  {
  }

  /** The user handed over at sign-up and the user the shell later loads from
      the stored sign-up row agree on uid, account id, name and photo; only the
      bio differs: the stored row carries the default bio, the handed-over user
      none. */
  lemma SignupUserMatchesReload(
    form: SignupPage.SignupState, auth: Remote<Option<string>>, now: int, s: AppState, lookup: ProfileLookup)
    requires SignupPage.Submit(form, auth, now).insert.Some?
    requires var ins := SignupPage.Submit(form, auth, now).insert.value;
      lookup(ins.id).Ok? && SignupPage.Stores(lookup(ins.id).data, ins)
    ensures var out := SignupPage.Submit(form, auth, now);
      var u := out.signedUp.value;
      var v := OnAuthChange(s, Some(out.insert.value.id), lookup).user.value;
      && v.uid == u.uid && v.dbId == u.dbId && v.name == u.name && v.profilePhoto == u.profilePhoto
      && u.bio.None? && v.bio == Some(SignupPage.DefaultBio)
  {
  }

  // ---------------------------------------------------------------------------
  // Navigation

  /** `navigateToProfile(uid)`: view `uid` on the profile tab. */
  function NavigateToProfile(s: AppState, uid: string): (r: AppState)
    ensures r.user == s.user && r.authPage == s.authPage && r.loading == s.loading
    ensures r.tab == ProfileTab && r.viewing == Some(uid)
  {
    s.(viewing := Some(uid), tab := ProfileTab)
  }

  /** The navbar's profile button, drawn only while a user is signed in. */
  function ProfileClick(s: AppState): (r: AppState)
    requires s.user.Some?
    ensures r.user == s.user && r.authPage == s.authPage && r.loading == s.loading
    ensures r.tab == ProfileTab && r.viewing == Some(s.user.value.uid)
  {
    s.(viewing := Some(s.user.value.uid), tab := ProfileTab)
  }

  /** The tab bar's selection: only the tab changes. */
  function SelectTab(s: AppState, t: Tab): (r: AppState)
    ensures r.tab == t
    ensures r.(tab := s.tab) == s
  {
    s.(tab := t)
  }

  /** `handleLogout`: the user is dropped; tab and viewed uid are left as they
      were until the auth listener reports the lost session. */
  function Logout(s: AppState): (r: AppState)
    ensures r.user.None?
    ensures r.(user := s.user) == s
  {
    s.(user := None)
  }

  /** The uid handed to the profile page: the viewed uid when it is a non-empty
      string, the user's own otherwise (`viewingUserId || currentUser.uid`). */
  function ProfileViewUid(s: AppState): (uid: string)
    requires s.user.Some?
    ensures Truthy(s.viewing) ==> uid == s.viewing.value
    ensures !Truthy(s.viewing) ==> uid == s.user.value.uid
  {
    OrElse(s.viewing, Some(s.user.value.uid)).value
  }

  // ---------------------------------------------------------------------------
  // Rendering

  /** The views the shell can render. */
  datatype Page =
    | Spinner
    | AuthView(page: AuthPage)
    | FeedView
    | SearchView
    | InboxView
    | ProfileView(viewingUid: string)

  /** The views rendered: the spinner while loading, the auth page while signed
      out; otherwise one conditional per tab, each rendering its view when its
      tab is active. */
  function Rendered(s: AppState): set<Page> {
    if s.loading then {Spinner}
    else
      match s.user
      case None => {AuthView(s.authPage)}
      case Some(_) =>
        (if s.tab == FeedTab then {FeedView} else {})
        + (if s.tab == SearchTab then {SearchView} else {})
        + (if s.tab == InboxTab then {InboxView} else {})
        + (if s.tab == ProfileTab then {ProfileView(ProfileViewUid(s))} else {})
  }

  /** The view that belongs to the active tab. */
  function TabView(s: AppState): Page
    requires s.user.Some?
  {
    match s.tab
    case FeedTab => FeedView
    case SearchTab => SearchView
    case InboxTab => InboxView
    case ProfileTab => ProfileView(ProfileViewUid(s))
  }

  /** Exactly one view is rendered in every state: the spinner while loading,
      then the active tab's view while signed in and the chosen auth page while
      signed out. */
  lemma ExactlyOneView(s: AppState)
    ensures s.loading ==> Rendered(s) == {Spinner}
    ensures !s.loading && s.user.Some? ==> Rendered(s) == {TabView(s)}
    ensures !s.loading && s.user.None? ==> Rendered(s) == {AuthView(s.authPage)}
    ensures |Rendered(s)| == 1
  {
  }

  /** Start-up ends on the feed when the session's profile loads, and on the
      login page otherwise; the spinner is gone either way. */
  lemma StartupView(session: Option<string>, lookup: ProfileLookup)
    ensures session.Some? && lookup(session.value).Ok? ==> Rendered(CheckUser(Initial, session, lookup)) == {FeedView}
    ensures !(session.Some? && lookup(session.value).Ok?) ==>
      Rendered(CheckUser(Initial, session, lookup)) == {AuthView(LoginForm)}
  {
  }

  /** Logging out and then losing the session ends exactly as losing the
      session alone does, on the auth page once loaded. */
  lemma LogoutThenSessionLoss(s: AppState, lookup: ProfileLookup)
    ensures OnAuthChange(Logout(s), None, lookup) == OnAuthChange(s, None, lookup)
    ensures !s.loading ==> Rendered(OnAuthChange(Logout(s), None, lookup)) == {AuthView(s.authPage)}
  {
  }

  /** The navbar's profile button opens the signed-in user's own profile. */
  lemma ProfileClickShowsOwnProfile(s: AppState)
    requires s.user.Some? && !s.loading
    ensures ProfilePage.IsMe(s.user.value, ProfileViewUid(ProfileClick(s)))
    ensures Rendered(ProfileClick(s)) == {ProfileView(s.user.value.uid)}
  {
  }

  /** Navigating to a non-empty uid renders that uid's profile; navigating to
      "" falls back to the user's own. The page counts as the user's own
      exactly when the uid is theirs or empty. */
  lemma NavigateShowsTarget(s: AppState, uid: string)
    requires s.user.Some? && !s.loading
    ensures |uid| > 0 ==> Rendered(NavigateToProfile(s, uid)) == {ProfileView(uid)}
    ensures uid == "" ==> Rendered(NavigateToProfile(s, uid)) == {ProfileView(s.user.value.uid)}
    ensures ProfilePage.IsMe(s.user.value, ProfileViewUid(NavigateToProfile(s, uid))) <==>
      uid == s.user.value.uid || uid == ""
  {
  }

  /** With no uid selected, or an empty one, the profile tab shows the user's
      own profile. */
  lemma ProfileTabDefaultsToOwn(s: AppState)
    requires s.user.Some? && !Truthy(s.viewing) && !s.loading
    ensures Rendered(SelectTab(s, ProfileTab)) == {ProfileView(s.user.value.uid)}
  {
  }

  /** Clicking a post's author on the feed opens that author's profile; the
      placeholder author leads to the uid "???". */
  lemma AuthorClickShowsAuthor(s: AppState, p: PostRow)
    requires s.user.Some? && !s.loading
    ensures p.author.Some? && |p.author.value.uid| > 0 ==>
      Rendered(NavigateToProfile(s, FeedPage.AuthorOf(p).uid)) == {ProfileView(p.author.value.uid)}
    ensures p.author.None? ==>
      Rendered(NavigateToProfile(s, FeedPage.AuthorOf(p).uid)) == {ProfileView("???")}
  {
  }
}
