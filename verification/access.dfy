/** The admin access guards: `isAdmin` (src/lib/utils.ts), the
    `RequireAdmin` route wrapper (src/components/auth/require-admin.tsx), and
    the access check shared by the admin dashboard page
    (src/pages/admin/index.tsx) and the admin layout
    (src/components/layout/admin-layout.tsx), with what each renders.

    The profile lookup is a parameter: for a profile id it yields an error,
    no row, or the row's role. Every guard fails closed. */
module Access {
  import opened Wrappers
  import opened Entities

  datatype RoleLookup = LookupFailed | NoProfile | Found(role: Role)

  predicate IsPrivileged(role: Role) {
    role == Admin || role == Manager
  }

  /** `isAdmin(userId)`: an absent or empty id is refused before any lookup;
      a failed lookup or a missing row is refused; otherwise the answer is
      whether the role is admin or manager. */
  function IsAdmin(userId: Option<string>, lookup: string -> RoleLookup): (r: bool)
    ensures userId.None? || userId.value == "" ==> !r
    ensures r <==> userId.Some? && userId.value != ""
                   && lookup(userId.value).Found? && lookup(userId.value).role != User
  {
    if userId.None? || userId.value == "" then false
    else
      match lookup(userId.value)
      case LookupFailed => false
      case NoProfile => false
      case Found(role) => IsPrivileged(role)
  }

  /** Without a user id the lookup is never consulted: any two lookups give
      the same refusal. */
  lemma NoLookupWithoutUser(lookup: string -> RoleLookup, other: string -> RoleLookup)
    ensures IsAdmin(None, lookup) == IsAdmin(None, other) == false
    ensures IsAdmin(Some(""), lookup) == IsAdmin(Some(""), other) == false
  {
  }

  /** `isAdmin` depends on the looked-up row alone: lookups that agree on the
      user's row give the same answer. */
  lemma SameRowSameAnswer(id: string, lookup: string -> RoleLookup, other: string -> RoleLookup)
    requires lookup(id) == other(id)
    ensures IsAdmin(Some(id), lookup) == IsAdmin(Some(id), other)
  {
  }

  /** What `RequireAdmin` renders. */
  datatype Guard = RedirectToLogin(from: string) | Spinner | RedirectHome | RenderChildren

  /** `RequireAdmin`: the missing user is checked first, so the login
      redirect wins over loading; the children render only for a signed-in,
      settled admin. */
  function RequireAdmin(signedIn: bool, loading: bool, isAdminUser: bool, location: string): (g: Guard)
    ensures g.RedirectToLogin? <==> !signedIn
    ensures g.RedirectToLogin? ==> g.from == location
    ensures g == Spinner <==> signedIn && loading
    ensures g == RedirectHome <==> signedIn && !loading && !isAdminUser
    ensures g == RenderChildren <==> signedIn && !loading && isAdminUser
  {
    if !signedIn then RedirectToLogin(location)
    else if loading then Spinner
    else if !isAdminUser then RedirectHome
    else RenderChildren
  }

  /** Composed with `isAdmin`, the wrapper renders its children only for a
      signed-in user whose profile row says admin or manager. */
  lemma RequireAdminFailsClosed(userId: Option<string>, lookup: string -> RoleLookup, location: string)
    ensures RequireAdmin(userId.Some?, false, IsAdmin(userId, lookup), location) == RenderChildren
            ==> userId.Some? && lookup(userId.value).Found? && IsPrivileged(lookup(userId.value).role)
  {
  }

  datatype AdminUser = AdminUser(id: string, role: Role)

  /** The state `checkAdminAccess` maintains in the admin page and the admin
      layout, with the navigation the latest check asked for. */
  datatype GuardState = GuardState(adminUser: Option<AdminUser>, loading: bool, navigation: Option<string>)

  const InitialGuard: GuardState := GuardState(None, true, None)

  /** `checkAdminAccess` as both the page and the layout write it. An
      error, a missing row and a plain user all end on "/" with the admin
      user left as it was; `loading` is cleared on every path. */
  function CheckAdminAccess(state: GuardState, user: Option<string>, lookup: string -> RoleLookup): (s: GuardState)
    ensures !s.loading
    ensures user.None? ==> s == GuardState(state.adminUser, false, Some("/login"))
    ensures user.Some? && lookup(user.value).Found? && IsPrivileged(lookup(user.value).role) ==>
              s == GuardState(Some(AdminUser(user.value, lookup(user.value).role)), false, None)
    ensures user.Some? && !(lookup(user.value).Found? && IsPrivileged(lookup(user.value).role)) ==>
              s == GuardState(state.adminUser, false, Some("/"))
  {
    match user
    case None => GuardState(state.adminUser, false, Some("/login"))
    case Some(id) =>
      match lookup(id)
      case LookupFailed => GuardState(state.adminUser, false, Some("/"))
      case NoProfile => GuardState(state.adminUser, false, Some("/"))
      case Found(role) =>
        if !IsPrivileged(role) then GuardState(state.adminUser, false, Some("/"))
        else GuardState(Some(AdminUser(id, role)), false, None)
  }

  /** The admin user the check sets is the one `isAdmin` would accept. */
  lemma CheckAgreesWithIsAdmin(state: GuardState, id: string, lookup: string -> RoleLookup)
    requires id != "" && state.adminUser.None?
    ensures CheckAdminAccess(state, Some(id), lookup).adminUser.Some? <==> IsAdmin(Some(id), lookup)
  {
  }

  /** The effect of the page and the layout: the check runs only once the
      auth state has settled. */
  function OnAuthSettled(state: GuardState, authLoading: bool, user: Option<string>,
                         lookup: string -> RoleLookup): (s: GuardState)
    ensures authLoading ==> s == state
    ensures !authLoading ==> !s.loading
  {
    if authLoading then state else CheckAdminAccess(state, user, lookup)
  }

  /** The first frame of the page and the layout after auth settles, from
      their initial state: the admin user is set exactly for a privileged
      profile row, and otherwise the user is sent away. */
  lemma FirstCheck(user: Option<string>, lookup: string -> RoleLookup)
    ensures var s := OnAuthSettled(InitialGuard, false, user, lookup);
            (s.adminUser.Some? <==> user.Some? && lookup(user.value).Found? && IsPrivileged(lookup(user.value).role))
            && (s.adminUser.Some? ==> IsPrivileged(s.adminUser.value.role) && s.navigation.None?)
            && (user.None? ==> s.navigation == Some("/login"))
            && (user.Some? && s.adminUser.None? ==> s.navigation == Some("/"))
  {
  }

  /** What the page and the layout render before their own content. */
  datatype Frame = Loading | Empty | Shell(role: Role)

  /** The spinner while either flag is set; nothing while there is no admin
      user; otherwise the shell for the admin user's role. */
  function Gate(authLoading: bool, state: GuardState): (f: Frame)
    ensures f == Loading <==> authLoading || state.loading
    ensures f.Shell? <==> !authLoading && !state.loading && state.adminUser.Some?
    ensures f.Shell? ==> f.role == state.adminUser.value.role
  {
    if authLoading || state.loading then Loading
    else if state.adminUser.None? then Empty
    else Shell(state.adminUser.value.role)
  }

  /** Before the check, nothing but the spinner shows. */
  lemma NothingBeforeCheck(authLoading: bool)
    ensures Gate(authLoading, InitialGuard) == Loading
  {
  }

  /** The admin layout: its children render exactly within the shell. */
  function LayoutChildrenShown(authLoading: bool, state: GuardState): (shown: bool)
    ensures shown <==> state.adminUser.Some? && !authLoading && !state.loading
  {
    Gate(authLoading, state).Shell?
  }

  /** The dashboard's tabs. "letters" navigates away instead of switching. */
  datatype Tab = Overview | Users | Bookings | Payments | Letters | Feedback | Settings

  /** The sidebar's tabs for a role; feedback and settings only for admins. */
  function VisibleTabs(role: Role): (tabs: seq<Tab>)
    ensures Feedback in tabs <==> role == Admin
    ensures Settings in tabs <==> role == Admin
    ensures forall t :: t in [Overview, Users, Bookings, Payments, Letters] ==> t in tabs
  {
    var common := [Overview, Users, Bookings, Payments, Letters];
    if role == Admin then common + [Feedback, Settings] else common
  }

  datatype Panel = StatsPanel | UserListPanel | VerificationPanel | BookingsPlaceholder
                 | FeedbackPanel | SettingsPanel

  /** The content area for the active tab and the admin user's role. */
  function TabContent(tab: Tab, role: Role): (p: Option<Panel>)
    ensures p == Some(FeedbackPanel) <==> tab == Feedback && role == Admin
    ensures p == Some(SettingsPanel) <==> tab == Settings && role == Admin
    ensures p.None? <==> tab == Letters || (tab in [Feedback, Settings] && role != Admin)
  {
    match tab
    case Overview => Some(StatsPanel)
    case Users => Some(UserListPanel)
    case Bookings => Some(BookingsPlaceholder)
    case Payments => Some(VerificationPanel)
    case Letters => None
    case Feedback => if role == Admin then Some(FeedbackPanel) else None
    case Settings => if role == Admin then Some(SettingsPanel) else None
  }

  datatype PageView = PageFrame(frame: Frame) | Dashboard(role: Role, tabs: seq<Tab>, content: Option<Panel>)

  /** The admin dashboard page. */
  function RenderAdminPage(authLoading: bool, state: GuardState, activeTab: Tab): (v: PageView)
    ensures v.Dashboard? <==> !authLoading && !state.loading && state.adminUser.Some?
    ensures v.Dashboard? ==> v.role == state.adminUser.value.role
    ensures v.Dashboard? && v.content in {Some(FeedbackPanel), Some(SettingsPanel)} ==> v.role == Admin
  {
    match Gate(authLoading, state)
    case Shell(role) => Dashboard(role, VisibleTabs(role), TabContent(activeTab, role))
    case other => PageFrame(other)
  }

  /** A manager never sees the feedback or settings panel, whatever tab is
      active. */
  lemma ManagerSeesNoAdminPanels(authLoading: bool, state: GuardState, tab: Tab)
    requires state.adminUser.Some? && state.adminUser.value.role == Manager
    ensures var v := RenderAdminPage(authLoading, state, tab);
            v.Dashboard? ==> v.content != Some(FeedbackPanel) && v.content != Some(SettingsPanel)
                             && Feedback !in v.tabs && Settings !in v.tabs
  {
  }
}
