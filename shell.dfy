/**
 * The application shell as a state machine: the current page, the session,
 * the cart, which top-level view is shown, which callbacks that view offers,
 * and how each callback changes the state and the store.
 */
module Shell {
  import opened Wrappers
  import opened Profile
  import opened Storage
  import Cart

  /** The pages of the application (the enum `Page` in App.tsx). */
  datatype Page = Landing | Dashboard | Detection | Marketplace | Chatbot | Auth

  /** The shell's state; the cart holds items the shell never looks inside. */
  datatype ShellState<Item> = ShellState(
    page: Page,
    isLoggedIn: bool,
    user: Option<UserProfile>,
    cart: seq<Item>)

  function SessionOf<Item>(s: ShellState<Item>): Session
  {
    Session(s.isLoggedIn, s.user)
  }

  /** The state right after startup with the session read from the store. */
  function Initial<Item>(session: Session): ShellState<Item>
  {
    ShellState(Landing, session.isLoggedIn, session.user, [])
  }

  /** The views that can appear inside the authenticated chrome, with the props they get. */
  datatype View<Item> =
    | DashboardView(user: Option<UserProfile>)
    | DetectionView
    | MarketplaceView(cart: seq<Item>)
    | ChatbotView

  function ViewPage<Item>(v: View<Item>): Page
  {
    match v
    case DashboardView(_) => Dashboard
    case DetectionView => Detection
    case MarketplaceView(_) => Marketplace
    case ChatbotView => Chatbot
  }

  /** The top-level view: the landing page, the sign-in page, or the chrome
      (sidebar, header and mobile navigation) around the views in `content`. */
  datatype Screen<Item> =
    | LandingScreen(isLoggedIn: bool)
    | AuthScreen
    | Chrome(activePage: Page, user: Option<UserProfile>, content: seq<View<Item>>)

  /** The view shown for a state: the two early returns, then the chrome
      holding the inner views whose page condition holds. */
  function Render<Item>(s: ShellState<Item>): (r: Screen<Item>)
    ensures r.LandingScreen? <==> s.page == Landing
    ensures r.AuthScreen? <==> s.page == Auth && !s.isLoggedIn
    ensures r.Chrome? <==> s.page != Landing && (s.page == Auth ==> s.isLoggedIn)
    ensures r.Chrome? ==> r.activePage == s.page && r.user == s.user && |r.content| <= 1
    ensures r.Chrome? ==> (r.content == [] <==> s.page == Auth)
    ensures r.Chrome? && r.content != [] ==> ViewPage(r.content[0]) == s.page
    ensures r.Chrome? && s.page == Dashboard ==> r.content == [DashboardView(s.user)]
    ensures r.Chrome? && s.page == Marketplace ==> r.content == [MarketplaceView(s.cart)]
  {
    if s.page == Landing then LandingScreen(s.isLoggedIn)
    else if s.page == Auth && !s.isLoggedIn then AuthScreen
    else Chrome(s.page, s.user,
        (if s.page == Dashboard then [DashboardView(s.user)] else [])
      + (if s.page == Detection then [DetectionView] else [])
      + (if s.page == Marketplace then [MarketplaceView(s.cart)] else [])
      + (if s.page == Chatbot then [ChatbotView] else []))
  }

  /** Where the landing page's start button goes. */
  function StartTarget(isLoggedIn: bool): Page
  {
    if isLoggedIn then Dashboard else Auth
  }

  /** The callbacks the shell hands to the views. */
  datatype Event<Item> =
    | Start                                   // Landing's onStart
    | Back                                    // Auth's onBack
    | SignIn(name: string, phoneNumber: string, joinDate: string)  // Auth's onLogin
    | Go(target: Page)                        // sidebar, header and mobile navigation
    | SignOut                                 // the header's sign-out button
    | AddItem(item: Item)                     // Marketplace's addToCart
    | RemoveItem(index: int)                  // Marketplace's removeFromCart
    | ClearItems                              // Marketplace's clearCart

  predicate ShowsMarketplace<Item>(content: seq<View<Item>>)
  {
    exists i :: 0 <= i < |content| && content[i].MarketplaceView?
  }

  /** Whether the screen on display hands out the callback behind an event. */
  predicate Offers<Item>(screen: Screen<Item>, e: Event<Item>)
  {
    match screen
    case LandingScreen(_) => e.Start?
    case AuthScreen => e.SignIn? || e.Back?
    case Chrome(_, _, content) =>
      e.Go? || e.SignOut? ||
      ((e.AddItem? || e.RemoveItem? || e.ClearItems?) && ShowsMarketplace(content))
  }

  /** The shell's state after handling an event. */
  function Step<Item>(s: ShellState<Item>, e: Event<Item>): ShellState<Item>
  {
    match e
    case Start => s.(page := StartTarget(s.isLoggedIn))
    case Back => s.(page := Landing)
    case SignIn(name, phoneNumber, joinDate) =>
      s.(user := Some(NewProfile(name, phoneNumber, joinDate)), isLoggedIn := true, page := Dashboard)
    case Go(target) => s.(page := target)
    case SignOut => s.(isLoggedIn := false, user := None, page := Landing)
    case AddItem(item) => s.(cart := Cart.Added(s.cart, item))
    case RemoveItem(index) => s.(cart := Cart.Removed(s.cart, index))
    case ClearItems => s.(cart := [])
  }

  /** Navigation sets the page to exactly the target and changes nothing else,
      with no guard: going to Auth while signed in shows the chrome with no inner view. */
  lemma GoSetsPage<Item>(s: ShellState<Item>, target: Page)
    ensures Step(s, Go(target)) == ShellState(target, s.isLoggedIn, s.user, s.cart)
    ensures s.isLoggedIn ==> Render(Step(s, Go(Auth))) == Chrome(Auth, s.user, [])
  {
  }

  /** Signing in stores the new profile, sets the flag, opens the dashboard and keeps the cart. */
  lemma SignInState<Item>(s: ShellState<Item>, name: string, phoneNumber: string, joinDate: string)
    ensures var t := Step(s, SignIn(name, phoneNumber, joinDate));
      && t.isLoggedIn && t.page == Dashboard && t.cart == s.cart
      && t.user.Some? && t.user.value.name == name && t.user.value.phoneNumber == phoneNumber
      && t.user.value.location == DefaultLocation && t.user.value.joinDate == joinDate
      && t.user.value.avatar == AvatarPrefix + name + AvatarSuffix
      && Render(t) == Chrome(Dashboard, t.user, [DashboardView(t.user)])
  {
  }

  /** Signing out clears the flag and the user, returns to the landing page and keeps the cart. */
  lemma SignOutState<Item>(s: ShellState<Item>)
    ensures var t := Step(s, SignOut);
      !t.isLoggedIn && t.user.None? && t.page == Landing && t.cart == s.cart
  {
  }

  /** The cart callbacks change only the cart: append, delete by position, empty. */
  lemma CartEvents<Item>(s: ShellState<Item>, item: Item, index: int)
    ensures Step(s, AddItem(item)) == s.(cart := s.cart + [item])
    ensures 0 <= index < |s.cart| ==>
      Step(s, RemoveItem(index)) == s.(cart := s.cart[..index] + s.cart[index + 1..])
    ensures !(0 <= index < |s.cart|) ==> Step(s, RemoveItem(index)) == s
    ensures Step(s, ClearItems) == s.(cart := [])
  {
    if 0 <= index < |s.cart| {
      Cart.RemovedInRange(s.cart, index);
    } else {
      Cart.RemovedOutOfRange(s.cart, index);
    }
  }

  /** The flag and the profile agree: signed in exactly when there is a user. */
  predicate SessionAgrees<Item>(s: ShellState<Item>)
  {
    s.isLoggedIn <==> s.user.Some?
  }

  /** Signing in and out establish the agreement, and every event keeps it. */
  lemma StepKeepsAgreement<Item>(s: ShellState<Item>, e: Event<Item>)
    ensures (e.SignIn? || e.SignOut?) ==> SessionAgrees(Step(s, e))
    ensures SessionAgrees(s) ==> SessionAgrees(Step(s, e))
  {
  }

  /** Startup does not establish the agreement: a stored flag without a stored
      profile gives a signed-in session without a user, and the start button
      then shows the dashboard with no user. */
  lemma StartupSplitsSession<Item>()
    ensures var store := map[LoggedInKey := "true"];
      && LoadSession(store) == Ok(Session(true, None))
      && !SessionAgrees(Initial<Item>(LoadSession(store).value))
      && Render(Step(Initial<Item>(LoadSession(store).value), Start))
         == Chrome(Dashboard, None, [DashboardView(None)])
  {
  }

  /** A signed-out shell is only ever on the landing or the sign-in page. */
  predicate PublicWhenSignedOut<Item>(s: ShellState<Item>)
  {
    !s.isLoggedIn ==> s.page == Landing || s.page == Auth
  }

  /** Every event a screen offers keeps a signed-out shell on the public pages. */
  lemma OfferedStepStaysPublic<Item>(s: ShellState<Item>, e: Event<Item>)
    requires PublicWhenSignedOut(s)
    requires Offers(Render(s), e)
    ensures PublicWhenSignedOut(Step(s, e))
  {
  }

  /** The shell together with the store. */
  datatype World<Item> = World(shell: ShellState<Item>, store: map<string, string>)

  /** Whether the persistence effect runs after an event: React runs it when
      the flag or the user changed. Signing in always builds a new user
      object; signing out changes something unless the session already was
      signed out with no user. */
  predicate EffectRuns<Item>(s: ShellState<Item>, e: Event<Item>)
  {
    match e
    case SignIn(_, _, _) => true
    case SignOut => s.isLoggedIn || s.user.Some?
    case _ => false
  }

  /** Startup: the session is read from the store, and once the first view is
      shown the persistence effect writes it back. */
  function Mount<Item>(store: map<string, string>): Result<World<Item>, StartupError>
  {
    match LoadSession(store)
    case Err(e) => Err(e)
    case Ok(session) => Ok(World(Initial(session), Persist(store, session)))
  }

  /** An event on the whole world: sign-out also clears the store, then the
      persistence effect runs when the session changed. */
  function WorldStep<Item>(w: World<Item>, e: Event<Item>): World<Item>
  {
    var shell := Step(w.shell, e);
    var store := if e.SignOut? then map[] else w.store;
    World(shell, if EffectRuns(w.shell, e) then Persist(store, SessionOf(shell)) else store)
  }

  /** The store holds the shell's session: a reload would restore it. */
  predicate StoreMirrors<Item>(w: World<Item>)
  {
    LoadSession(w.store) == Ok(SessionOf(w.shell))
  }

  /** Startup, when it succeeds, is on the landing page with an empty cart,
      with the session that the store held, and leaves the store mirroring it. */
  lemma MountState<Item>(store: map<string, string>)
    ensures Mount<Item>(store).Ok? <==> LoadSession(store).Ok?
    ensures Mount<Item>(store).Ok? ==>
      var w := Mount<Item>(store).value;
      && w.shell.page == Landing && w.shell.cart == []
      && SessionOf(w.shell) == LoadSession(store).value
      && StoreMirrors(w)
      && PublicWhenSignedOut(w.shell)
  {
    if LoadSession(store).Ok? {
      ReloadRestoresSession(store, LoadSession(store).value);
    }
  }

  /** Every event keeps the store mirroring the session. */
  lemma WorldStepKeepsMirror<Item>(w: World<Item>, e: Event<Item>)
    requires StoreMirrors(w)
    ensures StoreMirrors(WorldStep(w, e))
  {
    var t := WorldStep(w, e);
    if EffectRuns(w.shell, e) {
      ReloadRestoresSession(if e.SignOut? then map[] else w.store, SessionOf(t.shell));
    } else if e.SignOut? {
      EmptyStoreIsSignedOut();
    }
  }

  /** After signing out, the store holds only the flag "false" — or nothing,
      when the session was already signed out with no user. */
  lemma SignOutStore<Item>(w: World<Item>)
    ensures w.shell.isLoggedIn || w.shell.user.Some? ==>
      WorldStep(w, SignOut).store == map[LoggedInKey := "false"]
    ensures !w.shell.isLoggedIn && w.shell.user.None? ==> WorldStep(w, SignOut).store == map[]
    ensures LoadSession(WorldStep(w, SignOut).store) == Ok(Session(false, None))
  {
    SignedOutStore();
    EmptyStoreIsSignedOut();
  }

  /** After signing in, a reload restores the new session. */
  lemma SignInStore<Item>(w: World<Item>, name: string, phoneNumber: string, joinDate: string)
    ensures LoadSession(WorldStep(w, SignIn(name, phoneNumber, joinDate)).store)
      == Ok(Session(true, Some(NewProfile(name, phoneNumber, joinDate))))
  {
    var t := WorldStep(w, SignIn(name, phoneNumber, joinDate));
    ReloadRestoresSession(w.store, SessionOf(t.shell));
  }

  /** Runs events one after another as the user would trigger them; None when
      an event is not offered by the screen on display at that moment. */
  function Run<Item>(w: World<Item>, events: seq<Event<Item>>): Option<World<Item>>
    decreases |events|
  {
    if events == [] then Some(w)
    else if Offers(Render(w.shell), events[0]) then Run(WorldStep(w, events[0]), events[1..])
    else None
  }

  predicate Good<Item>(w: World<Item>)
  {
    StoreMirrors(w) && PublicWhenSignedOut(w.shell)
  }

  lemma {:induction false} RunKeepsGood<Item>(w: World<Item>, events: seq<Event<Item>>)
    requires Good(w)
    requires Run(w, events).Some?
    ensures Good(Run(w, events).value)
    decreases |events|
  {
    if events != [] {
      WorldStepKeepsMirror(w, events[0]);
      OfferedStepStaysPublic(w.shell, events[0]);
      RunKeepsGood(WorldStep(w, events[0]), events[1..]);
    }
  }

  /** In every state reachable from startup, the store mirrors the session and
      the chrome is shown only to a signed-in shell. */
  lemma ReachableStates<Item>(store: map<string, string>, events: seq<Event<Item>>)
    requires Mount<Item>(store).Ok?
    requires Run(Mount<Item>(store).value, events).Some?
    ensures var w := Run(Mount<Item>(store).value, events).value;
      && StoreMirrors(w)
      && (Render(w.shell).Chrome? ==> w.shell.isLoggedIn)
  {
    MountState<Item>(store);
    RunKeepsGood(Mount<Item>(store).value, events);
  }
}
