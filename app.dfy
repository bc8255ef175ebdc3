/**
 * The application shell as the object it is at run time: fields that the
 * handlers overwrite, and the store they write through.
 */
module App {
  import opened Wrappers
  import opened Profile
  import opened Storage
  import opened Shell
  import Cart
  import Codec

  class AppShell<Item> {
    var currentPage: Page
    var isLoggedIn: bool
    var user: Option<UserProfile>
    var cart: seq<Item>
    const storage: LocalStorage

    /** The shell's state as a value. */
    function State(): ShellState<Item>
      reads this
    {
      ShellState(currentPage, isLoggedIn, user, cart)
    }

    /** The shell and the store as a value. */
    function WorldNow(): World<Item>
      reads this, storage
    {
      World(State(), storage.entries)
    }

    /** The view the shell renders now. */
    function Screen(): Screen<Item>
      reads this
    {
      Render(State())
    }

    /** Startup: the page is Landing, the cart is empty, and the session is
        read from the store; there is no shell when the stored profile text
        does not parse. */
    constructor (storage: LocalStorage)
      requires LoadSession(storage.entries).Ok?
      ensures this.storage == storage
      ensures currentPage == Landing && cart == []
      ensures isLoggedIn == (LoggedInKey in storage.entries && storage.entries[LoggedInKey] == "true")
      ensures Session(isLoggedIn, user) == LoadSession(storage.entries).value
      ensures State() == Initial(LoadSession(storage.entries).value)
    {
      var flag := storage.Get(LoggedInKey);
      var saved := storage.Get(UserKey);
      this.storage := storage;
      currentPage := Landing;
      isLoggedIn := flag == Some("true");
      user := if saved.Some? && saved.value != "" then Codec.Decode(saved.value) else None;
      cart := [];
    }

    /** The persistence effect: writes the flag, and writes or removes the profile. */
    method PersistSession()
      modifies storage
      ensures storage.entries == Persist(old(storage.entries), Session(isLoggedIn, user))
      ensures LoadSession(storage.entries) == Ok(Session(isLoggedIn, user))
    {
      storage.SetItem(LoggedInKey, BoolText(isLoggedIn));
      if user.Some? {
        storage.SetItem(UserKey, Codec.Encode(user.value));
      } else {
        storage.RemoveItem(UserKey);
      }
      ReloadRestoresSession(old(storage.entries), Session(isLoggedIn, user));
    }

    /** Sets the page to exactly `page`, with no guard. */
    method Navigate(page: Page)
      modifies this
      ensures currentPage == page
      ensures isLoggedIn == old(isLoggedIn) && user == old(user) && cart == old(cart)
      ensures State() == Step(old(State()), Go(page))
    {
      currentPage := page;
    }

    /** The landing page's start button. */
    method OnStart()
      modifies this
      ensures currentPage == (if old(isLoggedIn) then Dashboard else Auth)
      ensures isLoggedIn == old(isLoggedIn) && user == old(user) && cart == old(cart)
      ensures State() == Step(old(State()), Start)
    {
      Navigate(if isLoggedIn then Dashboard else Auth);
    }

    /** Signing in; `joinDate` is the caller's reading of the date. */
    method Login(name: string, phoneNumber: string, joinDate: string)
      modifies this
      ensures user == Some(UserProfile(name, DefaultLocation, AvatarPrefix + name + AvatarSuffix,
                                       joinDate, phoneNumber))
      ensures isLoggedIn && currentPage == Dashboard && cart == old(cart)
      ensures State() == Step(old(State()), SignIn(name, phoneNumber, joinDate))
    {
      user := Some(NewProfile(name, phoneNumber, joinDate));
      isLoggedIn := true;
      Navigate(Dashboard);
    }

    /** Signing out; also empties the whole store. */
    method Logout()
      modifies this, storage
      ensures !isLoggedIn && user == None && currentPage == Landing && cart == old(cart)
      ensures storage.entries == map[]
      ensures State() == Step(old(State()), SignOut)
    {
      isLoggedIn := false;
      user := None;
      storage.Clear();
      Navigate(Landing);
    }

    method AddToCart(item: Item)
      modifies this
      ensures cart == old(cart) + [item]
      ensures currentPage == old(currentPage) && isLoggedIn == old(isLoggedIn) && user == old(user)
      ensures State() == Step(old(State()), AddItem(item))
    {
      cart := Cart.Added(cart, item);
    }

    method RemoveFromCart(index: int)
      modifies this
      ensures 0 <= index < |old(cart)| ==> cart == old(cart)[..index] + old(cart)[index + 1..]
      ensures !(0 <= index < |old(cart)|) ==> cart == old(cart)
      ensures currentPage == old(currentPage) && isLoggedIn == old(isLoggedIn) && user == old(user)
      ensures State() == Step(old(State()), RemoveItem(index))
    {
      if 0 <= index < |cart| {
        Cart.RemovedInRange(cart, index);
      } else {
        Cart.RemovedOutOfRange(cart, index);
      }
      cart := Cart.Removed(cart, index);
    }

    method ClearCart()
      modifies this
      ensures cart == []
      ensures currentPage == old(currentPage) && isLoggedIn == old(isLoggedIn) && user == old(user)
      ensures State() == Step(old(State()), ClearItems)
    {
      cart := [];
    }

    /** Handles one callback from the view on display, then runs the
        persistence effect when the session changed. */
    method Dispatch(e: Event<Item>)
      modifies this, storage
      ensures WorldNow() == WorldStep(old(WorldNow()), e)
    {
      var runs := EffectRuns(State(), e);
      match e {
        case Start => OnStart();
        case Back => Navigate(Landing);
        case SignIn(name, phoneNumber, joinDate) => Login(name, phoneNumber, joinDate);
        case Go(target) => Navigate(target);
        case SignOut => Logout();
        case AddItem(item) => AddToCart(item);
        case RemoveItem(index) => RemoveFromCart(index);
        case ClearItems => ClearCart();
      }
      if runs {
        PersistSession();
      }
    }
  }
}
