/** The per-session state machine: the session store, the events one rerun of
    the app can apply (a sidebar click, a form submit on the page being shown,
    or a rerun that writes nothing), and the router that picks the one page to
    show. SessionState and Next are the specification; the class SessionStore is
    the store the handlers update in place. */
module Session {
  import opened Pages
  import Forms
  import SensorDashboard
  import YieldPrediction

  /** A line of the shopping cart. The store starts with an empty cart and no
      handler of this app adds to it. */
  datatype CartItem = CartItem(productName: string, price: real)

  /** The values kept in the session store between reruns. */
  datatype SessionState = SessionState(
    loggedIn: bool,
    username: string,
    cart: seq<CartItem>,
    currentPage: string)

  /** The defaults written when a session starts. */
  const Initial: SessionState := SessionState(false, "", [], "Home")

  /** What one rerun does to the store. A sidebar click names the page of its
      button; the two submits come from the forms of the Login and Create
      Account pages; Rerun is any other interaction (a slider, a selectbox) that
      writes nothing to the store. */
  datatype Event =
    | Navigate(target: Page)
    | SubmitLogin(username: string, password: string)
    | SubmitNewAccount(username: string, password: string, confirm: string)
    | Rerun

  /** The sidebar draws the Login and Create Account buttons only while logged
      out, so only then can they be clicked. */
  predicate ButtonShown(loggedIn: bool, target: Page)
  {
    !(loggedIn && (target == Login || target == CreateAccount))
  }

  /** The store after one event. A form submit takes effect only on the page
      whose handler draws that form. */
  function Next(s: SessionState, e: Event): (r: SessionState)
    ensures r.cart == s.cart
    ensures s.loggedIn ==> r.loggedIn
    ensures r.currentPage != s.currentPage ==> e.Navigate? && Route(r.currentPage) == Some(e.target)
    ensures r.loggedIn != s.loggedIn || r.username != s.username ==>
      e.SubmitLogin? && r.loggedIn && r.username == e.username != []
  {
    match e
    case Navigate(target) =>
      RouteInvertsId(target);
      if ButtonShown(s.loggedIn, target) then s.(currentPage := Id(target)) else s
    case SubmitLogin(u, p) =>
      if Route(s.currentPage) == Some(Login) && Forms.CheckLogin(u, p) == Forms.Welcome
      then s.(loggedIn := true, username := u)
      else s
    case SubmitNewAccount(_, _, _) => s
    case Rerun => s
  }

  /** The store after a sequence of events, one per rerun. No event touches
      the cart, and there is no logout: once logged in, a session stays logged
      in. */
  function Run(s: SessionState, es: seq<Event>): (r: SessionState)
    ensures r.cart == s.cart
    ensures s.loggedIn ==> r.loggedIn
    decreases |es|
  {
    if es == [] then s else Run(Next(s, es[0]), es[1..])
  }

  /** The message a rerun shows for its event. */
  datatype Feedback =
    | Silent
    | LoginFeedback(login: Forms.LoginOutcome)
    | AccountFeedback(account: Forms.AccountOutcome)

  function FeedbackFor(s: SessionState, e: Event): (fb: Feedback)
    ensures fb.LoginFeedback? <==> e.SubmitLogin? && Route(s.currentPage) == Some(Login)
    ensures fb.AccountFeedback? <==> e.SubmitNewAccount? && Route(s.currentPage) == Some(CreateAccount)
    ensures fb.LoginFeedback? ==> fb.login == Forms.CheckLogin(e.username, e.password)
    ensures fb.AccountFeedback? ==> fb.account == Forms.CheckNewAccount(e.username, e.password, e.confirm)
  {
    match e
    case SubmitLogin(u, p) =>
      if Route(s.currentPage) == Some(Login) then LoginFeedback(Forms.CheckLogin(u, p)) else Silent
    case SubmitNewAccount(u, p, c) =>
      if Route(s.currentPage) == Some(CreateAccount)
      then AccountFeedback(Forms.CheckNewAccount(u, p, c))
      else Silent
    case _ => Silent
  }

  /** What holds of every store a session can reach: the page is one the router
      knows, a user is logged in exactly when a username is recorded, and the
      cart is still empty. */
  predicate Invariant(s: SessionState)
  {
    Routed(s.currentPage) && (s.loggedIn <==> s.username != []) && s.cart == []
  }

  /** A fresh session is logged out, has no username and an empty cart, and
      shows Home. */
  lemma InitialState()
    ensures !Initial.loggedIn && Initial.username == [] && Initial.cart == []
    ensures Route(Initial.currentPage) == Some(Home)
    ensures Invariant(Initial)
  {
  }

  lemma NextPreservesInvariant(s: SessionState, e: Event)
    requires Invariant(s)
    ensures Invariant(Next(s, e))
  {
    if e.Navigate? {
      RouteInvertsId(e.target);
    }
  }

  /** A sidebar click lands on its page, unless it is the Login or Create
      Account button while logged in, which leaves the store as it was; either
      way only current_page can change. */
  lemma NavigateLands(s: SessionState, target: Page)
    ensures var t := Next(s, Navigate(target));
      t.loggedIn == s.loggedIn && t.username == s.username && t.cart == s.cart
    ensures ButtonShown(s.loggedIn, target) ==> Route(Next(s, Navigate(target)).currentPage) == Some(target)
    ensures !ButtonShown(s.loggedIn, target) ==> Next(s, Navigate(target)) == s
  {
    RouteInvertsId(target);
  }

  /** On the Login page a submit with both fields filled logs in as the given
      user, whoever was logged in before and whatever account was created; a
      submit with a field empty changes nothing. Off the Login page the form is
      not drawn and a submit changes nothing. */
  lemma LoginSubmitEffect(s: SessionState, u: string, p: string)
    ensures Route(s.currentPage) == Some(Login) && u != [] && p != [] ==>
      Next(s, SubmitLogin(u, p)) == s.(loggedIn := true, username := u)
    ensures u == [] || p == [] || Route(s.currentPage) != Some(Login) ==>
      Next(s, SubmitLogin(u, p)) == s
  {
  }

  /** Creating an account stores nothing: the store is unchanged by it, so
      whether it ran makes no difference to any later event. */
  lemma NewAccountStoresNothing(s: SessionState, u: string, p: string, c: string, rest: seq<Event>)
    ensures Next(s, SubmitNewAccount(u, p, c)) == s
    ensures Run(s, [SubmitNewAccount(u, p, c)] + rest) == Run(s, rest)
  {
    assert ([SubmitNewAccount(u, p, c)] + rest)[1..] == rest;
  }

  /** Every store reached from a valid one is valid; in particular every store a
      session reaches names a routed page. */
  lemma {:induction false} RunPreservesInvariant(s: SessionState, es: seq<Event>)
    requires Invariant(s)
    ensures Invariant(Run(s, es))
    decreases |es|
  {
    if es != [] {
      NextPreservesInvariant(s, es[0]);
      RunPreservesInvariant(Next(s, es[0]), es[1..]);
    }
  }

  /** The only way in is a Login submit with both fields filled, made while the
      Login page was shown. */
  lemma {:induction false} OnlyLoginLogsIn(s: SessionState, es: seq<Event>)
    requires !s.loggedIn && Run(s, es).loggedIn
    ensures exists k :: (0 <= k < |es| && es[k].SubmitLogin? && es[k].username != [] && es[k].password != [] &&
                         Route(Run(s, es[..k]).currentPage) == Some(Login))
    decreases |es|
  {
    var e := es[0];
    var t := Next(s, e);
    assert Run(s, es[..0]) == s;
    if t.loggedIn {
      assert e.SubmitLogin? && e.username != [] && e.password != [] && Route(Run(s, es[..0]).currentPage) == Some(Login);
    } else {
      OnlyLoginLogsIn(t, es[1..]);
      var k :| 0 <= k < |es[1..]| && es[1..][k].SubmitLogin? && es[1..][k].username != [] &&
        es[1..][k].password != [] && Route(Run(t, es[1..][..k]).currentPage) == Some(Login);
      assert es[..k + 1][0] == e && es[..k + 1][1..] == es[1..][..k];
      assert Run(s, es[..k + 1]) == Run(t, es[1..][..k]);
      assert es[k + 1] == es[1..][k];
    }
  }

  /** What the router puts on screen for one rerun. */
  datatype Screen =
    | HomeScreen
    | LoginScreen
    | CreateAccountScreen
    | DashboardScreen(view: SensorDashboard.View)
    | PredictionScreen(crop: YieldPrediction.Crop, estimate: real)
    | AboutUsScreen
    | ContactUsScreen
    | AboutProductScreen
    | Blank

  /** The page a screen belongs to. */
  function ScreenPage(sc: Screen): Option<Page>
  {
    match sc
    case HomeScreen => Some(Home)
    case LoginScreen => Some(Login)
    case CreateAccountScreen => Some(CreateAccount)
    case DashboardScreen(_) => Some(Dashboard)
    case PredictionScreen(_, _) => Some(Prediction)
    case AboutUsScreen => Some(AboutUs)
    case ContactUsScreen => Some(ContactUs)
    case AboutProductScreen => Some(AboutProduct)
    case Blank => None
  }

  /** The screen for a store, given the sensor readings of this render and the
      values on the prediction page's widgets. */
  function ScreenFor(s: SessionState, readings: SensorDashboard.Readings, input: YieldPrediction.Input): (sc: Screen)
    ensures ScreenPage(sc) == Route(s.currentPage)
    ensures sc.DashboardScreen? ==> sc.view == SensorDashboard.Show(s.loggedIn, readings)
    ensures sc.PredictionScreen? ==> sc.crop == input.crop && sc.estimate == YieldPrediction.EstimatedYield(input)
  {
    match Route(s.currentPage)
    case None => Blank
    case Some(p) =>
      match p
      case Home => HomeScreen
      case Login => LoginScreen
      case CreateAccount => CreateAccountScreen
      case Dashboard => DashboardScreen(SensorDashboard.Show(s.loggedIn, readings))
      case Prediction => PredictionScreen(input.crop, YieldPrediction.EstimatedYield(input))
      case AboutUs => AboutUsScreen
      case ContactUs => ContactUsScreen
      case AboutProduct => AboutProductScreen
  }

  /** A session never shows a blank screen: from a fresh store, whatever the
      events, the router always finds a page. */
  lemma NeverBlank(es: seq<Event>, readings: SensorDashboard.Readings, input: YieldPrediction.Input)
    ensures ScreenFor(Run(Initial, es), readings, input) != Blank
  {
    InitialState();
    RunPreservesInvariant(Initial, es);
  }

  /** The session store of one browser session, updated in place by the
      handlers. */
  class SessionStore {
    var loggedIn: bool
    var cart: seq<CartItem>
    var username: string
    var currentPage: string

    function Snapshot(): SessionState
      reads this
    {
      SessionState(loggedIn, username, cart, currentPage)
    }

    ghost predicate Valid()
      reads this
    {
      Invariant(Snapshot())
    }

    /** A fresh session with the default values. */
    constructor ()
      ensures !loggedIn && cart == [] && username == "" && currentPage == "Home"
      ensures Snapshot() == Initial
      ensures Valid()
    {
      loggedIn := false;
      cart := [];
      username := "";
      currentPage := "Home";
    }

    /** The sidebar: a click on the button for target. */
    method NavigateTo(target: Page)
      requires Valid()
      modifies this
      ensures Valid()
      ensures loggedIn == old(loggedIn) && username == old(username) && cart == old(cart)
      ensures currentPage == if ButtonShown(old(loggedIn), target) then Id(target) else old(currentPage)
    {
      if target == Home {
        currentPage := "Home";
      }
      if !loggedIn {
        if target == Login {
          currentPage := "Login";
        }
        if target == CreateAccount {
          currentPage := "Create Account";
        }
      }
      if target == Dashboard {
        currentPage := "Dashboard";
      }
      if target == Prediction {
        currentPage := "Prediction";
      }
      if target == AboutUs {
        currentPage := "About Us";
      }
      if target == ContactUs {
        currentPage := "Contact Us";
      }
      if target == AboutProduct {
        currentPage := "About Product";
      }
      RouteInvertsId(target);
    }

    /** The Login page's submit button. */
    method LoginSubmit(u: string, p: string) returns (outcome: Forms.LoginOutcome)
      requires Valid()
      modifies this
      ensures Valid()
      ensures outcome == Forms.CheckLogin(u, p)
      ensures outcome == Forms.Welcome ==> loggedIn && username == u
      ensures outcome != Forms.Welcome ==> loggedIn == old(loggedIn) && username == old(username)
      ensures cart == old(cart) && currentPage == old(currentPage)
    {
      if u != [] && p != [] {
        loggedIn := true;
        username := u;
        outcome := Forms.Welcome;
      } else {
        outcome := Forms.LoginFieldsRequired;
      }
    }

    /** One rerun: the event is applied by the handler that receives it. */
    method Handle(e: Event) returns (fb: Feedback)
      requires Valid()
      modifies this
      ensures Valid()
      ensures Snapshot() == Next(old(Snapshot()), e)
      ensures fb == FeedbackFor(old(Snapshot()), e)
    {
      match e
      case Navigate(target) =>
        NavigateTo(target);
        fb := Silent;
      case SubmitLogin(u, p) =>
        if Route(currentPage) == Some(Login) {
          var o := LoginSubmit(u, p);
          fb := LoginFeedback(o);
        } else {
          fb := Silent;
        }
      case SubmitNewAccount(u, p, c) =>
        if Route(currentPage) == Some(CreateAccount) {
          fb := AccountFeedback(Forms.CheckNewAccount(u, p, c));
        } else {
          fb := Silent;
        }
      case Rerun =>
        fb := Silent;
    }

    /** The router: runs the one handler that matches current_page. It writes
        nothing to the store. */
    method Render(readings: SensorDashboard.Readings, input: YieldPrediction.Input) returns (sc: Screen)
      ensures sc == ScreenFor(Snapshot(), readings, input)
      ensures Valid() ==> sc != Blank
    {
      if currentPage == "Home" {
        sc := HomeScreen;
      } else if currentPage == "Login" {
        sc := LoginScreen;
      } else if currentPage == "Create Account" {
        sc := CreateAccountScreen;
      } else if currentPage == "Dashboard" {
        sc := DashboardScreen(SensorDashboard.Show(loggedIn, readings));
      } else if currentPage == "Prediction" {
        sc := PredictionScreen(input.crop, YieldPrediction.EstimatedYield(input));
      } else if currentPage == "About Us" {
        sc := AboutUsScreen;
      } else if currentPage == "Contact Us" {
        sc := ContactUsScreen;
      } else if currentPage == "About Product" {
        sc := AboutProductScreen;
      } else {
        sc := Blank;
      }
    }
  }
}
