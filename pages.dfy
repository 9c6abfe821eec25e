/** The closed set of pages of the AgriKit app: the identifiers the sidebar
    stores in current_page and the router that maps a stored identifier to the
    one page handler it runs. */
module Pages {

  datatype Option<T> = None | Some(value: T)

  /** The eight pages the router knows. */
  datatype Page =
    | Home
    | Login
    | CreateAccount
    | Dashboard
    | Prediction
    | AboutUs
    | ContactUs
    | AboutProduct

  /** The string the sidebar writes into current_page for each page; none of
      them is empty. RouteInvertsId shows the router sends each back to its page. */
  function Id(p: Page): (id: string)
    ensures id != []
  {
    match p
    case Home => "Home"
    case Login => "Login"
    case CreateAccount => "Create Account"
    case Dashboard => "Dashboard"
    case Prediction => "Prediction"
    case AboutUs => "About Us"
    case ContactUs => "Contact Us"
    case AboutProduct => "About Product"
  }

  /** The router: the page whose handler runs for a stored identifier, or None
      when the identifier matches no branch and nothing is rendered. */
  function Route(id: string): (r: Option<Page>)
    ensures r.Some? ==> Id(r.value) == id
    ensures (exists p :: Id(p) == id) ==> r.Some?
  {
    if id == "Home" then Some(Home)
    else if id == "Login" then Some(Login)
    else if id == "Create Account" then Some(CreateAccount)
    else if id == "Dashboard" then Some(Dashboard)
    else if id == "Prediction" then Some(Prediction)
    else if id == "About Us" then Some(AboutUs)
    else if id == "Contact Us" then Some(ContactUs)
    else if id == "About Product" then Some(AboutProduct)
    else None
  }

  /** An identifier the router dispatches on. */
  predicate Routed(id: string)
  {
    Route(id).Some?
  }

  /** Every page's identifier is routed back to that page and to no other. */
  lemma RouteInvertsId(p: Page)
    ensures Route(Id(p)) == Some(p)
  {
  }

  /** Distinct pages have distinct identifiers, so a routed identifier names
      exactly one page. */
  lemma IdInjective(p: Page, q: Page)
    ensures Id(p) == Id(q) <==> p == q
  {
    RouteInvertsId(p);
    RouteInvertsId(q);
  }
}
