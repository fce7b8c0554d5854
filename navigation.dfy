/**
  The routing that results from the pages together: where mounting each
  page sends the browser for a given stored record, and what a login or a
  signup leads to.
*/
module Navigation {
  import opened Wrappers
  import opened Ui
  import opened Session
  import SupplierDashboard
  import TruckOwnerDashboard
  import Auth

  /** The navigation the mount of the page at `route` causes; the landing and login pages have no guard. */
  function Next(route: Route, stored: Option<User>): (next: Option<Route>)
    ensures next.Some? ==> route == SupplierDash || route == TruckOwnerDash
  {
    match route
    case SupplierDash =>
      Admit(stored, SupplierDashboard.Role, SupplierDashboard.Counterpart).Navigation()
    case TruckOwnerDash =>
      Admit(stored, TruckOwnerDashboard.Role, TruckOwnerDashboard.Counterpart).Navigation()
    case _ => None
  }

  /** The route reached after following at most `n` mount redirects from `route`. */
  function Follow(route: Route, stored: Option<User>, n: nat): Route
    decreases n
  {
    if n == 0 then route
    else match Next(route, stored)
      case None => route
      case Some(to) => Follow(to, stored, n - 1)
  }

  /** A page stays where it is. */
  predicate Settled(route: Route, stored: Option<User>)
  {
    Next(route, stored).None?
  }

  /** Without a stored record both dashboards send the browser to the login page, which stays. */
  lemma NoSessionGoesToLogin(route: Route)
    requires route == SupplierDash || route == TruckOwnerDash
    ensures Next(route, None) == Some(Login)
    ensures Settled(Login, None) && Follow(route, None, 2) == Login
  {
  }

  /** A record with a known role is accepted by the dashboard `DashboardFor` picks for it. */
  lemma KnownRoleSettles(u: User)
    requires KnownRole(u.role)
    ensures Settled(Auth.DashboardFor(u.role), Some(u))
  {
  }

  /** A record with a known role reaches its dashboard from either dashboard in at most one redirect. */
  lemma {:induction false} KnownRoleReachesDashboard(u: User, route: Route, n: nat)
    requires KnownRole(u.role) && n >= 1
    requires route == SupplierDash || route == TruckOwnerDash
    ensures Follow(route, Some(u), n) == Auth.DashboardFor(u.role)
  {
    if route != Auth.DashboardFor(u.role) {
      KnownRoleSettles(u);
      assert Next(route, Some(u)) == Some(Auth.DashboardFor(u.role));
      FollowSettled(Auth.DashboardFor(u.role), Some(u), n - 1);
    } else {
      FollowSettled(route, Some(u), n);
    }
  }

  /** Following redirects from a settled route stays there. */
  lemma {:induction false} FollowSettled(route: Route, stored: Option<User>, n: nat)
    requires Settled(route, stored)
    ensures Follow(route, stored, n) == route
  {
  }

  /**
    The user a mock login writes is accepted by the dashboard the login
    navigates to, whatever the email.
  */
  lemma LoginLandsOnAcceptingDashboard(email: string)
    ensures Settled(Auth.DashboardFor(Auth.LoginRole(email)), Some(Auth.MockUser(email)))
    ensures Auth.LoginRole(email) == SupplierRole ==>
      Admit(Some(Auth.MockUser(email)), SupplierDashboard.Role, SupplierDashboard.Counterpart).Accept?
    ensures Auth.LoginRole(email) != SupplierRole ==>
      Admit(Some(Auth.MockUser(email)), TruckOwnerDashboard.Role, TruckOwnerDashboard.Counterpart).Accept?
  {
    KnownRoleSettles(Auth.MockUser(email));
  }

  /**
    A stored role other than the two known ones is accepted by neither
    dashboard: starting from the supplier dashboard the browser alternates
    between the two for ever.
  */
  lemma {:induction false} UnknownRoleBounces(u: User, n: nat)
    requires !KnownRole(u.role)
    ensures Follow(SupplierDash, Some(u), n) == if n % 2 == 0 then SupplierDash else TruckOwnerDash
    ensures Follow(TruckOwnerDash, Some(u), n) == if n % 2 == 0 then TruckOwnerDash else SupplierDash
    ensures !Settled(Follow(SupplierDash, Some(u), n), Some(u))
  {
    if n > 0 {
      UnknownRoleBounces(u, n - 1);
      assert Next(SupplierDash, Some(u)) == Some(TruckOwnerDash);
      assert Next(TruckOwnerDash, Some(u)) == Some(SupplierDash);
    }
  }

  /**
    As written, the unchecked query value reaches the stored record: a
    signup opened with `?role=admin` and submitted without touching the
    role select stores role "admin", whose dashboard never settles.
  */
  lemma UncheckedQueryRoleBounces(data: Auth.SignupForm, id: string)
    requires data.role == Auth.DefaultRole(Some("admin"))
    ensures data.role == "admin"
    ensures Auth.DashboardFor(data.role) == TruckOwnerDash
    ensures forall n: nat :: !Settled(Follow(Auth.DashboardFor(data.role), Some(Auth.SignupRecord(data, id)), n),
                                      Some(Auth.SignupRecord(data, id)))
  {
    var u := Auth.SignupRecord(data, id);
    forall n: nat
      ensures !Settled(Follow(TruckOwnerDash, Some(u), n), Some(u))
    {
      UnknownRoleBounces(u, n);
      UnknownRoleBounces(u, n + 1);
      assert Follow(SupplierDash, Some(u), n + 1) == Follow(TruckOwnerDash, Some(u), n);
    }
  }

  /** The role a signup submits: the last select pick, or the form's default if none was made. */
  function SubmittedRole(default: string, pick: Option<Auth.RolePick>): (role: string)
    ensures pick.Some? ==> role == Auth.PickedRole(pick.value)
    ensures pick.None? ==> role == default
  {
    match pick
    case Some(p) => Auth.PickedRole(p)
    case None => default
  }

  /**
    With the checked default role, every signup lands on, and is accepted
    by, the dashboard it is sent to, whatever the query and the pick.
  */
  lemma CheckedSignupSettles(query: Option<string>, pick: Option<Auth.RolePick>, data: Auth.SignupForm, id: string)
    requires data.role == SubmittedRole(Auth.CheckedDefaultRole(query), pick)
    ensures KnownRole(data.role)
    ensures Settled(Auth.DashboardFor(data.role), Some(Auth.SignupRecord(data, id)))
  {
    KnownRoleSettles(Auth.SignupRecord(data, id));
  }

  /**
    A mock login followed by the mount of the dashboard it navigates to:
    the pages' own contracts show the dashboard accepts the user and stays.
  */
  method LoginThenMount(email: string, password: string) returns (nav: Route, after: Option<Route>)
    ensures nav == Auth.DashboardFor(Auth.LoginRole(email))
    ensures after == None
  {
    var store := new SessionStore(None);
    var auth := new Auth.Page(store, None);
    nav := auth.OnLogin(Auth.LoginForm(email, password));
    if nav == SupplierDash {
      var page := new SupplierDashboard.Page(store);
      after := page.Mount();
    } else {
      var page := new TruckOwnerDashboard.Page(store);
      after := page.Mount();
    }
  }

  /**
    A supplier logged in, whose tender fetch settles with `fetched`, posts
    the tender "Electronics Delivery": it heads the list, active, under the
    generated id, and the list grew by one whether or not `created`.
  */
  method PostTenderScenario(id: string, now: string, created: bool, fetched: Option<seq<SupplierDashboard.Tender>>)
    returns (first: SupplierDashboard.Tender, count: nat)
    ensures first.title == "Electronics Delivery" && first.pickupLocation == "Mumbai, Maharashtra"
    ensures first.deliveryLocation == "Pune, Maharashtra"
    ensures first.status == SupplierDashboard.Active && first.id == id
    ensures count == 1 + if fetched.Some? then |fetched.value| else 0
  {
    var store := new SessionStore(Some(Auth.MockUser("supplier@example.com")));
    var page := new SupplierDashboard.Page(store);
    var nav := page.Mount();
    page.TendersSettled(fetched);
    var form := SupplierDashboard.TenderForm("Electronics Delivery",
      "Urgent delivery of electronics from warehouse to retail stores",
      "Mumbai, Maharashtra", "Pune, Maharashtra", "Closed Body", "Electronics",
      "5 tons", "1 day", "");
    page.OnSubmitTender(form, id, now, created);
    first := page.tenders[0];
    count := |page.tenders|;
  }
}
