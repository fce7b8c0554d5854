/**
  The login/signup page: the initial tab and default role taken from the
  `role` query parameter, and the mock signup and login handlers that write
  the session record and pick a dashboard.
*/
module Auth {
  import opened Wrappers
  import opened Ui
  import opened Session

  datatype Tab = LoginTab | SignupTab

  /**
    `defaultRole ? "signup" : "login"`: the signup tab opens exactly when the
    query parameter is present and non-empty (an empty string is falsy).
  */
  function InitialTab(query: Option<string>): (tab: Tab)
    ensures tab == SignupTab <==> query.Some? && query.value != ""
  {
    if query.Some? && query.value != "" then SignupTab else LoginTab
  }

  /**
    `defaultRole || "supplier"`: the signup form's initial role is the query
    value when it is non-empty, unchecked, and "supplier" otherwise. The
    signup tab is open exactly when the query value is the default role.
  */
  function DefaultRole(query: Option<string>): (role: string)
    ensures query.Some? ==> (InitialTab(query) == SignupTab <==> role == query.value)
    ensures InitialTab(query) == LoginTab ==> role == SupplierRole
  {
    if query.Some? && query.value != "" then query.value else SupplierRole
  }

  /**
    The default role as it should be: a query value is used only when it
    names one of the two roles, so the form always starts on a known role.
  */
  function CheckedDefaultRole(query: Option<string>): (role: string)
    ensures KnownRole(role)
    ensures query.Some? && KnownRole(query.value) ==> role == query.value
    ensures query.Some? && KnownRole(query.value) ==> role == DefaultRole(query)
  {
    if query.Some? && KnownRole(query.value) then query.value else SupplierRole
  }

  /** The two items of the role select. */
  datatype RolePick = PickSupplier | PickTruckOwner

  function PickedRole(p: RolePick): (role: string)
    ensures KnownRole(role)
    ensures p.PickSupplier? <==> role == SupplierRole
  {
    match p
    case PickSupplier => SupplierRole
    case PickTruckOwner => TruckOwnerRole
  }

  /** `s[i..]` starts with `sub`. */
  predicate OccursAt(s: string, sub: string, i: nat)
  {
    i + |sub| <= |s| && s[i..i + |sub|] == sub
  }

  /** `s.includes(sub)`. */
  function Includes(s: string, sub: string): bool
  {
    |sub| <= |s| && (s[..|sub|] == sub || Includes(s[1..], sub))
  }

  /** `Includes` holds exactly when `sub` occurs somewhere in `s`. */
  lemma {:induction false} IncludesIff(s: string, sub: string)
    ensures Includes(s, sub) <==> exists i: nat :: OccursAt(s, sub, i)
  {
    if |sub| <= |s| && s[..|sub|] != sub {
      IncludesIff(s[1..], sub);
      if Includes(s[1..], sub) {
        var i: nat :| OccursAt(s[1..], sub, i);
        assert s[i + 1..i + 1 + |sub|] == s[1..][i..i + |sub|];
        assert OccursAt(s, sub, i + 1);
      } else {
        forall i: nat | OccursAt(s, sub, i)
          ensures false
        {
          if i > 0 {
            assert s[1..][i - 1..i - 1 + |sub|] == s[i..i + |sub|];
            assert OccursAt(s[1..], sub, i - 1);
          }
        }
      }
    } else if |sub| <= |s| {
      assert OccursAt(s, sub, 0);
    }
  }

  /**
    The mock login's role: "supplier" exactly when the email contains the
    text "supplier" anywhere, "truck-owner" otherwise.
  */
  function LoginRole(email: string): (role: string)
    ensures KnownRole(role)
    ensures role == SupplierRole <==> exists i: nat :: OccursAt(email, "supplier", i)
  {
    IncludesIff(email, "supplier");
    if Includes(email, "supplier") then SupplierRole else TruckOwnerRole
  }

  /** The record the mock login stores; the password is never looked at. */
  function MockUser(email: string): (u: User)
    ensures u.id == "1" && u.email == email && u.name == "Demo User"
    ensures u.role == LoginRole(email) && KnownRole(u.role)
    ensures u.password.None? && u.phone.None? && u.company.None?
  {
    User("1", "Demo User", email, None, None, LoginRole(email), None)
  }

  /** The values `onSignup` receives. */
  datatype SignupForm = SignupForm(
    name: string,
    email: string,
    password: string,
    phone: string,
    role: string,
    company: Option<string>)

  datatype LoginForm = LoginForm(email: string, password: string)

  /** The signup form a stored record was made from, if it was made by signup. */
  function SignupFormOf(u: User): Option<SignupForm>
  {
    if u.password.Some? && u.phone.Some? then
      Some(SignupForm(u.name, u.email, u.password.value, u.phone.value, u.role, u.company))
    else
      None
  }

  /** `{...data, id}`: the signup form plus the generated id, nothing else. */
  function SignupRecord(data: SignupForm, id: string): (u: User)
    ensures SignupFormOf(u) == Some(data) && u.id == id
  {
    User(id, data.name, data.email, Some(data.password), Some(data.phone), data.role, data.company)
  }

  /** Login records are never mistaken for signup records. */
  lemma MockUserIsNoSignup(email: string)
    ensures SignupFormOf(MockUser(email)).None?
  {
  }

  /** The dashboard a signup or login navigates to: "supplier" or else the truck-owner one. */
  function DashboardFor(role: string): (r: Route)
    ensures r == SupplierDash <==> role == SupplierRole
    ensures r == SupplierDash || r == TruckOwnerDash
  {
    if role == SupplierRole then SupplierDash else TruckOwnerDash
  }

  /** The page's state: the open tab and the role field of the signup form. */
  class Page {
    const store: SessionStore
    var activeTab: Tab
    var signupRole: string
    var toasts: seq<Toast>

    /** The first render, for the `role` query parameter `query`. */
    constructor (store: SessionStore, query: Option<string>)
      ensures this.store == store
      ensures activeTab == InitialTab(query) && signupRole == DefaultRole(query)
      ensures toasts == []
    {
      this.store := store;
      activeTab := InitialTab(query);
      signupRole := DefaultRole(query);
      toasts := [];
    }

    /** Clicking a tab. */
    method SelectTab(tab: Tab)
      modifies this
      ensures activeTab == tab && signupRole == old(signupRole) && toasts == old(toasts)
    {
      activeTab := tab;
    }

    /** Choosing an item of the role select. */
    method SelectRole(p: RolePick)
      modifies this
      ensures signupRole == PickedRole(p) && KnownRole(signupRole)
      ensures activeTab == old(activeTab) && toasts == old(toasts)
    {
      signupRole := PickedRole(p);
    }

    /**
      `onSignup`: the submitted form carries the form's role; the record
      stored is the form plus `id`, and the browser goes to the supplier
      dashboard for "supplier" and to the truck-owner one for any other role.
    */
    method OnSignup(data: SignupForm, id: string) returns (nav: Route)
      requires data.role == signupRole
      modifies store, this
      ensures store.user == Some(SignupRecord(data, id))
      ensures nav == DashboardFor(data.role)
      ensures nav == SupplierDash <==> data.role == SupplierRole
      ensures toasts == old(toasts) + [AccountCreated]
      ensures activeTab == old(activeTab) && signupRole == old(signupRole)
    {
      store.SetItem(SignupRecord(data, id));
      toasts := toasts + [AccountCreated];
      nav := DashboardFor(data.role);
    }

    /**
      `onLogin`: the mock user for the email is stored and the browser goes
      to the dashboard of its role.
    */
    method OnLogin(data: LoginForm) returns (nav: Route)
      modifies store, this
      ensures store.user == Some(MockUser(data.email))
      ensures nav == DashboardFor(LoginRole(data.email))
      ensures toasts == old(toasts) + [WelcomeBack]
      ensures activeTab == old(activeTab) && signupRole == old(signupRole)
    {
      store.SetItem(MockUser(data.email));
      toasts := toasts + [WelcomeBack];
      nav := DashboardFor(LoginRole(data.email));
    }
  }
}
