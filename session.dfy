/**
  The session record kept in local storage under the key "user", and the
  mount guard every dashboard runs against it.
*/
module Session {
  import opened Wrappers
  import opened Ui

  const SupplierRole: string := "supplier"
  const TruckOwnerRole: string := "truck-owner"

  /** The two roles a dashboard exists for. */
  predicate KnownRole(role: string)
  {
    role == SupplierRole || role == TruckOwnerRole
  }

  /**
    The stored user record. Signup stores the whole signup form plus an id;
    mock login stores only id, email, role and name, so password and phone
    are optional here. The role is whatever string was written: nothing
    checks it against the two known roles.
  */
  datatype User = User(
    id: string,
    name: string,
    email: string,
    password: Option<string>,
    phone: Option<string>,
    role: string,
    company: Option<string>)

  /** Local storage, reduced to its one key "user". */
  class SessionStore {
    var user: Option<User>

    constructor (initial: Option<User>)
      ensures user == initial
    {
      user := initial;
    }

    /** `localStorage.getItem("user")`, parsed. */
    method GetItem() returns (stored: Option<User>)
      ensures stored == user
    {
      stored := user;
    }

    /** `localStorage.setItem("user", JSON.stringify(u))`. */
    method SetItem(u: User)
      modifies this
      ensures user == Some(u)
    {
      user := Some(u);
    }

    /** `localStorage.removeItem("user")`. */
    method RemoveItem()
      modifies this
      ensures user == None
    {
      user := None;
    }
  }

  /** What a dashboard's mount guard decides. */
  datatype Decision = Accept(user: User) | Redirect(to: Route)
  {
    /** The navigation the decision causes, if any. */
    function Navigation(): Option<Route>
    {
      if Redirect? then Some(to) else None
    }
  }

  /**
    The guard a dashboard runs on mount: no record sends the browser to the
    login page, a record with another role to the counterpart dashboard,
    and only a record whose role is exactly `role` is accepted.
  */
  function Admit(stored: Option<User>, role: string, counterpart: Route): (d: Decision)
    ensures d.Accept? <==> stored.Some? && stored.value.role == role
    ensures d.Accept? ==> d.user == stored.value
    ensures stored.None? ==> d == Redirect(Login)
    ensures stored.Some? && stored.value.role != role ==> d == Redirect(counterpart)
  {
    match stored
    case None => Redirect(Login)
    case Some(u) => if u.role != role then Redirect(counterpart) else Accept(u)
  }
}
