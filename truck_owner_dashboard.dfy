/**
  The truck-owner dashboard: its mount guard, truck fetch and mock data,
  the optimistic truck add, the availability toggle, and logout.
*/
module TruckOwnerDashboard {
  import opened Wrappers
  import opened Ui
  import opened Session

  /** The role this dashboard accepts, and where it sends every other role. */
  const Role: string := TruckOwnerRole
  const Counterpart: Route := SupplierDash

  /** A fleet vehicle; `truckType` is the source's field `type`. */
  datatype Truck = Truck(
    id: string,
    truckType: string,
    capacity: string,
    currentLocation: string,
    driverName: string,
    driverPhone: string,
    registrationNumber: string,
    available: bool,
    specializations: seq<string>)

  /**
    The add-truck form's values: a truck without id. The form has no
    specializations field, so that value may be absent.
  */
  datatype TruckForm = TruckForm(
    truckType: string,
    capacity: string,
    currentLocation: string,
    driverName: string,
    driverPhone: string,
    registrationNumber: string,
    available: bool,
    specializations: Option<seq<string>>)

  /** The tender listing shown to truck owners (a different record from the supplier's). */
  datatype Tender = Tender(
    id: string,
    title: string,
    description: string,
    pickupLocation: string,
    deliveryLocation: string,
    truckType: string,
    goodsType: string,
    weight: string,
    duration: string,
    budget: string,
    supplierName: string,
    supplierPhone: string,
    supplierEmail: string,
    postedAt: string)

  /** The form a truck would have been entered with. */
  function FormOf(t: Truck): TruckForm
  {
    TruckForm(t.truckType, t.capacity, t.currentLocation, t.driverName, t.driverPhone,
              t.registrationNumber, t.available, Some(t.specializations))
  }

  /**
    The truck `onSubmitTruck` builds: the form's fields, a generated id, and
    the specializations defaulting to the empty list when absent.
  */
  function NewTruck(form: TruckForm, id: string): (t: Truck)
    ensures t.id == id
    ensures t.specializations == if form.specializations.Some? then form.specializations.value else []
    ensures FormOf(t) == form.(specializations := Some(t.specializations))
    ensures form.specializations.Some? ==> FormOf(t) == form
  {
    Truck(id, form.truckType, form.capacity, form.currentLocation, form.driverName,
          form.driverPhone, form.registrationNumber, form.available,
          match form.specializations case Some(s) => s case None => [])
  }

  /** Re-entering a truck's own fields under its own id gives the same truck back. */
  lemma NewTruckOfFormOf(t: Truck)
    ensures NewTruck(FormOf(t), t.id) == t
  {
  }

  /** `loadMockData`'s trucks. */
  const MockTrucks: seq<Truck> := [
    Truck("1", "Closed Body", "10 tons", "Mumbai, Maharashtra", "Suresh Singh",
          "+91 99887 76543", "MH-01-AB-1234", true, ["Electronics", "Textiles"])
  ]

  /** `loadMockData`'s tenders. */
  const MockTenders: seq<Tender> := [
    Tender("1", "Electronics Delivery",
           "Urgent delivery of electronics from warehouse to retail stores",
           "Mumbai, Maharashtra", "Pune, Maharashtra", "Closed Body", "Electronics",
           "5 tons", "1 day", "\U{20B9}15,000 - \U{20B9}20,000", "Tech Solutions Ltd",
           "+91 98765 43210", "contact@techsolutions.com", "2024-01-15"),
    Tender("2", "Food Products Transport", "Regular transport of packaged food items",
           "Nashik, Maharashtra", "Mumbai, Maharashtra", "Refrigerated", "Food Products",
           "8 tons", "6 hours", "\U{20B9}25,000 - \U{20B9}30,000", "Fresh Foods Co",
           "+91 87654 32109", "logistics@freshfoods.com", "2024-01-14")
  ]

  /** One step of the toggle's `map`: flip `available` when the id matches. */
  function Toggled(t: Truck, id: string): (u: Truck)
    ensures u.id == t.id
    ensures u.available == (if t.id == id then !t.available else t.available)
    ensures u.(available := t.available) == t
  {
    if t.id == id then t.(available := !t.available) else t
  }

  /** The list `toggleTruckAvailability` leaves: `trucks.map(...)`. */
  function ToggleAvailability(trucks: seq<Truck>, id: string): (r: seq<Truck>)
    ensures |r| == |trucks|
  {
    if trucks == [] then [] else [Toggled(trucks[0], id)] + ToggleAvailability(trucks[1..], id)
  }

  /** The toggle works element by element, in place in the order. */
  lemma {:induction false} ToggleAt(trucks: seq<Truck>, id: string, k: nat)
    requires k < |trucks|
    ensures ToggleAvailability(trucks, id)[k] == Toggled(trucks[k], id)
  {
    if k > 0 {
      ToggleAt(trucks[1..], id, k - 1);
    }
  }

  /**
    Length and order are kept; exactly the trucks whose id is `id` have
    `available` flipped, and nothing else of any truck changes.
  */
  lemma {:induction false} ToggleFrame(trucks: seq<Truck>, id: string)
    ensures |ToggleAvailability(trucks, id)| == |trucks|
    ensures forall k :: 0 <= k < |trucks| ==>
      var u := ToggleAvailability(trucks, id)[k];
      u.id == trucks[k].id &&
      (u.available <==> (trucks[k].available != (trucks[k].id == id))) &&
      u.(available := trucks[k].available) == trucks[k]
  {
    forall k | 0 <= k < |trucks|
      ensures var u := ToggleAvailability(trucks, id)[k];
        u.id == trucks[k].id &&
        (u.available <==> (trucks[k].available != (trucks[k].id == id))) &&
        u.(available := trucks[k].available) == trucks[k]
    {
      ToggleAt(trucks, id, k);
    }
  }

  /** Toggling the same id twice restores the list. */
  lemma {:induction false} ToggleTwice(trucks: seq<Truck>, id: string)
    ensures ToggleAvailability(ToggleAvailability(trucks, id), id) == trucks
  {
    if trucks != [] {
      ToggleTwice(trucks[1..], id);
      var r := ToggleAvailability(trucks, id);
      assert r[1..] == ToggleAvailability(trucks[1..], id);
    }
  }

  /** Toggling an id no truck carries leaves the list as it was. */
  lemma {:induction false} ToggleAbsent(trucks: seq<Truck>, id: string)
    requires forall k :: 0 <= k < |trucks| ==> trucks[k].id != id
    ensures ToggleAvailability(trucks, id) == trucks
  {
    if trucks != [] {
      ToggleAbsent(trucks[1..], id);
    }
  }

  /** The calls this page makes to the REST client. */
  datatype Request = GetTrucks | AddTruck(truck: Truck)

  /** What the page writes to the console. */
  datatype LogEntry = FetchTrucksFailed | TruckAddSucceeded | AddTruckFailed

  /** The component's state, with the session store it reads and clears. */
  class Page {
    const store: SessionStore
    var trucks: seq<Truck>
    var tenders: seq<Tender>
    var user: Option<User>
    /** True while a `getTrucks` promise issued by the mount effect has not settled. */
    var fetchPending: bool
    var requests: seq<Request>
    var log: seq<LogEntry>
    var toasts: seq<Toast>

    /** The first render: every list empty, no user. */
    constructor (store: SessionStore)
      ensures this.store == store
      ensures trucks == [] && tenders == [] && user == None
      ensures !fetchPending && requests == [] && log == [] && toasts == []
    {
      this.store := store;
      trucks, tenders, user := [], [], None;
      fetchPending, requests, log, toasts := false, [], [], [];
    }

    /**
      The mount effect: read the stored record and run the guard; only an
      accepted truck owner sets `user`, issues exactly one `getTrucks` and
      loads the mock trucks and tenders. The fetch settles later, in
      `TrucksSettled`, because a promise callback never runs inside the
      effect that created it.
    */
    method Mount() returns (nav: Option<Route>)
      modifies this
      ensures nav == Admit(store.user, Role, Counterpart).Navigation()
      ensures store.user.None? ==>
        nav == Some(Login) && user == old(user) && requests == old(requests) &&
        trucks == old(trucks) && tenders == old(tenders) && fetchPending == old(fetchPending)
      ensures store.user.Some? && store.user.value.role != Role ==>
        nav == Some(SupplierDash) && user == old(user) && requests == old(requests) &&
        trucks == old(trucks) && tenders == old(tenders) && fetchPending == old(fetchPending)
      ensures store.user.Some? && store.user.value.role == Role ==>
        nav == None && user == store.user && requests == old(requests) + [GetTrucks] &&
        trucks == MockTrucks && tenders == MockTenders && fetchPending
      ensures log == old(log) && toasts == old(toasts)
    {
      var stored := store.GetItem();
      var d := Admit(stored, Role, Counterpart);
      if d.Redirect? {
        nav := Some(d.to);
        return;
      }
      user := stored;
      requests := requests + [GetTrucks];
      fetchPending := true;
      LoadMockData();
      nav := None;
    }

    /** `loadMockData`: one mock truck and two mock tenders replace the lists. */
    method LoadMockData()
      modifies this
      ensures trucks == MockTrucks && tenders == MockTenders
      ensures |trucks| == 1 && |tenders| == 2
      ensures user == old(user) && fetchPending == old(fetchPending)
      ensures requests == old(requests) && log == old(log) && toasts == old(toasts)
    {
      trucks := MockTrucks;
      tenders := MockTenders;
    }

    /**
      The settling of the mount's `getTrucks` promise: on success the list
      (mock entries and any trucks added since) is replaced by the server's,
      on failure it is kept and the error logged.
    */
    method TrucksSettled(result: Option<seq<Truck>>)
      requires fetchPending
      modifies this
      ensures !fetchPending
      ensures result.Some? ==> trucks == result.value && log == old(log)
      ensures result.None? ==> trucks == old(trucks) && log == old(log) + [FetchTrucksFailed]
      ensures tenders == old(tenders) && user == old(user)
      ensures requests == old(requests) && toasts == old(toasts)
    {
      fetchPending := false;
      match result
      case Some(data) => trucks := data;
      case None => log := log + [FetchTrucksFailed];
    }

    /**
      `onSubmitTruck`: the new truck is prepended before `addTruck` is
      called, and stays whatever the call's outcome `added`; only the log
      line depends on it, and the success toast is raised either way.
    */
    method OnSubmitTruck(form: TruckForm, id: string, added: bool)
      modifies this
      ensures trucks == [NewTruck(form, id)] + old(trucks)
      ensures requests == old(requests) + [AddTruck(NewTruck(form, id))]
      ensures log == old(log) + [if added then TruckAddSucceeded else AddTruckFailed]
      ensures toasts == old(toasts) + [TruckAdded]
      ensures tenders == old(tenders) && user == old(user) && fetchPending == old(fetchPending)
    {
      var t := NewTruck(form, id);
      trucks := [t] + trucks;
      requests := requests + [AddTruck(t)];
      if added {
        log := log + [TruckAddSucceeded];
      } else {
        log := log + [AddTruckFailed];
      }
      toasts := toasts + [TruckAdded];
    }

    /** `toggleTruckAvailability`: the fleet list is replaced by its toggled copy. */
    method ToggleTruckAvailability(id: string)
      modifies this
      ensures trucks == ToggleAvailability(old(trucks), id)
      ensures tenders == old(tenders) && user == old(user) && fetchPending == old(fetchPending)
      ensures requests == old(requests) && log == old(log) && toasts == old(toasts)
    {
      trucks := ToggleAvailability(trucks, id);
    }

    /** `logout`: the stored record is removed and the browser sent to "/". */
    method Logout() returns (nav: Route)
      modifies store
      ensures store.user == None && nav == Root
    {
      store.RemoveItem();
      nav := Root;
    }
  }
}
