/**
  The supplier dashboard: its mount guard and tender fetch, the optimistic
  tender post, and logout.
*/
module SupplierDashboard {
  import opened Wrappers
  import opened Ui
  import opened Session

  /** The role this dashboard accepts, and where it sends every other role. */
  const Role: string := SupplierRole
  const Counterpart: Route := TruckOwnerDash

  datatype Status = Active | Matched | Completed

  datatype Tender = Tender(
    id: string,
    title: string,
    description: string,
    pickupLocation: string,
    deliveryLocation: string,
    truckType: string,
    goodsType: string,
    weight: string,
    duration: string,
    budget: string,
    createdAt: string,
    status: Status)

  /** The tender form's values: a tender without id, createdAt and status. */
  datatype TenderForm = TenderForm(
    title: string,
    description: string,
    pickupLocation: string,
    deliveryLocation: string,
    truckType: string,
    goodsType: string,
    weight: string,
    duration: string,
    budget: string)

  /** The form fields of a tender, dropping what the handler supplies. */
  function FormOf(t: Tender): TenderForm
  {
    TenderForm(t.title, t.description, t.pickupLocation, t.deliveryLocation,
               t.truckType, t.goodsType, t.weight, t.duration, t.budget)
  }

  /** The truck-owner directory entry; this page never fills its list. */
  datatype OwnerTruck = OwnerTruck(
    id: string,
    truckType: string,
    capacity: string,
    location: string,
    driverName: string,
    available: bool)

  datatype TruckOwner = TruckOwner(
    id: string,
    name: string,
    email: string,
    phone: string,
    company: string,
    trucks: seq<OwnerTruck>)

  /**
    `iso.split('T')[0]`: the longest prefix of `iso` without a 'T', which on
    an ISO timestamp is its calendar date.
  */
  function DatePart(iso: string): (d: string)
    ensures d <= iso
    ensures 'T' !in d
    ensures |d| < |iso| ==> iso[|d|] == 'T'
  {
    if iso == [] || iso[0] == 'T' then [] else [iso[0]] + DatePart(iso[1..])
  }

  /**
    The tender `onSubmitTender` builds: every form field copied, a generated
    id, today's date and status active.
  */
  function NewTender(form: TenderForm, id: string, now: string): (t: Tender)
    ensures FormOf(t) == form
    ensures t.id == id && t.createdAt == DatePart(now) && t.status == Active
  {
    Tender(id, form.title, form.description, form.pickupLocation, form.deliveryLocation,
           form.truckType, form.goodsType, form.weight, form.duration, form.budget,
           DatePart(now), Active)
  }

  /** The calls this page makes to the REST client. */
  datatype Request = GetTenders | CreateTender(tender: Tender)

  /** What the page writes to the console. */
  datatype LogEntry = FetchTendersFailed | TenderCreated | CreateTenderFailed

  /** The component's state, with the session store it reads and clears. */
  class Page {
    const store: SessionStore
    var tenders: seq<Tender>
    var truckOwners: seq<TruckOwner>
    var user: Option<User>
    /** True while a `getTenders` promise issued by the mount effect has not settled. */
    var fetchPending: bool
    var requests: seq<Request>
    var log: seq<LogEntry>
    var toasts: seq<Toast>

    /** The first render: every list empty, no user. */
    constructor (store: SessionStore)
      ensures this.store == store
      ensures tenders == [] && truckOwners == [] && user == None
      ensures !fetchPending && requests == [] && log == [] && toasts == []
    {
      this.store := store;
      tenders, truckOwners, user := [], [], None;
      fetchPending, requests, log, toasts := false, [], [], [];
    }

    /**
      The mount effect: read the stored record and run the guard; only an
      accepted supplier sets `user` and issues exactly one `getTenders`.
      The mock-data loader is never called, so `truckOwners` is untouched.
    */
    method Mount() returns (nav: Option<Route>)
      modifies this
      ensures nav == Admit(store.user, Role, Counterpart).Navigation()
      ensures store.user.None? ==>
        nav == Some(Login) && user == old(user) && requests == old(requests) && fetchPending == old(fetchPending)
      ensures store.user.Some? && store.user.value.role != Role ==>
        nav == Some(TruckOwnerDash) && user == old(user) && requests == old(requests) && fetchPending == old(fetchPending)
      ensures store.user.Some? && store.user.value.role == Role ==>
        nav == None && user == store.user && requests == old(requests) + [GetTenders] && fetchPending
      ensures tenders == old(tenders) && truckOwners == old(truckOwners)
      ensures log == old(log) && toasts == old(toasts)
    {
      var stored := store.GetItem();
      var d := Admit(stored, Role, Counterpart);
      if d.Redirect? {
        nav := Some(d.to);
        return;
      }
      user := stored;
      requests := requests + [GetTenders];
      fetchPending := true;
      nav := None;
    }

    /**
      The settling of the mount's `getTenders` promise: on success the list
      is replaced by the server's, on failure it is kept and the error logged.
    */
    method TendersSettled(result: Option<seq<Tender>>)
      requires fetchPending
      modifies this
      ensures !fetchPending
      ensures result.Some? ==> tenders == result.value && log == old(log)
      ensures result.None? ==> tenders == old(tenders) && log == old(log) + [FetchTendersFailed]
      ensures truckOwners == old(truckOwners) && user == old(user)
      ensures requests == old(requests) && toasts == old(toasts)
    {
      fetchPending := false;
      match result
      case Some(data) => tenders := data;
      case None => log := log + [FetchTendersFailed];
    }

    /**
      `onSubmitTender`: the new tender is prepended before `createTender` is
      called, and stays whatever the call's outcome `created`; only the log
      line depends on it, and the success toast is raised either way.
    */
    method OnSubmitTender(form: TenderForm, id: string, now: string, created: bool)
      modifies this
      ensures tenders == [NewTender(form, id, now)] + old(tenders)
      ensures requests == old(requests) + [CreateTender(NewTender(form, id, now))]
      ensures log == old(log) + [if created then TenderCreated else CreateTenderFailed]
      ensures toasts == old(toasts) + [TenderPosted]
      ensures truckOwners == old(truckOwners) && user == old(user) && fetchPending == old(fetchPending)
    {
      var t := NewTender(form, id, now);
      tenders := [t] + tenders;
      requests := requests + [CreateTender(t)];
      if created {
        log := log + [TenderCreated];
      } else {
        log := log + [CreateTenderFailed];
      }
      toasts := toasts + [TenderPosted];
    }

    /** `logout`: the stored record is removed and the browser sent to "/". */
    method Logout() returns (nav: Route)
      modifies store
      ensures store.user == None && nav == Root
    {
      store.RemoveItem();
      nav := Root;
    }
  }
}
