/** What the pages hand to the router and to the toast hook. */
module Ui {
  /** The client-side routes the pages navigate to. */
  datatype Route = Root | Login | SupplierDash | TruckOwnerDash

  /** The path string passed to `navigate`. */
  function Path(r: Route): string
  {
    match r
    case Root => "/"
    case Login => "/login"
    case SupplierDash => "/supplier-dashboard"
    case TruckOwnerDash => "/truck-owner-dashboard"
  }

  /** The toasts the pages raise; only their presence is modelled, not their text. */
  datatype Toast = AccountCreated | WelcomeBack | TenderPosted | TruckAdded
}
