# TruckMatch client session and collection logic, modelled in Dafny

TruckMatch is a two-sided logistics marketplace front-end: suppliers post
tenders, truck owners list trucks. Under its React markup sits a small layer
of client-side logic, and this project models that layer:

- the session record kept in local storage under the key `user`
  (`Session.SessionStore`, an `Option<User>` field);
- the mount guard each dashboard runs against it (`Session.Admit`): no record
  goes to `/login`, a record of the other role goes to the counterpart
  dashboard, and only the dashboard's own role is accepted and triggers its fetch;
- the supplier dashboard (`SupplierDashboard.Page`): tender fetch, the
  optimistic tender post that is never rolled back, logout;
- the truck-owner dashboard (`TruckOwnerDashboard.Page`): truck fetch plus
  mock data, the optimistic truck add, the availability toggle (a pure
  `map`, `TruckOwnerDashboard.ToggleAvailability`), logout;
- the login/signup page (`Auth.Page`): the initial tab and default role from
  the `role` query parameter, the mock login's role derivation (a substring
  test on the email), the records signup and login store, and the dashboard
  each navigates to;
- the routing the pages produce together (`Navigation`): a login always
  lands on a dashboard that accepts it, and an unknown role bounces between
  the two dashboards for ever.

Navigation is a datatype of routes (`Ui.Route`; `Ui.Path` gives the path
strings). Calls to the REST client are recorded in a `requests` list on each
page and their outcomes are method parameters: `Option<seq<…>>` for a fetch
(`None` is a rejected promise), a `bool` for a create. Generated ids, the ISO
timestamp behind `createdAt`, and form values are parameters too. The settling
of a mount fetch is its own method (`TendersSettled`, `TrucksSettled`),
because the promise callback runs after the mount effect has returned.

Where the code and its description differ, the model follows the code:
the initial tab is "signup" only when the `role` query value is present AND
non-empty, because the code tests JavaScript truthiness; an empty `?role=`
opens the login tab with default role "supplier". On the truck-owner
dashboard a successful truck fetch replaces the mock list (and any truck
added meanwhile), since `loadMockData` runs inside the effect and the fetch
callback later.

## Model

| member | source | states |
|---|---|---|
| `Session.SessionStore.GetItem` | src/pages/SupplierDashboard.tsx:60 | reading the store returns exactly the stored record, or nothing |
| `Session.SessionStore.SetItem` | src/pages/Auth.tsx:68 | after writing, the store holds exactly the written record |
| `Session.SessionStore.RemoveItem` | src/pages/SupplierDashboard.tsx:173 | after removal the store holds no record |
| `Session.Admit` | src/pages/SupplierDashboard.tsx:60-69 | accepts iff a record is stored and its role equals the dashboard's; accepts that record; no record redirects to login, a wrong role to the counterpart |
| `SupplierDashboard.DatePart` | src/pages/SupplierDashboard.tsx:155 | `split('T')[0]`: the result is a prefix of the input, contains no 'T', and is followed by a 'T' when shorter than the input |
| `SupplierDashboard.NewTender` | src/pages/SupplierDashboard.tsx:152-157 | the new tender's form fields are exactly the submitted form; id is the generated id, createdAt the date part of now, status active |
| `SupplierDashboard.Page.constructor` | src/pages/SupplierDashboard.tsx:51-53 | tenders, truck owners empty, no user, nothing requested |
| `SupplierDashboard.Page.Mount` | src/pages/SupplierDashboard.tsx:59-80 | no record: go to login, user unset, no fetch; other role: go to the truck-owner dashboard, no fetch; supplier: user set, exactly one getTenders issued; lists untouched, truck owners never loaded |
| `SupplierDashboard.Page.TendersSettled` | src/pages/SupplierDashboard.tsx:71-75 | success replaces the tenders with the fetched list; failure keeps them and logs one error |
| `SupplierDashboard.Page.OnSubmitTender` | src/pages/SupplierDashboard.tsx:151-170 | tenders become the new tender followed by the old list, whatever the create outcome; one createTender of that tender; success toast either way; only the log line depends on the outcome |
| `SupplierDashboard.Page.Logout` | src/pages/SupplierDashboard.tsx:172-175 | the stored record is removed and the route is "/" |
| `TruckOwnerDashboard.NewTruck` | src/pages/TruckOwnerDashboard.tsx:135-139 | the new truck has the generated id, the form's fields, and specializations defaulting to the empty list when the form has none |
| `TruckOwnerDashboard.NewTruckOfFormOf` | src/pages/TruckOwnerDashboard.tsx:135-139 | re-entering any truck's fields under its id rebuilds that truck |
| `TruckOwnerDashboard.Toggled` | src/pages/TruckOwnerDashboard.tsx:156-158 | one truck: id kept, availability flipped iff the id matches, every other field kept |
| `TruckOwnerDashboard.ToggleAvailability` | src/pages/TruckOwnerDashboard.tsx:155-159 | the toggled list has the length of the original |
| `TruckOwnerDashboard.ToggleAt` | src/pages/TruckOwnerDashboard.tsx:155-159 | position k of the toggled list is the toggled truck at position k (order kept) |
| `TruckOwnerDashboard.ToggleFrame` | src/pages/TruckOwnerDashboard.tsx:154-160 | length and order kept; availability flips exactly for trucks with the given id; no other field of any truck changes |
| `TruckOwnerDashboard.ToggleTwice` | src/pages/TruckOwnerDashboard.tsx:155-159 | toggling the same id twice restores the list |
| `TruckOwnerDashboard.ToggleAbsent` | src/pages/TruckOwnerDashboard.tsx:155-159 | toggling an id no truck has leaves the list unchanged |
| `TruckOwnerDashboard.Page.constructor` | src/pages/TruckOwnerDashboard.tsx:47-49 | trucks, tenders empty, no user, nothing requested |
| `TruckOwnerDashboard.Page.Mount` | src/pages/TruckOwnerDashboard.tsx:55-76 | no record: go to login, nothing fetched or loaded; other role: go to the supplier dashboard, nothing fetched or loaded; truck owner: user set, exactly one getTrucks, the mock trucks and tenders loaded |
| `TruckOwnerDashboard.Page.LoadMockData` | src/pages/TruckOwnerDashboard.tsx:78-132 | trucks become the one mock truck and tenders the two mock tenders |
| `TruckOwnerDashboard.Page.TrucksSettled` | src/pages/TruckOwnerDashboard.tsx:67-71 | success replaces the trucks with the fetched list; failure keeps them and logs one error |
| `TruckOwnerDashboard.Page.OnSubmitTruck` | src/pages/TruckOwnerDashboard.tsx:134-152 | trucks become the new truck followed by the old list, whatever the add outcome; one addTruck of that truck; success toast either way |
| `TruckOwnerDashboard.Page.ToggleTruckAvailability` | src/pages/TruckOwnerDashboard.tsx:154-160 | trucks become the toggled list of the old trucks; nothing else changes |
| `TruckOwnerDashboard.Page.Logout` | src/pages/TruckOwnerDashboard.tsx:162-165 | the stored record is removed and the route is "/" |
| `Auth.InitialTab` | src/pages/Auth.tsx:32-33 | the signup tab opens iff the role query value is present and non-empty |
| `Auth.DefaultRole` | src/pages/Auth.tsx:32-39 | the initial role is the unchecked query value exactly when the signup tab opens, "supplier" otherwise |
| `Auth.CheckedDefaultRole` | src/pages/Auth.tsx:32-39 | corrected default: always a known role, and the query value whenever that is a known role |
| `Auth.PickedRole` | src/pages/Auth.tsx:162-173 | each select item gives a known role; the supplier item exactly gives "supplier" |
| `Auth.IncludesIff` | src/pages/Auth.tsx:64 | the substring test holds iff the text occurs at some position of the email |
| `Auth.LoginRole` | src/pages/Auth.tsx:64 | the role is "supplier" iff the email contains "supplier" somewhere, otherwise "truck-owner"; always a known role |
| `Auth.MockUser` | src/pages/Auth.tsx:61-66 | the login record is id "1", the email, the derived role, name "Demo User", and no password, phone or company |
| `Auth.SignupRecord` | src/pages/Auth.tsx:45-48 | the stored signup record is the submitted form plus the generated id, nothing else |
| `Auth.MockUserIsNoSignup` | src/pages/Auth.tsx:61-66 | a login record is never read back as a signup form (the password is not kept) |
| `Auth.DashboardFor` | src/pages/Auth.tsx:56 | the supplier dashboard iff the role is "supplier", the truck-owner dashboard for any other role |
| `Auth.Page.constructor` | src/pages/Auth.tsx:32-39 | the page opens on the initial tab with the default role in the signup form |
| `Auth.Page.SelectTab` | src/pages/Auth.tsx:100 | a clicked tab becomes the active one |
| `Auth.Page.SelectRole` | src/pages/Auth.tsx:155 | a select pick replaces the form's role with a known role |
| `Auth.Page.OnSignup` | src/pages/Auth.tsx:43-57 | stores the form plus id, raises one toast, navigates to the supplier dashboard iff the role is "supplier" |
| `Auth.Page.OnLogin` | src/pages/Auth.tsx:59-76 | stores the mock user for the email, raises one toast, navigates to the dashboard of the derived role |
| `Navigation.Next` | src/pages/SupplierDashboard.tsx:59-69 | only the two dashboards redirect on mount |
| `Navigation.NoSessionGoesToLogin` | src/pages/TruckOwnerDashboard.tsx:56-60 | without a record either dashboard goes to the login page, which stays |
| `Navigation.KnownRoleSettles` | src/pages/Auth.tsx:56 | a record with a known role is accepted by the dashboard chosen for its role |
| `Navigation.KnownRoleReachesDashboard` | src/pages/SupplierDashboard.tsx:65-69 | from either dashboard, a known role reaches its own dashboard within one redirect and stays |
| `Navigation.LoginLandsOnAcceptingDashboard` | src/pages/Auth.tsx:59-75 | the user a mock login writes is accepted by the dashboard the login navigates to, for every email |
| `Navigation.UnknownRoleBounces` | src/pages/TruckOwnerDashboard.tsx:61-65 | a role other than the two known ones is accepted by neither dashboard: the route alternates between them for ever |
| `Navigation.UncheckedQueryRoleBounces` | src/pages/Auth.tsx:32 | as written, a signup from `?role=admin` with no pick stores role "admin" and never settles on any dashboard |
| `Navigation.SubmittedRole` | src/pages/Auth.tsx:155 | the submitted role is the last pick if any, else the form's default |
| `Navigation.CheckedSignupSettles` | src/pages/Auth.tsx:56 | with the checked default role, every signup stores a known role and lands on a dashboard that accepts it |
| `Navigation.LoginThenMount` | src/pages/Auth.tsx:75 | a login followed by mounting the dashboard it chose: the dashboard stays (no redirect) |
| `Navigation.PostTenderScenario` | src/pages/SupplierDashboard.tsx:151-159 | a posted tender heads the list, active, under the generated id, the list grown by one whatever the create outcome |

## Left out

- The REST client (`src/api/api.js`): modelled only as the list of calls a page issues and an outcome parameter per call; URLs, JSON bodies, `loginUser` and `signupUser` (which no page calls) are not part of this model.
- `Math.random().toString(36).substr(2, 9)` ids and the current time: taken as parameters; ids are not unique by construction.
- JSON serialisation of the stored record: writing and reading back are taken to be identity; `JSON.parse` of a malformed record (which throws) is not modelled.
- Interleavings inside the async handlers: each of mount, fetch settling and submit runs as one step; the await between the optimistic insert and the toast is not split.
- React re-renders, the effect's dependency list, and a second mount in development mode.
- `form.reset()`, the react-hook-form `required` rules and every part of the rendering (cards, dialogs, badges, and the `if (!user) return null` render).
- Toast and console text: only which toast or log entry occurs is modelled.
- The add-truck switch left untouched yields `undefined` in the source; the model takes it as `false`.
- The supplier dashboard's `loadMockData` (src/pages/SupplierDashboard.tsx:82-149) is never called, so it is not modelled; `truckOwners` stays empty.
- `src/pages/Landing.tsx`: static links only.

## Findings

| source | as written | input that shows it | evidently intended | confidence | as-written member | corrected member |
|---|---|---|---|---|---|---|
| src/pages/Auth.tsx:32 | the `role` query value is cast to the two-role type without a check and becomes the signup form's default role | open `/signup?role=admin`, submit without touching the role select: role "admin" is stored, the truck-owner dashboard sends it to the supplier dashboard and back, for ever | the default role is always "supplier" or "truck-owner" | not executed | `Navigation.UncheckedQueryRoleBounces` | `Navigation.CheckedSignupSettles` |

The page model `Auth.Page` keeps the as-written `Auth.DefaultRole`, so that
it follows the source; `Auth.CheckedDefaultRole` is the corrected default,
for which `Navigation.CheckedSignupSettles` proves every signup settles.
