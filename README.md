# Aspire studio dashboard — a Dafny model of its logic

Aspire is a dashboard for a photography studio. It keeps clients, bookings, packages, tasks and employees in a hosted database, and it adds an AI writing panel. Almost all of it is user interface. This project models the three places where it computes something:

- **The application shell** (`layout.dfy`, module `Layout`). This covers the initials shown in the account badge, and the sidebar and bottom-bar navigation entries.
  - `getInitials` splits the display name on `[\s._-]+` with ECMAScript's `split` semantics. `\s` is the full ECMAScript WhiteSpace/LineTerminator set.
  - The pieces are checked against a separate reference definition of initials: the characters that begin a word.
  - The navigation lists are pure functions of the privilege flag and the active tab.
- **The dashboard figures** (`dashboard.dfy`, module `Dashboard`).
  - The project count is the length of the booking list.
  - Gross revenue and outstanding payments are `reduce` folds. Each is proved equal to a plain sum.
  - The "next four shoots" panel takes the upcoming bookings, sorts them by date and keeps the first four.
  - The greeting depends on the hour.
  - Every function here works on values. The input booking list therefore cannot be reordered: the source gets the same guarantee by sorting a spread copy.
- **The application state machine** (`app.dfy`, module `App`). Class `AppState` holds the component's state variables as fields. Its methods are the event handlers:
  - the mount effect and the auth-change handler, with `checkRoleAndInit` and `fetchAllData`;
  - sign-out;
  - the client form's save handler;
  - the dialog and tab handlers.

  Remote calls are not reimplemented. A handler instead takes what each call answered as a parameter:
  - `Outcome<T>`: the call threw, or it returned a value;
  - `Settled<T>`: one entry of `Promise.allSettled`;
  - a write's error message, if there was one.

  The class invariant `Valid()` says two things hold between events: nobody is Super Admin without a signed-in user, and no submission is in flight.

`types.dfy` (module `Types`) mirrors the records of `types.ts`. JavaScript's `null`/`undefined` become `Option`.

Some behaviour of the code is worth knowing, and the model keeps it as written:

- A failed role lookup leaves `isSuperAdmin` as it was. A normal sign-in after a sign-out starts with the flag cleared, because `handleLogout` (App.tsx:145) and the signed-out branch of the auth handler (App.tsx:133) both clear it. The flag carries over only when an auth event delivers a session with no sign-out in between, such as a token refresh or a direct switch of session. If the lookup throws then, a previous Super Admin flag survives (`FailedLookupKeepsPrivilege`).
- The mount effect's `getSession().then(...)` has no rejection handler. A rejected `getSession` therefore leaves the loading screen up, with no lookup and no refresh (`RejectedSessionKeepsLoading`).
- The client dialog's form has only `name` and `email` inputs, but the save handler reads five fields. `phone`, `address` and `notes` are therefore sent as null, on an update as well as on an insert (`DialogSendsNullExtras`).
- App.tsx:117-139 has no loading timeout, so none is modelled.

## Model

| member | source | states |
|---|---|---|
| `Layout.Split` | components/Layout.tsx:69 | `split(/[\s._-]+/)` yields at least one piece, and no piece contains a separator |
| `Layout.SplitKeepsWordCharacters` | components/Layout.tsx:69 | joined back together, the pieces are exactly the name's non-separator characters, in order |
| `Layout.InitialsAreWordStarts` | components/Layout.tsx:69-71 | the first characters of the non-empty pieces are exactly the characters that begin a word; empty pieces from leading, trailing or repeated separators contribute nothing |
| `Layout.LocalPart` | components/Layout.tsx:66 | `email.split('@')[0]` is a prefix of the email without '@', followed by '@' whenever it is shorter than the email |
| `Layout.DisplayName` | components/Layout.tsx:64-66 | fallback order: the metadata's full name if non-empty, else the email's text before '@' if non-empty, else "User"; never empty |
| `Layout.GetInitials` | components/Layout.tsx:62-74 | "??" without a user; otherwise the upper-cased word-initial characters of the display name cut to 2; never longer than 2, never containing a separator |
| `Layout.SidebarItems` | components/Layout.tsx:87-99 | Dashboard, Clients, Bookings, Packages first and AI Studio last; Tasks and Employees present iff Super Admin, in that order right after Packages; keys distinct; an item is active iff its key is the active tab |
| `Layout.BottomNavItems` | components/Layout.tsx:148-156 | always Home (`dashboard`), Clients, Bookings first; Tasks and Staff (key `employees`) present iff Super Admin, in that order after them; 3 or 5 items; keys distinct; an item is active iff its key is the active tab |
| `Layout.BottomNavWithinSidebar` | components/Layout.tsx:148-156 | every bottom-bar tab is also a sidebar tab, highlighted the same way |
| `Layout.NavigationHighlightsActiveTab` | components/Layout.tsx:87-99 | in both lists at most one item is active, and one is iff the active tab is shown (none for a non-admin on `tasks`) |
| `Dashboard.TotalProjects` | components/Dashboard.tsx:120 | the count of bookings, each counted once whatever its status and duplicates separately; 0 iff there are none |
| `Dashboard.TotalRevenue` | components/Dashboard.tsx:71 | the `reduce` equals the sum of `total_amount` over all bookings |
| `Dashboard.PendingPayments` | components/Dashboard.tsx:72 | the `reduce` equals total amounts minus total advances paid, unclamped |
| `Dashboard.OverpaymentMakesOutstandingNegative` | components/Dashboard.tsx:72 | an overpaid booking makes the outstanding figure negative, so it is not clamped at 0 |
| `Dashboard.FiguresAreAdditive` | components/Dashboard.tsx:71-72 | project count, revenue and outstanding of a concatenation are the sums of the parts' figures |
| `Dashboard.EmptyFigures` | components/Dashboard.tsx:71-72 | with no bookings, project count, revenue and outstanding are all 0 |
| `Dashboard.Upcoming` | components/Dashboard.tsx:69 | the filter returns only input bookings dated not before `now` |
| `Dashboard.UpcomingIsFilter` | components/Dashboard.tsx:69 | the filter keeps every booking dated not before `now` as often as the input has it, and no other |
| `Dashboard.SortByDate` | components/Dashboard.tsx:69 | the sort returns a permutation of its input in ascending `event_date` order |
| `Dashboard.UpcomingBookings` | components/Dashboard.tsx:69 | at most 4 bookings; all from the input and dated not before `now`; sorted by date; all upcoming ones when at most 4 qualify; no left-out upcoming booking precedes an included one |
| `Dashboard.Greeting` | components/Dashboard.tsx:74-79 | "Good Morning" iff hour < 12, "Good Afternoon" iff 12 <= hour < 18, "Good Evening" iff hour >= 18 |
| `App.ListOf` | App.tsx:81-87 | a fulfilled non-null result gives its data; a non-empty list can only come from a fulfilled result with that data; a rejected or null one gives [] |
| `App.IsSuperAdminRule` | App.tsx:101-107 | with a role record: Super Admin iff the role is Super Admin; without one: iff the count is exactly 0 (an absent count gives false) |
| `App.FormValue` | App.tsx:153-160 | `fd.get` gives the form's value for a field it has, and null for one it lacks |
| `App.PayloadOf` | App.tsx:154-160 | each of the five fields is `fd.get` of its own name, so a field the form lacks is null |
| `App.ClientWriteFor` | App.tsx:162-169 | exactly one write: an update scoped to the edited client's id when editing, otherwise an insert; the full five-field payload in both cases |
| `App.DialogSendsNullExtras` | App.tsx:154-160 | a form with only `name` and `email` inputs, like the client dialog's, makes the write send `phone`, `address` and `notes` as null, when editing and when adding |
| `App.AppState.constructor` | App.tsx:49-69 | initial state: no session, not Super Admin, tab `dashboard`, loading, no error, empty lists, no dialog |
| `App.AppState.FetchAllData` | App.tsx:71-91 | each of the five lists becomes its own query's data or [], whatever the other queries answered |
| `App.AppState.CheckRoleAndInit` | App.tsx:93-115 | loading ends in every case; a throwing lookup sets the sync notice and changes nothing else; otherwise the error is unchanged, the privilege follows the rule, and the lists are refreshed |
| `App.AppState.Bootstrap` | App.tsx:117-125 | a rejected `getSession` changes nothing, so loading stays on; otherwise adopts the stored session, then initialises for its user or just stops loading |
| `App.AppState.OnAuthStateChange` | App.tsx:127-136 | adopts the new session; initialises for its user, or ends with not Super Admin and not loading |
| `App.AppState.HandleLogout` | App.tsx:141-147 | ends with no session, not Super Admin, not loading |
| `App.AppState.HandleSaveClient` | App.tsx:149-178 | no user: no call, no change. Otherwise exactly one write. On success the dialog is closed, no client is being edited and the lists are refreshed. On failure the error is the message and the dialog is untouched. Not submitting afterwards |
| `App.AppState.ChangeTab` | App.tsx:204 | the selected tab becomes the active tab; the class invariant is kept |
| `App.AppState.OpenClientModal` | App.tsx:213 | opens the client dialog, editing the given client or none; the class invariant is kept |
| `App.AppState.CloseClientModal` | App.tsx:235 | closes the client dialog and forgets the edited client; the class invariant is kept |
| `App.AppState.OpenBookingModal` | App.tsx:214 | opens the booking dialog, editing the given booking or none; the class invariant is kept |
| `App.AppState.CloseBookingModal` | App.tsx:256 | closes the booking dialog; the class invariant is kept |
| `App.AppState.DismissError` | App.tsx:268 | clears the notice; the class invariant is kept |
| `App.FirstUserBecomesSuperAdmin` | App.tsx:103-105 | the first user of a studio without employee records becomes Super Admin |
| `App.UnlistedUserIsNotSuperAdmin` | App.tsx:103-106 | a user without a role record, in a studio that has employees, is not Super Admin |
| `App.FailedRefreshEmptiesLists` | App.tsx:81-87 | when all five queries fail, all five lists are empty and no notice is shown |
| `App.FailedLookupKeepsPrivilege` | App.tsx:109-111 | a throwing lookup in an auth event that follows a Super Admin's session without a sign-out leaves the flag true and shows the sync notice |
| `App.RejectedSessionKeepsLoading` | App.tsx:118-125 | a rejected `getSession` at start-up leaves loading on, nobody signed in, no privilege and empty lists |

## Left out

- Remote services are inputs, not code: the database client, the authentication service and the text-generation service. `services/geminiService.ts` and `services/supabaseClient.ts` are not part of this model.
- Concurrency is left out:
  - the order in which `Promise.allSettled` settles;
  - races between overlapping refreshes;
  - a race between the mount effect and the first auth event;
  - the subscription's lifetime.
  
  Each handler runs to completion, and its remote answers arrive in the order the source awaits them.
- The `catch` of `fetchAllData` (App.tsx:88-90) only logs. Given settled results, nothing in its `try` throws. The refresh therefore never fails the caller, which is what the model says.
- `signOut` (App.tsx:143) is taken not to throw, because the authentication client reports errors in its result. A throwing sign-out would leave `loading` true.
- `console.error` logging and `e.preventDefault()` are left out.
- The privilege lookup's user id only selects the remote record. The record is an input, so the id is not a parameter.
- The role column is modelled as the `UserRole` enumeration. A stored value outside it behaves like any role other than Super Admin.
- `handleSaveBooking` (App.tsx:180-187) is a stub with no saving logic. Its booking dialog has no form.
- Upper-casing covers ASCII only; other characters are kept as they are.
  - JavaScript strings are UTF-16. `n[0]` of a piece that starts with an astral character is a lone surrogate, whereas Dafny's `char` is a whole code point.
  - Non-string `full_name` metadata is not modelled.
- Dates are ISO-8601 strings compared in code-point order, with the current time passed in as `now` and the hour as `hour`.
  - `new Date(...)` parsing is not modelled, and neither is an unparseable date, which never counts as upcoming in the source.
  - `localeCompare` is taken as code-point order, which agrees with it on ISO dates of one format.
- Amounts are unbounded integers rather than JavaScript numbers.
- The following are left out:
  - rendering;
  - CSS classes;
  - the revenue chart and its static data;
  - the "Success Rate" card;
  - `toLocaleString` formatting;
  - the sidebar's `collapsed` toggle.
- `components/Auth.tsx`, `components/AIStudio.tsx` and `utils/exportUtils.ts` are forms and wrappers around foreign calls. They are not part of this model.
- Dashboard.SortByDate: the sort keeps bookings that share a date in input order, like JavaScript's stable `sort`. Its contract states sortedness and permutation but not this stability.
