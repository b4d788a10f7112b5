/** The top-level component (App.tsx): the session and privilege bootstrap,
    the five-list data refresh, sign-out, and the client form's save handler.
    Remote calls are not reimplemented: each handler takes what the hosted
    service answered as parameters, in the order the source awaits them. */
module App {
  import opened Types

  /** The notice shown when the privilege lookup fails. */
  const SyncError := "Sync problem detected. Please refresh."

  /** An awaited remote call: it threw, or it returned a value. */
  datatype Outcome<T> = Threw | Returned(value: T)

  /** One entry of `Promise.allSettled` over a table query: rejected, or
      fulfilled with the query's `data` field, which is null when the query
      reports an error. */
  datatype Settled<T> = Rejected | Fulfilled(data: Option<seq<T>>)

  /** What the five queries of one refresh answered. */
  datatype Refresh = Refresh(
    clients: Settled<Client>,
    bookings: Settled<Booking>,
    packages: Settled<Package>,
    tasks: Settled<Task>,
    employees: Settled<Employee>)

  /** The five in-memory lists. */
  datatype DataLists = DataLists(
    clients: seq<Client>,
    bookings: seq<Booking>,
    packages: seq<Package>,
    tasks: seq<Task>,
    employees: seq<Employee>)

  /** `getVal(res) || []`: the data of a fulfilled query, or the empty list
      when the query was rejected or its data is null. */
  function ListOf<T>(res: Settled<T>): (list: seq<T>)
    ensures res.Fulfilled? && res.data.Some? ==> list == res.data.value
    ensures list != [] ==> res == Fulfilled(Some(list))
  {
    if res.Fulfilled? && res.data.Some? then res.data.value else []
  }

  /** The lists one refresh publishes; each depends on its own query only. */
  function Refreshed(r: Refresh): DataLists
  {
    DataLists(ListOf(r.clients), ListOf(r.bookings), ListOf(r.packages), ListOf(r.tasks), ListOf(r.employees))
  }

  /** The privilege rule of `checkRoleAndInit`: with a role record, the user is
      Super Admin iff that is the recorded role; without one, iff the employee
      count is exactly zero (the first user of an empty studio). */
  function IsSuperAdminRule(role: Option<UserRole>, count: Option<int>): (admin: bool)
    ensures role.Some? ==> (admin <==> role.value == SuperAdmin)
    ensures role.None? ==> (admin <==> count == Some(0))
  {
    match role
    case Some(r) => r == SuperAdmin
    case None => count == Some(0)
  }

  /** `checkRoleAndInit` reaches its catch block: the role lookup threw, or no
      role was found and the count lookup threw. */
  predicate LookupThrew(role: Outcome<Option<UserRole>>, count: Outcome<Option<int>>)
  {
    role.Threw? || (role.value.None? && count.Threw?)
  }

  /** The privilege `checkRoleAndInit` sets when no lookup threw. The count
      is only asked for when no role record is found. */
  function LookedUpPrivilege(role: Outcome<Option<UserRole>>, count: Outcome<Option<int>>): bool
    requires !LookupThrew(role, count)
  {
    if role.value.Some? then IsSuperAdminRule(role.value, None) else IsSuperAdminRule(None, count.value)
  }

  /** The record the client form sends; `fd.get` of a field the form does not
      have is null, and null is sent as it is. */
  datatype ClientPayload = ClientPayload(
    name: Option<string>,
    email: Option<string>,
    phone: Option<string>,
    address: Option<string>,
    notes: Option<string>)

  /** The one write `handleSaveClient` issues against the `clients` table. */
  datatype ClientWrite = Insert(payload: ClientPayload) | Update(id: string, payload: ClientPayload)

  /** `fd.get(field)`. */
  function FormValue(form: map<string, string>, field: string): (v: Option<string>)
    ensures v.Some? <==> field in form
    ensures v.Some? ==> v.value == form[field]
  {
    if field in form then Some(form[field]) else None
  }

  /** `clientData`: each of the five fields is `fd.get` of its own name. */
  function PayloadOf(form: map<string, string>): (p: ClientPayload)
    ensures p.name == FormValue(form, "name") && p.email == FormValue(form, "email")
    ensures p.phone == FormValue(form, "phone") && p.address == FormValue(form, "address")
    ensures p.notes == FormValue(form, "notes")
  {
    ClientPayload(FormValue(form, "name"), FormValue(form, "email"), FormValue(form, "phone"),
                  FormValue(form, "address"), FormValue(form, "notes"))
  }

  /** An update scoped to the client being edited, otherwise an insert; the
      payload is the full five-field record in both cases. */
  function ClientWriteFor(editing: Option<Client>, form: map<string, string>): (w: ClientWrite)
    ensures w.Update? <==> editing.Some?
    ensures w.Update? ==> w.id == editing.value.id
    ensures w.payload == PayloadOf(form)
  {
    if editing.Some? then Update(editing.value.id, PayloadOf(form)) else Insert(PayloadOf(form))
  }

  /** The client dialog's form has only `name` and `email` inputs, so the
      write it produces sends `phone`, `address` and `notes` as null, when
      editing as well as when adding. */
  lemma DialogSendsNullExtras(editing: Option<Client>, form: map<string, string>)
    requires form.Keys <= {"name", "email"}
    ensures var p := ClientWriteFor(editing, form).payload;
      p.phone == None && p.address == None && p.notes == None
  {
    var p := ClientWriteFor(editing, form).payload;
    assert p == PayloadOf(form);
  }

  /** The state of the application component. */
  class AppState {
    var session: Option<Session>
    var isSuperAdmin: bool
    var activeTab: string
    var loading: bool
    var submitting: bool
    var error: Option<string>
    var clients: seq<Client>
    var bookings: seq<Booking>
    var packages: seq<Package>
    var tasks: seq<Task>
    var employees: seq<Employee>
    var isClientModalOpen: bool
    var isBookingModalOpen: bool
    var editingClient: Option<Client>
    var editingBooking: Option<Booking>

    /** `session?.user` is present. */
    predicate SignedIn()
      reads this
    {
      session.Some? && session.value.user.Some?
    }

    /** Between events: nobody is Super Admin without a signed-in user, and no
        submission is in flight. */
    ghost predicate Valid()
      reads this
    {
      (!SignedIn() ==> !isSuperAdmin) && !submitting
    }

    function Lists(): DataLists
      reads this
    {
      DataLists(clients, bookings, packages, tasks, employees)
    }

    /** What `checkRoleAndInit` leaves behind, given what its lookups and its
        refresh answered: loading is over either way; on a failed lookup the
        notice is shown and nothing else changes; otherwise the privilege is
        decided by the rule and the lists are refreshed. */
    twostate predicate InitializedFrom(role: Outcome<Option<UserRole>>, count: Outcome<Option<int>>, r: Refresh)
      reads this
    {
      && !loading
      && (LookupThrew(role, count) ==>
            error == Some(SyncError) && isSuperAdmin == old(isSuperAdmin) && Lists() == old(Lists()))
      && (!LookupThrew(role, count) ==>
            error == old(error) && isSuperAdmin == LookedUpPrivilege(role, count) && Lists() == Refreshed(r))
    }

    /** The initial state: signed out, loading, empty lists, no dialog open. */
    constructor ()
      ensures Valid()
      ensures session == None && !isSuperAdmin && activeTab == "dashboard"
      ensures loading && !submitting && error == None
      ensures Lists() == DataLists([], [], [], [], [])
      ensures !isClientModalOpen && !isBookingModalOpen && editingClient == None && editingBooking == None
    {
      session := None;
      isSuperAdmin := false;
      activeTab := "dashboard";
      loading := true;
      submitting := false;
      error := None;
      clients, bookings, packages, tasks, employees := [], [], [], [], [];
      isClientModalOpen, isBookingModalOpen := false, false;
      editingClient, editingBooking := None, None;
    }

    /** `fetchAllData`: each list becomes its own query's data, or empty. */
    method FetchAllData(r: Refresh)
      modifies this`clients, this`bookings, this`packages, this`tasks, this`employees
      ensures Lists() == Refreshed(r)
    {
      clients := ListOf(r.clients);
      bookings := ListOf(r.bookings);
      packages := ListOf(r.packages);
      tasks := ListOf(r.tasks);
      employees := ListOf(r.employees);
    }

    /** `checkRoleAndInit` for the signed-in user: look up the role record
        (`role`), and, without one, count the employees (`count`); then refresh. */
    method CheckRoleAndInit(role: Outcome<Option<UserRole>>, count: Outcome<Option<int>>, r: Refresh)
      requires Valid() && SignedIn()
      modifies this`isSuperAdmin, this`error, this`loading
      modifies this`clients, this`bookings, this`packages, this`tasks, this`employees
      ensures Valid()
      ensures InitializedFrom(role, count, r)
    {
      if role.Threw? {
        error := Some(SyncError);
      } else if role.value.Some? {
        isSuperAdmin := IsSuperAdminRule(role.value, None);
        FetchAllData(r);
      } else if count.Threw? {
        error := Some(SyncError);
      } else {
        isSuperAdmin := IsSuperAdminRule(None, count.value);
        FetchAllData(r);
      }
      loading := false;
    }

    /** The mount effect: adopt the stored session (`initial` is what
        `getSession` answered), then initialise for its user, or stop loading
        when there is none. The promise has no rejection handler, so a
        rejected `getSession` changes nothing and loading stays on. It runs
        once, while the privilege flag still has its initial value. */
    method Bootstrap(initial: Outcome<Option<Session>>, role: Outcome<Option<UserRole>>, count: Outcome<Option<int>>, r: Refresh)
      requires Valid() && !isSuperAdmin
      modifies this`session, this`isSuperAdmin, this`error, this`loading
      modifies this`clients, this`bookings, this`packages, this`tasks, this`employees
      ensures Valid()
      ensures initial.Threw? ==> unchanged(this)
      ensures initial.Returned? ==> session == initial.value
      ensures initial.Returned? && SignedIn() ==> InitializedFrom(role, count, r)
      ensures initial.Returned? && !SignedIn() ==>
                !loading && !isSuperAdmin && error == old(error) && Lists() == old(Lists())
    {
      if initial.Threw? {
        return;
      }
      session := initial.value;
      if SignedIn() {
        CheckRoleAndInit(role, count, r);
      } else {
        loading := false;
      }
    }

    /** The auth-change handler: adopt the new session, then initialise for
        its user, or drop the privilege when there is none. */
    method OnAuthStateChange(newSession: Option<Session>, role: Outcome<Option<UserRole>>, count: Outcome<Option<int>>, r: Refresh)
      requires Valid()
      modifies this`session, this`isSuperAdmin, this`error, this`loading
      modifies this`clients, this`bookings, this`packages, this`tasks, this`employees
      ensures Valid() && session == newSession
      ensures SignedIn() ==> InitializedFrom(role, count, r)
      ensures !SignedIn() ==> !loading && !isSuperAdmin && error == old(error) && Lists() == old(Lists())
    {
      session := newSession;
      if SignedIn() {
        loading := true;
        CheckRoleAndInit(role, count, r);
      } else {
        isSuperAdmin := false;
        loading := false;
      }
    }

    /** `handleLogout`: sign out, forget the session and the privilege. */
    method HandleLogout()
      requires Valid()
      modifies this`session, this`isSuperAdmin, this`loading
      ensures Valid()
      ensures session == None && !isSuperAdmin && !loading
    {
      loading := true;
      session := None;
      isSuperAdmin := false;
      loading := false;
    }

    /** `handleSaveClient`: without a signed-in user nothing happens;
        otherwise exactly one write is issued (returned in `call`) and
        `writeError` is the message it failed with, if it did. On success the
        dialog closes and the lists are refreshed; on failure the message is
        shown and the dialog is left as it was. */
    method HandleSaveClient(form: map<string, string>, writeError: Option<string>, r: Refresh)
      returns (call: Option<ClientWrite>)
      requires Valid()
      modifies this`submitting, this`isClientModalOpen, this`editingClient, this`error
      modifies this`clients, this`bookings, this`packages, this`tasks, this`employees
      ensures Valid()
      ensures !SignedIn() ==> call == None && unchanged(this)
      ensures SignedIn() ==> call == Some(ClientWriteFor(old(editingClient), form))
      ensures SignedIn() && writeError.None? ==>
                !isClientModalOpen && editingClient == None && error == old(error) && Lists() == Refreshed(r)
      ensures SignedIn() && writeError.Some? ==>
                error == writeError && isClientModalOpen == old(isClientModalOpen)
                && editingClient == old(editingClient) && Lists() == old(Lists())
    {
      if !SignedIn() {
        return None;
      }
      submitting := true;
      call := Some(ClientWriteFor(editingClient, form));
      if writeError.None? {
        isClientModalOpen := false;
        editingClient := None;
        FetchAllData(r);
      } else {
        error := writeError;
      }
      submitting := false;
    }

    /** `onTabChange`: select a tab. */
    method ChangeTab(tab: string)
      requires Valid()
      modifies this`activeTab
      ensures Valid()
      ensures activeTab == tab
    {
      activeTab := tab;
    }

    /** "Add Client" (no client) or a client's edit button: open the client dialog. */
    method OpenClientModal(client: Option<Client>)
      requires Valid()
      modifies this`editingClient, this`isClientModalOpen
      ensures Valid()
      ensures editingClient == client && isClientModalOpen
    {
      editingClient := client;
      isClientModalOpen := true;
    }

    /** Closing the client dialog also forgets the client being edited. */
    method CloseClientModal()
      requires Valid()
      modifies this`editingClient, this`isClientModalOpen
      ensures Valid()
      ensures editingClient == None && !isClientModalOpen
    {
      isClientModalOpen := false;
      editingClient := None;
    }

    /** "New Shoot" (no booking) or a shoot in the list: open the booking dialog. */
    method OpenBookingModal(booking: Option<Booking>)
      requires Valid()
      modifies this`editingBooking, this`isBookingModalOpen
      ensures Valid()
      ensures editingBooking == booking && isBookingModalOpen
    {
      editingBooking := booking;
      isBookingModalOpen := true;
    }

    /** Closing the booking dialog keeps the booking being edited. */
    method CloseBookingModal()
      requires Valid()
      modifies this`isBookingModalOpen
      ensures Valid()
      ensures !isBookingModalOpen
    {
      isBookingModalOpen := false;
    }

    /** The dismiss button of the notice. */
    method DismissError()
      requires Valid()
      modifies this`error
      ensures Valid()
      ensures error == None
    {
      error := None;
    }
  }

  /** The first user of a studio without employees becomes Super Admin. */
  method FirstUserBecomesSuperAdmin(user: AuthUser, r: Refresh) returns (app: AppState)
    ensures app.isSuperAdmin && !app.loading && app.error == None && app.Lists() == Refreshed(r)
  {
    app := new AppState();
    app.Bootstrap(Returned(Some(Session(Some(user)))), Returned(None), Returned(Some(0)), r);
  }

  /** A user without a role record in a studio that has employees is not. */
  method UnlistedUserIsNotSuperAdmin(user: AuthUser, employees: int, r: Refresh) returns (app: AppState)
    requires employees != 0
    ensures !app.isSuperAdmin && !app.loading && app.error == None
  {
    app := new AppState();
    app.Bootstrap(Returned(Some(Session(Some(user)))), Returned(None), Returned(Some(employees)), r);
  }

  /** When every query of the refresh fails, every list is empty and no notice is shown. */
  method FailedRefreshEmptiesLists(user: AuthUser, role: UserRole) returns (app: AppState)
    ensures app.Lists() == DataLists([], [], [], [], []) && app.error == None && !app.loading
  {
    app := new AppState();
    var failed := Refresh(Rejected, Rejected, Rejected, Rejected, Rejected);
    app.Bootstrap(Returned(Some(Session(Some(user)))), Returned(Some(role)), Threw, failed);
  }

  /** A failed lookup keeps the previous privilege: when an auth event
      delivers a new session without a sign-out in between (a token refresh,
      or a direct switch of session) and the role lookup throws, the flag
      still says Super Admin. */
  method FailedLookupKeepsPrivilege(admin: AuthUser, next: AuthUser, r: Refresh) returns (app: AppState)
    ensures app.isSuperAdmin && app.error == Some(SyncError) && !app.loading
  {
    app := new AppState();
    app.Bootstrap(Returned(Some(Session(Some(admin)))), Returned(Some(SuperAdmin)), Threw, r);
    app.OnAuthStateChange(Some(Session(Some(next))), Threw, Threw, r);
  }

  /** A rejected `getSession` at start-up leaves the loading screen up: no
      lookup, no refresh, still signed out. */
  method RejectedSessionKeepsLoading(r: Refresh) returns (app: AppState)
    ensures app.loading && !app.SignedIn() && !app.isSuperAdmin && app.Lists() == DataLists([], [], [], [], [])
  {
    app := new AppState();
    app.Bootstrap(Threw, Threw, Threw, r);
  }
}
