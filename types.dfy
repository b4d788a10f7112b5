/** Records mirrored from the hosted data service (types.ts), and the
    Option datatype used for JavaScript's null / undefined. */
module Types {

  /** A value that may be absent (null or undefined in the source). */
  datatype Option<+T> = None | Some(value: T)

  /** `true` when a possibly absent string is JavaScript-truthy, i.e. present and non-empty. */
  predicate Truthy(s: Option<string>)
  {
    s.Some? && s.value != ""
  }

  datatype BookingStatus = Inquiry | Confirmed | Completed | Delivered | Cancelled

  datatype TaskType = Shoot | Editing | Album | Delivery

  datatype TaskStatus = Pending | InProgress | Done

  datatype UserRole = SuperAdmin | Manager | Photographer | Editor | Employee

  datatype Employee = Employee(
    id: string,
    userId: Option<string>,
    fullName: string,
    email: string,
    role: UserRole,
    phone: Option<string>,
    createdAt: string)

  datatype Client = Client(
    id: string,
    name: string,
    email: string,
    phone: string,
    address: string,
    notes: string,
    tags: seq<string>,
    createdAt: string)

  /** `price` is an integer amount; the source's JavaScript number is not modelled. */
  datatype Package = Package(
    id: string,
    name: string,
    price: int,
    duration: string,
    deliverables: seq<string>)

  /** Amounts are integers; `eventDate` is an ISO-8601 date string. */
  datatype Booking = Booking(
    id: string,
    clientId: string,
    packageId: string,
    eventType: string,
    eventDate: string,
    location: string,
    totalAmount: int,
    advancePaid: int,
    status: BookingStatus,
    createdAt: string)

  datatype Task = Task(
    id: string,
    bookingId: string,
    assignedTo: Option<string>,
    kind: TaskType,
    status: TaskStatus,
    dueDate: string,
    title: string)

  /** The metadata object the authentication service attaches to a user. */
  datatype UserMetadata = UserMetadata(fullName: Option<string>)

  /** The signed-in user as the authentication service reports it. */
  datatype AuthUser = AuthUser(id: string, email: Option<string>, metadata: Option<UserMetadata>)

  /** An authentication session; the source tests `session?.user` before using it. */
  datatype Session = Session(user: Option<AuthUser>)
}
