/** The three records the booking core persists, with their ENUM columns and the
    defaults the schema definitions give them.  Money is held in integer cents
    (a DECIMAL(10, 2) column has exactly two decimals) and instants in integer
    milliseconds. */
module Models {
  import opened Common

  datatype PropertyStatus = Available | Sold | Rented
  datatype ReservationStatus = Pending | Confirmed | Cancelled
  datatype InvoiceStatus = Paid | Unpaid | AwaitingPayment

  /** A caller as the authentication layer hands it to a handler. */
  datatype Principal = Principal(userId: int, role: string)

  /** A listing.  `propertyType` is free text at this level; only request
      validation restricts it. */
  datatype Property = Property(
    id: int,
    title: string,
    description: Option<string>,
    address: string,
    price: int,
    propertyType: string,
    status: PropertyStatus,
    images: seq<string>)

  /** A booking: only its dates, its status and the two references exist. */
  datatype Reservation = Reservation(
    id: int,
    userId: int,
    propertyId: int,
    startDate: int,
    endDate: int,
    status: ReservationStatus,
    createdAt: int)

  datatype Invoice = Invoice(
    id: int,
    reservationId: int,
    amount: int,
    issuedDate: int,
    dueDate: Option<int>,
    status: InvoiceStatus)

  /** An account; `password` is what the store holds (the hash of the plain text). */
  datatype User = User(
    id: int,
    name: Option<string>,
    firstName: Option<string>,
    lastName: Option<string>,
    email: string,
    password: string,
    role: string,
    phoneNumber: Option<string>,
    birthDate: Option<int>)

  // ---- ENUM columns: stored names and parsing --------------------------------

  function PropertyStatusName(s: PropertyStatus): string
  {
    match s
    case Available => "available"
    case Sold => "sold"
    case Rented => "rented"
  }

  function ReservationStatusName(s: ReservationStatus): string
  {
    match s
    case Pending => "pending"
    case Confirmed => "confirmed"
    case Cancelled => "cancelled"
  }

  function InvoiceStatusName(s: InvoiceStatus): string
  {
    match s
    case Paid => "paid"
    case Unpaid => "unpaid"
    case AwaitingPayment => "pending"
  }

  /** The value a string denotes in the ENUM('available', 'sold', 'rented') column,
      or None when the column would refuse it. */
  function ParsePropertyStatus(t: string): (r: Option<PropertyStatus>)
    ensures r.Some? ==> PropertyStatusName(r.value) == t
    ensures forall s :: PropertyStatusName(s) == t ==> r == Some(s)
  {
    if t == "available" then Some(Available)
    else if t == "sold" then Some(Sold)
    else if t == "rented" then Some(Rented)
    else None
  }

  function ParseReservationStatus(t: string): (r: Option<ReservationStatus>)
    ensures r.Some? ==> ReservationStatusName(r.value) == t
    ensures forall s :: ReservationStatusName(s) == t ==> r == Some(s)
  {
    if t == "pending" then Some(Pending)
    else if t == "confirmed" then Some(Confirmed)
    else if t == "cancelled" then Some(Cancelled)
    else None
  }

  function ParseInvoiceStatus(t: string): (r: Option<InvoiceStatus>)
    ensures r.Some? ==> InvoiceStatusName(r.value) == t
    ensures forall s :: InvoiceStatusName(s) == t ==> r == Some(s)
  {
    if t == "paid" then Some(Paid)
    else if t == "unpaid" then Some(Unpaid)
    else if t == "pending" then Some(AwaitingPayment)
    else None
  }

  /** Every stored status name parses back to itself, and names are distinct. */
  lemma StatusNamesRoundTrip(p: PropertyStatus, r: ReservationStatus, i: InvoiceStatus)
    ensures ParsePropertyStatus(PropertyStatusName(p)) == Some(p)
    ensures ParseReservationStatus(ReservationStatusName(r)) == Some(r)
    ensures ParseInvoiceStatus(InvoiceStatusName(i)) == Some(i)
  {
  }

  // ---- DECIMAL(10, 2) columns ------------------------------------------------

  /** The largest magnitude a DECIMAL(10, 2) column holds, in cents:
      99 999 999.99 (eight digits before the point, two after). */
  const MAX_CENTS: int := 9_999_999_999

  /** Whether an amount fits a DECIMAL(10, 2) column; writing one that does not
      makes PostgreSQL refuse the statement with a numeric field overflow. */
  predicate FitsDecimal(cents: int)
  {
    -MAX_CENTS <= cents <= MAX_CENTS
  }

  // ---- Defaults applied when a row is inserted --------------------------------

  /** A property row as the store builds it: `status` defaults to available and
      `images` to the empty list; the other columns are taken as given. */
  function NewProperty(id: int, title: string, description: Option<string>, address: string,
                       price: int, propertyType: string, status: Option<PropertyStatus>,
                       images: Option<seq<string>>): (p: Property)
    ensures p.status == (if status.Some? then status.value else Available)
    ensures p.images == (if images.Some? then images.value else [])
    ensures p.id == id && p.title == title && p.address == address && p.price == price
    ensures p.propertyType == propertyType && p.description == description
  {
    Property(id, title, description, address, price, propertyType,
             if status.Some? then status.value else Available,
             if images.Some? then images.value else [])
  }

  /** A reservation row as the store builds it: status defaults to pending. */
  function NewReservation(id: int, userId: int, propertyId: int, startDate: int, endDate: int,
                          createdAt: int): (r: Reservation)
    ensures r.status == Pending
    ensures r.userId == userId && r.propertyId == propertyId
    ensures r.startDate == startDate && r.endDate == endDate
    ensures r.id == id && r.createdAt == createdAt
  {
    Reservation(id, userId, propertyId, startDate, endDate, Pending, createdAt)
  }

  /** An invoice row as the store builds it: status defaults to unpaid, the issued
      date to the insertion instant, and the due date is left empty unless given. */
  function NewInvoice(id: int, reservationId: int, amount: int, status: Option<InvoiceStatus>,
                      dueDate: Option<int>, now: int): (inv: Invoice)
    ensures inv.status == (if status.Some? then status.value else Unpaid)
    ensures inv.issuedDate == now && inv.dueDate == dueDate
    ensures inv.reservationId == reservationId && inv.amount == amount
  {
    Invoice(id, reservationId, amount, now, dueDate, if status.Some? then status.value else Unpaid)
  }
}
