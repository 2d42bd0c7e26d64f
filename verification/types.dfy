/** The records the client exchanges with the billing backend.
    Identifiers and phone numbers are strings; every date is an integer
    timestamp (milliseconds since the epoch); monetary amounts, rates and
    meter readings are reals. */
module Types {
  import opened Wrappers

  /** The three user roles; the set is closed. */
  datatype Role = Admin | Technician | Landlord

  /** The three bill states; the set is closed. */
  datatype BillStatus = Pending | Paid | Overdue

  /** The wire spelling of a role. */
  function RoleName(r: Role): string
  {
    match r
    case Admin => "ADMIN"
    case Technician => "TECHNICIAN"
    case Landlord => "LANDLORD"
  }

  /** Reads a wire role; any other string is not a role. */
  function ParseRole(s: string): (r: Option<Role>)
    ensures r.Some? ==> RoleName(r.value) == s
  {
    if s == "ADMIN" then Some(Admin)
    else if s == "TECHNICIAN" then Some(Technician)
    else if s == "LANDLORD" then Some(Landlord)
    else None
  }

  lemma ParseRoleName(r: Role)
    ensures ParseRole(RoleName(r)) == Some(r)
  {
  }

  /** The wire spelling of a bill status. */
  function StatusName(s: BillStatus): string
  {
    match s
    case Pending => "PENDING"
    case Paid => "PAID"
    case Overdue => "OVERDUE"
  }

  /** Reads a wire status; any other string is not a status. */
  function ParseStatus(s: string): (r: Option<BillStatus>)
    ensures r.Some? ==> StatusName(r.value) == s
  {
    if s == "PENDING" then Some(Pending)
    else if s == "PAID" then Some(Paid)
    else if s == "OVERDUE" then Some(Overdue)
    else None
  }

  lemma ParseStatusName(s: BillStatus)
    ensures ParseStatus(StatusName(s)) == Some(s)
  {
  }

  datatype User = User(
    id: string,
    phoneNumber: string,
    role: Role,
    name: Option<string>,
    createdAt: int)

  /** The landlord as embedded in a meter; its role arrives as a plain string. */
  datatype MeterLandlord = MeterLandlord(
    id: string,
    phoneNumber: string,
    name: Option<string>,
    role: string)

  datatype MeterCounts = MeterCounts(readings: nat, bills: nat)

  datatype Meter = Meter(
    id: string,
    meterNumber: string,
    plotNumber: string,
    coordinates: Option<string>,
    location: Option<string>,
    isActive: bool,
    createdAt: int,
    landlord: MeterLandlord,
    counts: Option<MeterCounts>)

  /** A name-and-phone reference to a person embedded in another record. */
  datatype Contact = Contact(name: Option<string>, phoneNumber: string)

  datatype ReadingMeter = ReadingMeter(meterNumber: string, plotNumber: string, landlord: Contact)

  datatype MeterReading = MeterReading(
    id: string,
    reading: real,
    previousReading: Option<real>,
    unitsConsumed: Option<real>,
    readingDate: int,
    createdAt: int,
    photoPath: string,
    meter: ReadingMeter,
    technician: Contact)

  datatype BillMeter = BillMeter(meterNumber: string, plotNumber: string, location: Option<string>)

  datatype BillReading = BillReading(
    reading: real,
    previousReading: Option<real>,
    readingDate: int,
    technicianName: Option<string>)

  datatype Bill = Bill(
    id: string,
    billNumber: string,
    unitsConsumed: real,
    ratePerUnit: real,
    totalAmount: real,
    billDate: Option<int>,
    dueDate: int,
    status: BillStatus,
    paidDate: Option<int>,
    createdAt: int,
    meter: BillMeter,
    landlord: Contact,
    reading: BillReading)

  /** Server-computed totals: three bill counts, the overdue count and three amounts. */
  datatype BillingSummary = BillingSummary(
    totalBills: nat,
    paidBills: nat,
    pendingBills: nat,
    overdueBills: nat,
    totalAmount: real,
    paidAmount: real,
    pendingAmount: real)

  datatype Pagination = Pagination(page: int, limit: int, total: int, pages: int)

  datatype PaginatedResponse<T> = PaginatedResponse(data: seq<T>, pagination: Pagination)

  /** One entry of a picker (a `<select>` option): the value submitted and
      the caption shown. */
  datatype Choice = Choice(value: string, caption: string)

  /** Locale-dependent rendering the client delegates to the JavaScript
      runtime, kept opaque. The source renders numbers and dates in several
      distinct ways, and each has its own field:
      `number` is `Number.prototype.toString` (what a template literal
      makes of a number), `fixed2` is `toFixed(2)`, `localeNumber` is
      `toLocaleString()`; `date` is `toLocaleDateString()` with no
      arguments, `shortDate` is `toLocaleDateString('en-US')` with a
      numeric year, short month and numeric day, and `dateTime` is the same
      with a two-digit hour and minute added. */
  datatype Formats = Formats(
    number: real -> string,
    fixed2: real -> string,
    localeNumber: real -> string,
    date: int -> string,
    shortDate: int -> string,
    dateTime: int -> string)
}
