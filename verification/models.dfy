/** The persisted records (Realm objects in the app) as immutable values.
    An `ObjectId` is an `int`; a `Date` is already split into the calendar
    components the app reads from it. */
module Models {
  import opened Basics

  type Bytes = seq<bv8>

  /** Calendar components of a stored `Date`, as `Calendar.current.dateComponents` gives them. */
  datatype Date = Date(year: int, month: nat, day: nat)

  /** A billable line. `discount` and `tax` are whole percentages and default to 0. */
  datatype Item = Item(
    id: int,
    name: string,
    details: Option<string>,
    unitType: Option<string>,
    price: real,
    quantity: int,
    discount: int,
    tax: int)

  datatype Client = Client(
    id: int,
    name: string,
    email: Option<string>,
    phone: Option<string>,
    address: Option<string>,
    balance: int)

  /** An invoice or, when `isEstimate` holds, an estimate. `total` is a cached display value. */
  datatype Invoice = Invoice(
    id: int,
    issued: Date,
    due: Date,
    isEstimate: bool,
    client: Option<Client>,
    items: seq<Item>,
    total: real,
    currency: string,
    photo: Option<Bytes>,
    wasPaid: bool,
    payMethod: string,
    number: int,
    notes: Option<string>)

  datatype User = User(
    id: int,
    isSubscribed: bool,
    name: string,
    email: Option<string>,
    phone: Option<int>,
    address: Option<string>,
    logo: Option<Bytes>,
    invoices: seq<Invoice>)

  /** The bookkeeping record naming the signed-in user and the known users, by id. */
  datatype Core = Core(currentUser: Option<int>, users: seq<int>)

  /** The cached total of an invoice, as the list screens sum it. */
  function InvoiceTotal(inv: Invoice): real { inv.total }
}
