/** The records of the point-of-sale store. Money is whole rupees, counts
    are integers; identifiers and timestamps are opaque values supplied from
    outside. */
module Types {
  import opened Collections

  datatype Category = Produce | Dairy | Bakery | Meat | Pantry | Beverages | Frozen | Snacks

  datatype Customer = Customer(id: string, name: string, phone: string, points: int)

  datatype Salesman = Salesman(id: string, name: string, code: string)

  datatype Product = Product(
    id: string,
    name: string,
    price: int,
    costPrice: int,
    category: Category,
    stock: int,
    unit: string,
    orderId: string)

  /** A cart line: a snapshot of the product taken when it was first added,
      plus the requested quantity. */
  datatype CartItem = CartItem(product: Product, quantity: int)

  datatype PaymentMethod = Cash | Card | Digital

  datatype Sale = Sale(
    id: string,
    timestamp: int,
    items: seq<CartItem>,
    total: int,
    amountGiven: int,
    changeDue: int,
    profit: int,
    customerId: Option<string>,
    salesmanId: string,
    paymentMethod: PaymentMethod)

  datatype LogType = Success | Warning | Error | Info
  {
    /** The tag the log screen compares its type filter against. */
    function Name(): string
    {
      match this
      case Success => "SUCCESS"
      case Warning => "WARNING"
      case Error => "ERROR"
      case Info => "INFO"
    }
  }

  datatype LogEntry = LogEntry(
    id: string,
    timestamp: int,
    kind: LogType,
    action: string,
    message: string,
    user: string)

  datatype View = LoginView | TerminalView | InventoryView | AnalyticsView | StaffView | SettingsView

  datatype Role = AdminRole | SalesmanRole

  /** The key functions that identify a record, for the by-id operations. */
  function ProductId(p: Product): string { p.id }

  function LineId(item: CartItem): string { item.product.id }

  function SalesmanId(m: Salesman): string { m.id }

  function CustomerId(c: Customer): string { c.id }

  /** The look-ups by id the screens do with `find`: the first record with
      that id. */
  function FindLine(items: seq<CartItem>, id: string): Option<CartItem>
  {
    Find(items, (it: CartItem) => it.product.id == id)
  }

  function FindProduct(products: seq<Product>, id: string): Option<Product>
  {
    Find(products, (p: Product) => p.id == id)
  }

  /** The name of the first staff member with that id, if any. */
  function SalesmanName(salesmen: seq<Salesman>, id: string): (r: Option<string>)
    ensures r.None? <==> !HasKey(salesmen, SalesmanId, id)
    ensures r.Some? ==> exists i :: 0 <= i < |salesmen| && salesmen[i].id == id && salesmen[i].name == r.value &&
                                    forall j :: 0 <= j < i ==> salesmen[j].id != id
  {
    match Find(salesmen, (m: Salesman) => m.id == id)
    case Some(m) => Some(m.name)
    case None => None
  }

  /** The name of the first customer with that id, if any. */
  function CustomerName(customers: seq<Customer>, id: string): (r: Option<string>)
    ensures r.None? <==> !HasKey(customers, CustomerId, id)
    ensures r.Some? ==> exists i :: 0 <= i < |customers| && customers[i].id == id && customers[i].name == r.value &&
                                    forall j :: 0 <= j < i ==> customers[j].id != id
  {
    match Find(customers, (c: Customer) => c.id == id)
    case Some(c) => Some(c.name)
    case None => None
  }
}
