/** Records of the dairy data layer (types.ts), as immutable values.
    Optional TypeScript fields (`password?`, `salary?`, `reason?`, `photo?`) become `Option`s.
    All numeric fields are JavaScript numbers in the source; here they are integers. */
module Types {

  datatype Option<+T> = None | Some(value: T)

  /** An API call that either returns a value or throws `new Error(message)`. */
  datatype Result<+T> = Ok(value: T) | Err(message: string)

  datatype Unit = Ltr | Kg | Pcs

  /** The `type` field of a product (`type` is a keyword in Dafny). */
  datatype ProductKind = CowMilk | BuffaloMilk | DairyProduct | Other

  datatype Product = Product(id: string, name: string, stock: int, unit: Unit, kind: ProductKind)

  datatype StaffRole = Delivery | CounterSales | Production | Manager

  datatype Staff = Staff(id: string, name: string, role: StaffRole, password: Option<string>, salary: Option<int>)

  /** One invoice line; `price` is the unit price at sale. */
  datatype LineItem = LineItem(productId: string, quantity: int, price: int)

  datatype Invoice = Invoice(id: string, customerName: string, date: string, items: seq<LineItem>,
                             total: int, submittedBy: string)

  datatype DeliveryStatus = Pending | Delivered | Returned

  datatype Delivery = Delivery(id: string, customerName: string, address: string, status: DeliveryStatus,
                               reason: Option<string>, photo: Option<string>, assignedTo: string)

  /** `fromProduct` and `toProduct` are product NAMES, not ids. */
  datatype ConversionLog = ConversionLog(id: string, date: string, fromProduct: string, fromQuantity: int,
                                         toProduct: string, toQuantity: int, staffId: string)

  datatype DeliveryRoute = DeliveryRoute(id: string, name: string, staffId: string, zone: string, photo: Option<string>)

  datatype SalaryRecord = SalaryRecord(id: string, staffId: string, amount: int, paymentDate: string, forMonth: string)

  datatype DailyRecord = DailyRecord(date: string, totalSales: int, counterSales: int, deliverySales: int,
                                     productsDelivered: int, productsPending: int, productsReturned: int)

  // The id of each kind of record, as a function for the numbering predicates of module Ids.

  function StaffId(x: Staff): string { x.id }
  function DeliveryId(x: Delivery): string { x.id }
  function InvoiceId(x: Invoice): string { x.id }
  function LogId(x: ConversionLog): string { x.id }
  function RouteId(x: DeliveryRoute): string { x.id }
  function PaymentId(x: SalaryRecord): string { x.id }

  // What callers pass to the creating operations: the record without the fields the store assigns.

  /** `Omit<Invoice, 'id' | 'date' | 'total'>`; the prices inside `items` are ignored by the store. */
  datatype InvoiceDraft = InvoiceDraft(customerName: string, items: seq<LineItem>, submittedBy: string)

  /** `Omit<Staff, 'id'>`. */
  datatype StaffDraft = StaffDraft(name: string, role: StaffRole, password: Option<string>, salary: Option<int>)

  /** `Omit<ConversionLog, 'id' | 'date'>`. */
  datatype ConversionDraft = ConversionDraft(fromProduct: string, fromQuantity: int, toProduct: string,
                                             toQuantity: int, staffId: string)

  /** `Omit<DeliveryRoute, 'id'>`. */
  datatype RouteDraft = RouteDraft(name: string, staffId: string, zone: string, photo: Option<string>)

  /** `Omit<SalaryRecord, 'id' | 'paymentDate'>`. */
  datatype PaymentDraft = PaymentDraft(staffId: string, amount: int, forMonth: string)
}
