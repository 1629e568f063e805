/** The data layer itself: the module-level collections, the admin password and the reset token
    as the fields of one store object, and one method per API call. Each method performs the
    source's steps in place; its postcondition ties the new state to the value-level definitions
    of modules Ledger and Auth, whose properties are proved there. Persistence after each write and
    the simulated latency are not modelled (see README). */
module MockApi {
  import opened Types
  import opened Catalogue
  import opened Ids
  import opened Arrays
  import opened Ledger
  import opened Auth
  import opened Seed

  /** `{ role: 'admin', user: { name: 'Admin' } }`, `{ role: 'staff', user }` or `{ role: null, user: null }`. */
  datatype LoginResult = AdminLogin | StaffLogin(member: Staff) | NoLogin

  datatype DeliveryStats = DeliveryStats(delivered: nat, pending: nat, returned: nat)

  const DeliveryNotFound: string := "Delivery not found"
  const ProductNotFound: string := "Product not found"
  const StaffNotFound: string := "Staff not found"

  // ---------------------------------------------------------------------------------------------
  // Searches over the collections

  /** `staff.find(s => s.id === id && s.password === pass)`, as an index. */
  function CredentialIndex(ss: seq<Staff>, id: string, pass: string): (k: int)
    ensures -1 <= k < |ss|
    ensures k >= 0 ==> ss[k].id == id && ss[k].password == Some(pass)
    ensures k >= 0 ==> forall j :: 0 <= j < k ==> !(ss[j].id == id && ss[j].password == Some(pass))
    ensures k == -1 <==> forall j :: 0 <= j < |ss| ==> !(ss[j].id == id && ss[j].password == Some(pass))
  {
    FindIndex(ss, (s: Staff) => s.id == id && s.password == Some(pass))
  }

  /** `staff.find(s => s.id === id)`, as an index. */
  function StaffIndex(ss: seq<Staff>, id: string): (k: int)
    ensures -1 <= k < |ss|
    ensures k >= 0 ==> ss[k].id == id && forall j :: 0 <= j < k ==> ss[j].id != id
    ensures k == -1 <==> forall j :: 0 <= j < |ss| ==> ss[j].id != id
  {
    FindIndex(ss, (s: Staff) => s.id == id)
  }

  /** `deliveries.findIndex(d => d.id === id)`. */
  function DeliveryIndex(ds: seq<Delivery>, id: string): (k: int)
    ensures -1 <= k < |ds|
    ensures k >= 0 ==> ds[k].id == id && forall j :: 0 <= j < k ==> ds[j].id != id
    ensures k == -1 <==> forall j :: 0 <= j < |ds| ==> ds[j].id != id
  {
    FindIndex(ds, (d: Delivery) => d.id == id)
  }

  /** `staff.filter(s => s.id !== id)`: every record with that id removed, the others kept. */
  function WithoutStaff(ss: seq<Staff>, id: string): (r: seq<Staff>)
    ensures forall s :: s in r <==> s in ss && s.id != id
    ensures |r| < |ss| <==> exists k :: 0 <= k < |ss| && ss[k].id == id
    ensures |r| == |ss| ==> r == ss
  {
    Filter(ss, (s: Staff) => s.id != id)
  }

  /** Deleting keeps the remaining staff in their order. */
  lemma WithoutStaffCons(s: Staff, rest: seq<Staff>, id: string)
    ensures WithoutStaff([s] + rest, id) == (if s.id != id then [s] else []) + WithoutStaff(rest, id)
  {
    FilterCons(s, rest, (x: Staff) => x.id != id);
  }

  /** `deliveries.filter(d => d.assignedTo === staffId)`. */
  function DeliveriesOf(ds: seq<Delivery>, staffId: string): (r: seq<Delivery>)
    ensures forall d :: d in r <==> d in ds && d.assignedTo == staffId
  {
    Filter(ds, (d: Delivery) => d.assignedTo == staffId)
  }

  /** `deliveries.filter(d => d.status === status).length`: at most the number of deliveries; 0
      exactly when no delivery has the status, all of them exactly when every delivery has it. */
  /** A consistent invoice numbered after the ledger keeps the ledger numbered, consistent and
      free of duplicate ids once put first. */
  lemma PrependInvoice(current: seq<Invoice>, inv: Invoice)
    requires NumberedNewestFirst(current, InvoiceId, "I")
    requires forall k :: 0 <= k < |current| ==> InvoiceConsistent(current[k])
    requires inv.id == FormatId("I", |current| + 1) && InvoiceConsistent(inv)
    ensures NumberedNewestFirst([inv] + current, InvoiceId, "I")
    ensures forall k :: 0 <= k < |[inv] + current| ==> InvoiceConsistent(([inv] + current)[k])
    ensures forall k :: 0 <= k < |current| ==> current[k].id != inv.id
  {
    PrependNumbered(current, InvoiceId, "I", inv);
    forall k | 0 <= k < |[inv] + current| ensures InvoiceConsistent(([inv] + current)[k]) {
      if k > 0 {
        assert ([inv] + current)[k] == current[k - 1];
      }
    }
  }

  /** A record numbered after a newest-first collection keeps it numbered once put first, and its
      id is new. */
  lemma PrependNumbered<T>(current: seq<T>, id: T -> string, prefix: string, x: T)
    requires NumberedNewestFirst(current, id, prefix)
    requires id(x) == FormatId(prefix, |current| + 1)
    ensures NumberedNewestFirst([x] + current, id, prefix)
    ensures forall k :: 0 <= k < |current| ==> id(current[k]) != id(x)
  {
    NewestFirstDistinct(current, id, prefix);
    NewestFirstPrepend(current, id, prefix, x);
  }

  function StatusCount(ds: seq<Delivery>, status: DeliveryStatus): (n: nat)
    ensures n <= |ds|
    ensures n == 0 <==> forall k :: 0 <= k < |ds| ==> ds[k].status != status
    ensures n == |ds| <==> forall k :: 0 <= k < |ds| ==> ds[k].status == status
  {
    var kept := Filter(ds, (d: Delivery) => d.status == status);
    assert kept != [] ==> kept[0] in kept && kept[0] in ds;
    assert forall k :: 0 <= k < |ds| && ds[k].status == status ==> ds[k] in kept;
    |kept|
  }

  /** Every delivery is in exactly one of the three states, so the counts add up. */
  lemma {:induction false} StatusCountsAddUp(ds: seq<Delivery>)
    ensures StatusCount(ds, Delivered) + StatusCount(ds, Pending) + StatusCount(ds, Returned) == |ds|
  {
    if ds != [] {
      StatusCountsAddUp(ds[1..]);
      var statuses := [Delivered, Pending, Returned];
      forall status | status in statuses
        ensures StatusCount(ds, status) == StatusCount(ds[1..], status) + (if ds[0].status == status then 1 else 0)
      {
        FilterCons(ds[0], ds[1..], (d: Delivery) => d.status == status);
        assert [ds[0]] + ds[1..] == ds;
      }
    }
  }

  /** The dashboard's delivery statistics: the three per-status counts, which partition the
      deliveries. */
  function Stats(ds: seq<Delivery>): (s: DeliveryStats)
    ensures s.delivered + s.pending + s.returned == |ds|
    ensures s.delivered == StatusCount(ds, Delivered) && s.pending == StatusCount(ds, Pending)
    ensures s.returned == StatusCount(ds, Returned)
  {
    StatusCountsAddUp(ds);
    DeliveryStats(StatusCount(ds, Delivered), StatusCount(ds, Pending), StatusCount(ds, Returned))
  }

  // ---------------------------------------------------------------------------------------------
  // The store

  class Store {
    var products: seq<Product>
    var staff: seq<Staff>
    var deliveries: seq<Delivery>
    var dailyRecords: seq<DailyRecord>
    var invoices: seq<Invoice>
    var conversionLogs: seq<ConversionLog>
    var deliveryRoutes: seq<DeliveryRoute>
    var salaryRecords: seq<SalaryRecord>
    var adminPassword: string
    var passwordResetToken: Option<ResetToken>

    /** What every operation preserves: invoices, conversion logs and salary payments are only ever
        prepended to and routes only ever appended to, so their ids count down (respectively up)
        without gaps; every invoice is priced from the table and totalled. Staff ids are not
        covered: deleting staff lets a later id repeat. */
    ghost predicate Valid()
      reads this
    {
      NumberedNewestFirst(invoices, InvoiceId, "I") &&
      NumberedNewestFirst(conversionLogs, LogId, "C") &&
      NumberedNewestFirst(salaryRecords, PaymentId, "SR") &&
      NumberedOldestFirst(deliveryRoutes, RouteId, "R") &&
      forall k :: 0 <= k < |invoices| ==> InvoiceConsistent(invoices[k])
    }

    ghost function AuthView(): AuthState
      reads this
    {
      AuthState(adminPassword, passwordResetToken)
    }

    /** The first-run state: every collection from its seed, the default admin password, no token.
        `records` are the generated daily sales records, which are random and not modelled. */
    constructor (draws: seq<nat>, records: seq<DailyRecord>, today: string)
      requires |draws| == |ProductsList|
      ensures Valid()
      ensures products == InitProducts(draws) && staff == InitStaff && deliveries == InitDeliveries
      ensures dailyRecords == records && invoices == InitInvoices(today)
      ensures conversionLogs == InitConversionLogs(today) && deliveryRoutes == InitDeliveryRoutes
      ensures salaryRecords == InitSalaryRecords(today)
      ensures adminPassword == InitialAdminPassword && passwordResetToken == None
    {
      products := InitProducts(draws);
      staff := InitStaff;
      deliveries := InitDeliveries;
      dailyRecords := records;
      invoices := InitInvoices(today);
      conversionLogs := InitConversionLogs(today);
      deliveryRoutes := InitDeliveryRoutes;
      salaryRecords := InitSalaryRecords(today);
      adminPassword := InitialAdminPassword;
      passwordResetToken := None;
      InitRoutesSeeded();
    }

    // -------------------------------------------------------------------------------------------
    // Auth

    /** login: the admin check comes first; then the first staff record whose id and password both
        match; otherwise nobody. */
    method Login(id: string, pass: string) returns (r: LoginResult)
      ensures r == AdminLogin <==> IsAdminId(id) && pass == adminPassword
      ensures r.StaffLogin? <==> !(IsAdminId(id) && pass == adminPassword) && CredentialIndex(staff, id, pass) >= 0
      ensures r.StaffLogin? ==> r.member == staff[CredentialIndex(staff, id, pass)]
      ensures r == NoLogin <==>
        !(IsAdminId(id) && pass == adminPassword) &&
        forall k :: 0 <= k < |staff| ==> !(staff[k].id == id && staff[k].password == Some(pass))
    {
      if IsAdminId(id) && pass == adminPassword {
        return AdminLogin;
      }
      var k := CredentialIndex(staff, id, pass);
      if k >= 0 {
        return StaffLogin(staff[k]);
      }
      return NoLogin;
    }

    method ChangeAdminPassword(oldPass: string, newPass: string) returns (r: Reply)
      modifies this`adminPassword
      ensures AuthView() == ChangePassword(old(AuthView()), oldPass, newPass).state
      ensures r == ChangePassword(old(AuthView()), oldPass, newPass).reply
    {
      if oldPass != adminPassword {
        return Reply(false, WrongPasswordMessage);
      }
      adminPassword := newPass;
      return Reply(true, PasswordUpdatedMessage);
    }

    /** `token` is the random string drawn by the source; `now` is `Date.now()`. */
    method RequestAdminPasswordReset(adminId: string, token: string, now: int) returns (r: TokenReply)
      modifies this`passwordResetToken
      ensures AuthView() == RequestReset(old(AuthView()), adminId, token, now).state
      ensures r == RequestReset(old(AuthView()), adminId, token, now).reply
    {
      if !IsAdminId(adminId) {
        return TokenReply(false, InvalidAdminIdMessage, None);
      }
      passwordResetToken := Some(ResetToken(token, now + TokenLifetime));
      return TokenReply(true, TokenGeneratedMessage, Some(token));
    }

    method ResetAdminPassword(token: string, newPass: string, now: int) returns (r: Reply)
      modifies this`adminPassword, this`passwordResetToken
      ensures AuthView() == ResetPassword(old(AuthView()), token, newPass, now).state
      ensures r == ResetPassword(old(AuthView()), token, newPass, now).reply
    {
      if passwordResetToken.None? || passwordResetToken.value.token != token {
        return Reply(false, InvalidTokenMessage);
      }
      if passwordResetToken.value.expiry < now {
        passwordResetToken := None;
        return Reply(false, ExpiredTokenMessage);
      }
      adminPassword := newPass;
      passwordResetToken := None;
      return Reply(true, PasswordResetMessage);
    }

    // -------------------------------------------------------------------------------------------
    // Deliveries

    method GetDeliveriesByStaff(staffId: string) returns (r: seq<Delivery>)
      ensures r == DeliveriesOf(deliveries, staffId)
    {
      r := DeliveriesOf(deliveries, staffId);
    }

    /** Replaces the first delivery with the same id by the record given, or fails with no change. */
    method UpdateDelivery(updated: Delivery) returns (r: Result<Delivery>)
      modifies this`deliveries
      ensures r.Ok? <==> exists k :: 0 <= k < |old(deliveries)| && old(deliveries)[k].id == updated.id
      ensures r.Ok? ==> r.value == updated
      ensures r.Ok? ==> deliveries == old(deliveries)[DeliveryIndex(old(deliveries), updated.id) := updated]
      ensures r.Err? ==> r.message == DeliveryNotFound && deliveries == old(deliveries)
    {
      var index := DeliveryIndex(deliveries, updated.id);
      if index > -1 {
        deliveries := deliveries[index := updated];
        return Ok(updated);
      }
      return Err(DeliveryNotFound);
    }

    // -------------------------------------------------------------------------------------------
    // Invoices and stock

    /** The stock loop of createInvoice: for each line in order, the first product with the line's
        id loses the line's quantity; no floor, and unknown ids are skipped. */
    method SellStock(items: seq<LineItem>)
      modifies this`products
      ensures products == DecrementStock(old(products), items)
    {
      var i := 0;
      while i < |items|
        invariant 0 <= i <= |items|
        invariant products == DecrementStock(old(products), items[..i])
      {
        var item := items[i];
        var k := ProductIndex(products, item.productId);
        if k >= 0 {
          products := products[k := products[k].(stock := products[k].stock - item.quantity)];
        }
        assert items[..i + 1][..i] == items[..i];
        i := i + 1;
      }
      assert items[..i] == items;
    }

    /** createInvoice: numbered after the existing invoices, priced from the table, totalled, put
        first; every line then lowers the stock of its product, with no floor. */
    method CreateInvoice(draft: InvoiceDraft, today: string) returns (inv: Invoice)
      requires Valid()
      modifies this`invoices, this`products
      ensures Valid()
      ensures inv.id == FormatId("I", |old(invoices)| + 1)
      ensures forall k :: 0 <= k < |old(invoices)| ==> old(invoices)[k].id != inv.id
      ensures inv.customerName == draft.customerName && inv.date == today && inv.submittedBy == draft.submittedBy
      ensures inv.items == PriceItems(draft.items)
      ensures inv.total == ExpectedTotal(draft.items)
      ensures invoices == [inv] + old(invoices)
      ensures products == DecrementStock(old(products), inv.items)
    {
      var current := invoices;
      var newId := FormatId("I", |current| + 1);
      var itemsWithPrices := PriceItems(draft.items);
      var total := Total(itemsWithPrices);
      inv := Invoice(newId, draft.customerName, today, itemsWithPrices, total, draft.submittedBy);
      NewInvoiceConsistent(inv, draft.items);
      PrependInvoice(current, inv);
      SellStock(inv.items);
      invoices := [inv] + current;
    }

    /** The stock part of addConversionLog: both products are looked up by name first, then the
        source loses `fromQty` and the destination gains `toQty`, or nothing moves. */
    method MoveStock(fromName: string, fromQty: int, toName: string, toQty: int)
      modifies this`products
      ensures products == ConvertStock(old(products), fromName, fromQty, toName, toQty)
    {
      var ps := products;
      ghost var converted := ConvertStock(ps, fromName, fromQty, toName, toQty);
      var fromIndex := ProductNamed(ps, fromName);
      var toIndex := ProductNamed(ps, toName);
      if fromIndex >= 0 && toIndex >= 0 {
        ps := ps[fromIndex := ps[fromIndex].(stock := ps[fromIndex].stock - fromQty)];
        ps := ps[toIndex := ps[toIndex].(stock := ps[toIndex].stock + toQty)];
        assert ps == converted;
        products := ps;
      } else {
        assert ps == converted;
      }
    }

    /** addConversionLog: the log is numbered and put first whatever happens; stock moves only if
        both products are found by name. */
    method AddConversionLog(draft: ConversionDraft, today: string) returns (log: ConversionLog)
      requires Valid()
      modifies this`conversionLogs, this`products
      ensures Valid()
      ensures log == ConversionLog(FormatId("C", |old(conversionLogs)| + 1), today, draft.fromProduct,
                                   draft.fromQuantity, draft.toProduct, draft.toQuantity, draft.staffId)
      ensures forall k :: 0 <= k < |old(conversionLogs)| ==> old(conversionLogs)[k].id != log.id
      ensures conversionLogs == [log] + old(conversionLogs)
      ensures products == ConvertStock(old(products), draft.fromProduct, draft.fromQuantity, draft.toProduct, draft.toQuantity)
    {
      var newId := FormatId("C", |conversionLogs| + 1);
      log := ConversionLog(newId, today, draft.fromProduct, draft.fromQuantity, draft.toProduct,
                           draft.toQuantity, draft.staffId);
      PrependNumbered(conversionLogs, LogId, "C", log);
      MoveStock(draft.fromProduct, draft.fromQuantity, draft.toProduct, draft.toQuantity);
      conversionLogs := [log] + conversionLogs;
    }

    // -------------------------------------------------------------------------------------------
    // Admin panel

    method GetDashboardData() returns (records: seq<DailyRecord>, stats: DeliveryStats)
      ensures records == dailyRecords
      ensures stats == Stats(deliveries)
      ensures stats.delivered + stats.pending + stats.returned == |deliveries|
    {
      records := dailyRecords;
      var delivered := StatusCount(deliveries, Delivered);
      var pending := StatusCount(deliveries, Pending);
      var returned := StatusCount(deliveries, Returned);
      stats := DeliveryStats(delivered, pending, returned);
    }

    method GetProducts() returns (r: seq<Product>)
      ensures r == products
    {
      r := products;
    }

    /** Replaces the first product with the same id by the record given (stock included), or fails
        with no change. */
    method UpdateProduct(updated: Product) returns (r: Result<Product>)
      modifies this`products
      ensures r.Ok? <==> exists k :: 0 <= k < |old(products)| && old(products)[k].id == updated.id
      ensures r.Ok? ==> r.value == updated
      ensures r.Ok? ==> products == old(products)[ProductIndex(old(products), updated.id) := updated]
      ensures r.Err? ==> r.message == ProductNotFound && products == old(products)
    {
      var index := ProductIndex(products, updated.id);
      if index > -1 {
        products := products[index := updated];
        return Ok(updated);
      }
      return Err(ProductNotFound);
    }

    method GetStaff() returns (r: seq<Staff>)
      ensures r == staff
    {
      r := staff;
    }

    /** addStaff: numbered after the current staff count and appended. */
    method AddStaff(draft: StaffDraft) returns (member: Staff)
      modifies this`staff
      ensures member == Staff(FormatId("S", |old(staff)| + 1), draft.name, draft.role, draft.password, draft.salary)
      ensures staff == old(staff) + [member]
    {
      var newId := FormatId("S", |staff| + 1);
      member := Staff(newId, draft.name, draft.role, draft.password, draft.salary);
      staff := staff + [member];
    }

    /** Sets the salary of the first staff member with that id and nothing else, or fails with no
        change. */
    method UpdateStaffSalary(staffId: string, newSalary: int) returns (r: Result<Staff>)
      modifies this`staff
      ensures r.Ok? <==> exists k :: 0 <= k < |old(staff)| && old(staff)[k].id == staffId
      ensures r.Ok? ==> var k := StaffIndex(old(staff), staffId);
        r.value == old(staff)[k].(salary := Some(newSalary)) && staff == old(staff)[k := r.value]
      ensures r.Err? ==> r.message == StaffNotFound && staff == old(staff)
    {
      var k := StaffIndex(staff, staffId);
      if k >= 0 {
        var member := staff[k].(salary := Some(newSalary));
        staff := staff[k := member];
        return Ok(member);
      }
      return Err(StaffNotFound);
    }

    /** deleteStaff: removes every record with that id; fails, removing nothing, when there is none. */
    method DeleteStaff(staffId: string) returns (r: Result<bool>)
      modifies this`staff
      ensures staff == WithoutStaff(old(staff), staffId)
      ensures r.Ok? <==> exists k :: 0 <= k < |old(staff)| && old(staff)[k].id == staffId
      ensures r.Ok? ==> r.value
      ensures r.Err? ==> r.message == StaffNotFound && staff == old(staff)
    {
      var initialLength := |staff|;
      staff := WithoutStaff(staff, staffId);
      if |staff| < initialLength {
        return Ok(true);
      }
      return Err(StaffNotFound);
    }

    method GetDeliveries() returns (r: seq<Delivery>)
      ensures r == deliveries
    {
      r := deliveries;
    }

    /** getInvoices: newest first, with distinct ids, each invoice priced from the table. */
    method GetInvoices() returns (r: seq<Invoice>)
      ensures r == invoices
      ensures Valid() ==> NumberedNewestFirst(r, InvoiceId, "I")
      ensures Valid() ==> forall i, j :: 0 <= i < j < |r| ==> r[i].id != r[j].id
      ensures Valid() ==> forall k :: 0 <= k < |r| ==> InvoiceConsistent(r[k])
    {
      r := invoices;
      if Valid() {
        NewestFirstDistinct(r, InvoiceId, "I");
      }
    }

    /** getConversionLogs: newest first, with distinct ids. */
    method GetConversionLogs() returns (r: seq<ConversionLog>)
      ensures r == conversionLogs
      ensures Valid() ==> NumberedNewestFirst(r, LogId, "C")
      ensures Valid() ==> forall i, j :: 0 <= i < j < |r| ==> r[i].id != r[j].id
    {
      r := conversionLogs;
      if Valid() {
        NewestFirstDistinct(r, LogId, "C");
      }
    }

    /** getDeliveryRoutes: oldest first, with distinct ids. */
    method GetDeliveryRoutes() returns (r: seq<DeliveryRoute>)
      ensures r == deliveryRoutes
      ensures Valid() ==> NumberedOldestFirst(r, RouteId, "R")
      ensures Valid() ==> forall i, j :: 0 <= i < j < |r| ==> r[i].id != r[j].id
    {
      r := deliveryRoutes;
      if Valid() {
        OldestFirstDistinct(r, RouteId, "R");
      }
    }

    /** createDeliveryRoute: numbered after the current routes and appended. */
    method CreateDeliveryRoute(draft: RouteDraft) returns (route: DeliveryRoute)
      requires Valid()
      modifies this`deliveryRoutes
      ensures Valid()
      ensures route == DeliveryRoute(FormatId("R", |old(deliveryRoutes)| + 1), draft.name, draft.staffId, draft.zone, draft.photo)
      ensures forall k :: 0 <= k < |old(deliveryRoutes)| ==> old(deliveryRoutes)[k].id != route.id
      ensures deliveryRoutes == old(deliveryRoutes) + [route]
    {
      var newId := FormatId("R", |deliveryRoutes| + 1);
      route := DeliveryRoute(newId, draft.name, draft.staffId, draft.zone, draft.photo);
      OldestFirstDistinct(deliveryRoutes, RouteId, "R");
      OldestFirstAppend(deliveryRoutes, RouteId, "R", route);
      deliveryRoutes := deliveryRoutes + [route];
    }

    /** getSalaryRecords: newest first, with distinct ids. */
    method GetSalaryRecords() returns (r: seq<SalaryRecord>)
      ensures r == salaryRecords
      ensures Valid() ==> NumberedNewestFirst(r, PaymentId, "SR")
      ensures Valid() ==> forall i, j :: 0 <= i < j < |r| ==> r[i].id != r[j].id
    {
      r := salaryRecords;
      if Valid() {
        NewestFirstDistinct(r, PaymentId, "SR");
      }
    }

    /** paySalary: numbered after the existing payments and put first; no de-duplication. */
    method PaySalary(draft: PaymentDraft, today: string) returns (record: SalaryRecord)
      requires Valid()
      modifies this`salaryRecords
      ensures Valid()
      ensures record == SalaryRecord(FormatId("SR", |old(salaryRecords)| + 1), draft.staffId, draft.amount, today, draft.forMonth)
      ensures forall k :: 0 <= k < |old(salaryRecords)| ==> old(salaryRecords)[k].id != record.id
      ensures salaryRecords == [record] + old(salaryRecords)
    {
      var newId := FormatId("SR", |salaryRecords| + 1);
      record := SalaryRecord(newId, draft.staffId, draft.amount, today, draft.forMonth);
      NewestFirstDistinct(salaryRecords, PaymentId, "SR");
      NewestFirstPrepend(salaryRecords, PaymentId, "SR", record);
      salaryRecords := [record] + salaryRecords;
    }
  }
}
