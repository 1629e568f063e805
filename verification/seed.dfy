/** The first-run contents of every collection. `today` stands for
    `new Date().toISOString().split('T')[0]`; `draws[k]` stands for
    `Math.floor(Math.random() * bound)` drawn for the k-th catalogue product. */
module Seed {
  import opened Types
  import opened Catalogue
  import opened Ids
  import opened Ledger

  /** The random stock bound: 500 for products sold by the litre, 100 otherwise. */
  function StockBound(unit: Unit): nat
  {
    if unit == Ltr then 500 else 100
  }

  ghost predicate ValidDraws(draws: seq<nat>)
  {
    |draws| == |ProductsList| && forall k :: 0 <= k < |draws| ==> draws[k] < StockBound(ProductsList[k].unit)
  }

  /** initProducts: each catalogue product with stock `draw + 20`. */
  function InitProducts(draws: seq<nat>): (ps: seq<Product>)
    requires |draws| == |ProductsList|
    ensures |ps| == |ProductsList|
    ensures ValidDraws(draws) ==> forall k :: 0 <= k < |ps| ==> 20 <= ps[k].stock < StockBound(ps[k].unit) + 20
    ensures forall k :: 0 <= k < |ps| ==>
      ps[k].id == ProductsList[k].id && ps[k].name == ProductsList[k].name &&
      ps[k].unit == ProductsList[k].unit && ps[k].kind == ProductsList[k].kind
  {
    seq(|draws|, k requires 0 <= k < |draws| =>
      var e := ProductsList[k];
      Product(e.id, e.name, draws[k] + 20, e.unit, e.kind))
  }

  const InitStaff: seq<Staff> := [
    Staff("S001", "Ramesh Kumar", StaffRole.Delivery, Some("password1"), Some(15000)),
    Staff("S002", "Sita Devi", CounterSales, Some("password2"), Some(12000)),
    Staff("S003", "Mohan Singh", Production, Some("password3"), Some(18000)),
    Staff("S004", "Geeta Sharma", Manager, Some("password4"), Some(25000)),
    Staff("S005", "Arjun Reddy", StaffRole.Delivery, Some("password5"), Some(15500))
  ]

  /** initDeliveries. On a first run the persisted staff list it consults is still empty, so every
      assignee is the literal fallback (S001 or S005). */
  const InitDeliveries: seq<Delivery> := [
    Delivery.Delivery("D001", "Anjali Verma", "123, Green Park, Delhi", Delivered, None, None, "S001"),
    Delivery.Delivery("D002", "Raj Malhotra", "456, Civil Lines, Noida", Pending, None, None, "S005"),
    Delivery.Delivery("D003", "Priya Singh", "789, MG Road, Gurgaon", Pending, None, None, "S001"),
    Delivery.Delivery("D004", "Amit Patel", "101, Sector 15, Faridabad", Returned, Some("Customer not available"),
             Some("https://via.placeholder.com/150/FF0000/FFFFFF?text=Door+Closed"), "S005")
  ]

  /** A seeded staff id naming a member with the Delivery role. */
  ghost predicate DeliveryStaffId(id: string)
  {
    exists j :: 0 <= j < |InitStaff| && InitStaff[j].id == id && InitStaff[j].role == StaffRole.Delivery
  }

  /** The seeded staff are numbered S001 upwards in order, and every member has a password and a
      salary. */
  lemma InitStaffSeeded()
    ensures NumberedOldestFirst(InitStaff, StaffId, "S")
    ensures forall k :: 0 <= k < |InitStaff| ==> InitStaff[k].password.Some? && InitStaff[k].salary.Some?
  {
    forall k | 0 <= k < |InitStaff| ensures StaffId(InitStaff[k]) == FormatId("S", k + 1) {
      SmallId("S", k + 1);
    }
  }

  /** The seeded deliveries are numbered D001 upwards, each is assigned to seeded delivery staff,
      and a delivery carries a reason and a photo exactly when it was returned. */
  lemma InitDeliveriesSeeded()
    ensures NumberedOldestFirst(InitDeliveries, DeliveryId, "D")
    ensures forall k :: 0 <= k < |InitDeliveries| ==> DeliveryStaffId(InitDeliveries[k].assignedTo)
    ensures forall k :: 0 <= k < |InitDeliveries| ==>
      (InitDeliveries[k].reason.Some? && InitDeliveries[k].photo.Some? <==> InitDeliveries[k].status == Returned)
  {
    forall k | 0 <= k < |InitDeliveries| ensures DeliveryId(InitDeliveries[k]) == FormatId("D", k + 1) {
      SmallId("D", k + 1);
    }
    assert InitStaff[0].id == "S001" && InitStaff[4].id == "S005";
  }

  /** The seeded invoice is numbered I001, dated today, priced from the table and totalled. */
  function InitInvoices(today: string): (r: seq<Invoice>)
    ensures NumberedNewestFirst(r, InvoiceId, "I")
    ensures forall k :: 0 <= k < |r| ==> r[k].date == today && InvoiceConsistent(r[k])
  {
    SmallId("I", 1);
    assert [LineItem("cow-milk", 2, 50)][..0] == [];
    [Invoice("I001", "Walk-in", today, [LineItem("cow-milk", 2, 50)], 100, "S002")]
  }

  /** The seeded conversion is numbered C001, dated today, and turns a catalogue milk into a
      catalogue product. */
  function InitConversionLogs(today: string): (r: seq<ConversionLog>)
    ensures NumberedNewestFirst(r, LogId, "C")
    ensures forall k :: 0 <= k < |r| ==> r[k].date == today
    ensures forall k :: 0 <= k < |r| ==> r[k].fromProduct == ProductsList[0].name && r[k].toProduct == ProductsList[6].name
  {
    SmallId("C", 1);
    [ConversionLog("C001", today, "Cow Milk", 50, "Paneer", 10, "S003")]
  }

  const InitDeliveryRoutes: seq<DeliveryRoute> := [
    DeliveryRoute("R001", "South Delhi Route", "S001", "Green Park, Hauz Khas, Saket", None),
    DeliveryRoute("R002", "Gurgaon Route", "S005", "MG Road, Cyber City", None)
  ]

  /** The seeded routes are numbered R001 upwards and each is driven by seeded delivery staff. */
  lemma InitRoutesSeeded()
    ensures NumberedOldestFirst(InitDeliveryRoutes, RouteId, "R")
    ensures forall k :: 0 <= k < |InitDeliveryRoutes| ==> DeliveryStaffId(InitDeliveryRoutes[k].staffId)
  {
    forall k | 0 <= k < |InitDeliveryRoutes| ensures RouteId(InitDeliveryRoutes[k]) == FormatId("R", k + 1) {
      SmallId("R", k + 1);
    }
    assert InitStaff[0].id == "S001" && InitStaff[4].id == "S005";
  }

  /** The seeded payment is numbered SR001, dated today, and pays a seeded member exactly their
      recorded salary. */
  function InitSalaryRecords(today: string): (r: seq<SalaryRecord>)
    ensures NumberedNewestFirst(r, PaymentId, "SR")
    ensures forall k :: 0 <= k < |r| ==> r[k].paymentDate == today
    ensures forall k :: 0 <= k < |r| ==>
      exists j :: 0 <= j < |InitStaff| && InitStaff[j].id == r[k].staffId && InitStaff[j].salary == Some(r[k].amount)
  {
    SmallId("SR", 1);
    assert InitStaff[0].id == "S001";
    [SalaryRecord("SR001", "S001", 15000, today, "2024-07")]
  }
}
