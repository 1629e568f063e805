/** Client scenarios against a freshly seeded store, proved from the store's contracts: each states
    the outcome a caller of the data layer observes. */
module Scenarios {
  import opened Types
  import opened Catalogue
  import opened Ids
  import opened Ledger
  import opened Auth
  import opened Seed
  import opened MockApi

  /** Lookups in the seeded catalogue that the scenarios below rely on. */
  lemma SeedLookups(draws: seq<nat>)
    requires |draws| == |ProductsList|
    ensures ProductIndex(InitProducts(draws), "cow-milk") == 0
    ensures ProductNamed(InitProducts(draws), "Cow Milk") == 0
    ensures ProductNamed(InitProducts(draws), "Paneer") == 6
    ensures ProductNamed(InitProducts(draws), "Milk Cake") == -1
  {
    var ps := InitProducts(draws);
    assert ps[0].id == "cow-milk" && ps[0].name == "Cow Milk" && ps[6].name == "Paneer";
    assert forall j :: 0 <= j < |ps| ==> |ps[j].name| != |"Milk Cake"|;
    assert forall j :: 0 <= j < 6 ==> |ps[j].name| != |"Paneer"|;
  }

  /** The seeded staff credentials: S002 with its own password matches, with another it does not. */
  lemma StaffCredential()
    ensures CredentialIndex(InitStaff, "S002", "password2") == 1
    ensures CredentialIndex(InitStaff, "S002", "password1") == -1
  {
    assert InitStaff[0].id[3] == '1' && "S002"[3] == '2';
    assert InitStaff[1].password == Some("password2");
    assert "password2"[8] != "password1"[8];
    assert forall j :: 2 <= j < |InitStaff| ==> InitStaff[j].id[3] != "S002"[3];
  }

  /** No seeded staff record carries the admin id, whatever the password. */
  lemma NoAdminRecord(pass: string)
    ensures CredentialIndex(InitStaff, "admin", pass) == -1
  {
    assert forall j :: 0 <= j < |InitStaff| ==> InitStaff[j].id[0] == 'S' && "admin"[0] == 'a';
  }

  /** The ids the scenarios below expect. */
  lemma IdLiterals()
    ensures FormatId("I", 2) == "I002" && FormatId("C", 2) == "C002"
    ensures FormatId("S", 5) == "S005"
  {
    SmallId("I", 2);
    SmallId("C", 2);
    SmallId("S", 5);
  }

  /** Two litres of cow milk, whatever price the caller sent: priced at 50 from the table, 100 in
      all, and 2 off the stock of the first product when that is cow milk. */
  lemma WalkInSale(ps: seq<Product>, callerPrice: int)
    requires |ps| > 0 && ps[0].id == "cow-milk"
    ensures PriceItems([LineItem("cow-milk", 2, callerPrice)]) == [LineItem("cow-milk", 2, 50)]
    ensures ExpectedTotal([LineItem("cow-milk", 2, callerPrice)]) == 100
    ensures var r := DecrementStock(ps, [LineItem("cow-milk", 2, 50)]); |r| == |ps| && r[0].stock == ps[0].stock - 2
  {
    assert PriceOf("cow-milk") == 50;
  }

  /** Converting 50 of the first product into 10 of the seventh, when those are the ones the two
      names find, moves exactly those two stocks. */
  lemma MilkIntoPaneer(ps: seq<Product>)
    requires ProductNamed(ps, "Cow Milk") == 0 && ProductNamed(ps, "Paneer") == 6
    ensures var r := ConvertStock(ps, "Cow Milk", 50, "Paneer", 10);
      |r| == |ps| && r[0].stock == ps[0].stock - 50 && r[6].stock == ps[6].stock + 10 &&
      forall k :: 0 <= k < |ps| && k != 0 && k != 6 ==> r[k] == ps[k]
  {
    ConversionEffect(ps, "Cow Milk", 50, "Paneer", 10);
  }

  /** A first-run store, seen through the parts the scenarios below depend on. */
  method FirstRun(draws: seq<nat>, today: string) returns (store: Store)
    requires |draws| == |ProductsList|
    ensures fresh(store) && store.Valid()
    ensures store.products == InitProducts(draws) && store.staff == InitStaff
    ensures |store.invoices| == 1 && |store.conversionLogs| == 1
  {
    store := new Store(draws, [], today);
  }

  /** A first-run store, seen through its credentials only. */
  method FirstRunCredentials(draws: seq<nat>, today: string) returns (store: Store)
    requires |draws| == |ProductsList|
    ensures fresh(store)
    ensures store.staff == InitStaff
    ensures store.adminPassword == InitialAdminPassword && store.passwordResetToken == None
  {
    store := new Store(draws, [], today);
  }

  /** A walk-in customer buys 2 litres of cow milk: the invoice is I002 (I001 is seeded), it totals
      100 at 50 per litre, and cow-milk stock drops by 2. */
  method WalkInInvoice(draws: seq<nat>, today: string) returns (inv: Invoice, before: int, after: int)
    requires |draws| == |ProductsList|
    ensures inv.id == "I002" && inv.total == 100 && inv.items == [LineItem("cow-milk", 2, 50)]
    ensures after == before - 2
  {
    var store := FirstRun(draws, today);
    var ps := store.GetProducts();
    SeedLookups(draws);
    WalkInSale(ps, 0);
    IdLiterals();
    before := ps[0].stock;
    assert |store.invoices| + 1 == 2;
    inv := store.CreateInvoice(InvoiceDraft("Walk-in", [LineItem("cow-milk", 2, 0)], "S002"), today);
    assert inv.id == FormatId("I", 2);
    var now := store.GetProducts();
    after := now[0].stock;
  }

  /** A conversion between two catalogue names moves both stocks and is logged as C002. */
  method ConversionMoves(draws: seq<nat>, today: string) returns (log: ConversionLog, before: seq<Product>, after: seq<Product>)
    requires |draws| == |ProductsList|
    ensures log.id == "C002" && log.fromProduct == "Cow Milk" && log.toProduct == "Paneer"
    ensures |before| == |after| == |ProductsList|
    ensures after[0].stock == before[0].stock - 50 && after[6].stock == before[6].stock + 10
    ensures forall k :: 0 <= k < |after| && k != 0 && k != 6 ==> after[k] == before[k]
  {
    var store := FirstRun(draws, today);
    before := store.GetProducts();
    SeedLookups(draws);
    MilkIntoPaneer(before);
    IdLiterals();
    assert |store.conversionLogs| + 1 == 2;
    log := store.AddConversionLog(ConversionDraft("Cow Milk", 50, "Paneer", 10, "S003"), today);
    assert log.id == FormatId("C", 2);
    after := store.GetProducts();
  }

  /** A conversion into a product the catalogue lacks is still logged, but moves no stock, not even
      the milk it names as its source. */
  method ConversionUnknownName(draws: seq<nat>, today: string) returns (log: ConversionLog, before: seq<Product>, after: seq<Product>)
    requires |draws| == |ProductsList|
    ensures log.id == "C002" && log.toProduct == "Milk Cake"
    ensures after == before
  {
    var store := FirstRun(draws, today);
    before := store.GetProducts();
    SeedLookups(draws);
    ConversionEffect(before, "Cow Milk", 40, "Milk Cake", 8);
    IdLiterals();
    assert |store.conversionLogs| + 1 == 2;
    log := store.AddConversionLog(ConversionDraft("Cow Milk", 40, "Milk Cake", 8, "S003"), today);
    assert log.id == FormatId("C", 2);
    after := store.GetProducts();
  }

  /** Login: the admin id in any case with the admin password; a staff id with its own password;
      anything else gets no role. */
  method LoginRuns(draws: seq<nat>, today: string) returns (admin: LoginResult, member: LoginResult, wrong: LoginResult)
    requires |draws| == |ProductsList|
    ensures admin == AdminLogin
    ensures member.StaffLogin? && member.member.id == "S002" && member.member.name == "Sita Devi"
    ensures wrong == NoLogin
  {
    var store := FirstRunCredentials(draws, today);
    AdminIdAnyCase();
    StaffCredential();
    admin := store.Login("ADMIN", "admin123");
    member := store.Login("S002", "password2");
    wrong := store.Login("S002", "password1");
  }

  /** A reset token used at the last accepted instant installs the new password once; presented
      again it is invalid and the password stays as the first use left it. */
  method ResetTokenSingleUse(draws: seq<nat>, today: string, token: string, issued: int)
    returns (first: Reply, second: Reply, password: string)
    requires |draws| == |ProductsList|
    ensures first == Reply(true, PasswordResetMessage)
    ensures second == Reply(false, InvalidTokenMessage)
    ensures password == "fresh-secret"
  {
    var store := FirstRunCredentials(draws, today);
    AdminIdAnyCase();
    var granted := store.RequestAdminPasswordReset("Admin", token, issued);
    first := store.ResetAdminPassword(token, "fresh-secret", issued + TokenLifetime);
    second := store.ResetAdminPassword(token, "another", issued + TokenLifetime);
    password := store.adminPassword;
  }

  /** After a password change the new password logs the admin in and the old one no longer does. */
  method ChangedPasswordLogin(draws: seq<nat>, today: string)
    returns (changed: Reply, withNew: LoginResult, withOld: LoginResult)
    requires |draws| == |ProductsList|
    ensures changed == Reply(true, PasswordUpdatedMessage)
    ensures withNew == AdminLogin && withOld == NoLogin
  {
    var store := FirstRunCredentials(draws, today);
    changed := store.ChangeAdminPassword("admin123", "fresh-secret");
    AdminIdAnyCase();
    NoAdminRecord("admin123");
    assert "admin123"[0] != "fresh-secret"[0];
    withNew := store.Login("admin", "fresh-secret");
    withOld := store.Login("admin", "admin123");
  }

  /** A reset attempted after the five minutes fails as expired, then as invalid, and the admin
      password stays the old one. */
  method ResetTokenExpiry(draws: seq<nat>, today: string, token: string, issued: int, late: int)
    returns (first: Reply, second: Reply, login: LoginResult)
    requires |draws| == |ProductsList|
    requires late > issued + TokenLifetime
    ensures first == Reply(false, ExpiredTokenMessage)
    ensures second == Reply(false, InvalidTokenMessage)
    ensures login == AdminLogin
  {
    var store := FirstRunCredentials(draws, today);
    AdminIdAnyCase();
    var granted := store.RequestAdminPasswordReset("admin", token, issued);
    first := store.ResetAdminPassword(token, "fresh-secret", late);
    second := store.ResetAdminPassword(token, "fresh-secret", late);
    login := store.Login("admin", "admin123");
  }

  /** Deleting S002 from the seeded staff leaves the other four, in order. */
  lemma SeedStaffWithoutS002()
    ensures WithoutStaff(InitStaff, "S002") == [InitStaff[0], InitStaff[2], InitStaff[3], InitStaff[4]]
  {
    var s := InitStaff;
    var a, b, c, d, e := s[0], s[1], s[2], s[3], s[4];
    assert s == [a] + [b, c, d, e];
    assert [a] + [c, d, e] == [a, c, d, e];
    assert [d] + [e] == [d, e] && [c] + [d, e] == [c, d, e] && [b] + [c, d, e] == [b, c, d, e];
    assert a.id[3] != "S002"[3] && c.id[3] != "S002"[3];
    assert d.id[3] != "S002"[3] && e.id[3] != "S002"[3];
    WithoutStaffCons(e, [], "S002");
    assert WithoutStaff([], "S002") == [];
    assert WithoutStaff([e], "S002") == [e];
    WithoutStaffCons(d, [e], "S002");
    assert WithoutStaff([d, e], "S002") == [d, e];
    WithoutStaffCons(c, [d, e], "S002");
    assert WithoutStaff([c, d, e], "S002") == [c, d, e];
    WithoutStaffCons(b, [c, d, e], "S002");
    assert WithoutStaff([b, c, d, e], "S002") == [c, d, e];
    WithoutStaffCons(a, [b, c, d, e], "S002");
    assert WithoutStaff(s, "S002") == [a] + [c, d, e];
  }

  /** Ids come from the current length: after deleting S002 from the five seeded staff, the next
      member is numbered S005 again, beside the seeded S005. */
  method StaffIdCollision(draws: seq<nat>, today: string) returns (added: Staff, all: seq<Staff>)
    requires |draws| == |ProductsList|
    ensures added.id == "S005"
    ensures |all| == 5 && all[4] == added
    ensures all[3].id == added.id && all[3].name == "Arjun Reddy"
  {
    var store := FirstRun(draws, today);
    var deleted := store.DeleteStaff("S002");
    SeedStaffWithoutS002();
    assert |store.staff| == 4 && store.staff[3] == InitStaff[4];
    IdLiterals();
    added := store.AddStaff(StaffDraft("Kavita Rao", Manager, Some("password6"), None));
    all := store.GetStaff();
  }
}
