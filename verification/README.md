# Dairy back-office data layer in Dafny

This project models the in-memory data layer behind the dairy shop's staff and admin panels,
`services/mockApi.ts`. That file holds eight module-level collections: products, staff,
deliveries, daily records, invoices, conversion logs, delivery routes and salary records. It also
holds the admin password and one pending password-reset token. Every exported API call reads or
rewrites this state.

The model is a Dafny class `MockApi.Store` with one field per module-level variable and one
method per API call. Each method is proved against value-level specification functions. The
properties of those functions are proved as lemmas. The modules are:

- `Types`: the records of `types.ts`, plus the "draft" records that callers pass in.
- `Catalogue`: the fixed catalogue (`constants.tsx`) and the unit-price table. A missing id is priced 0.
- `Seed`: the first-run contents of every collection.
- `Ids`: ids of the form `String(n).padStart(3, '0')`. Covers parsing them back, and the
  numbering invariants of collections that only ever grow at one end.
- `Arrays`: the JavaScript `findIndex`/`find` (first match) and `filter`.
- `Ledger`: invoice pricing and totals, and the stock moved by invoices and by conversions.
- `Auth`: the admin credential and the reset token, as a value and three transitions on it.
- `MockApi`: the searches over the collections, and the `Store` class.
- `Scenarios`: client scenarios on a first-run store, proved from the store's contracts, such
  as a walk-in sale, a conversion, a token that expires, or a staff id that repeats.

Time (`Date.now()`), the reset token (`Math.random()`), today's date string and the random
seed stock are parameters. The store invariant `Valid()` covers the invoice, conversion-log and
salary ids: they count down from the newest record without gaps. Route ids count up. Every
invoice is priced from the table and carries the sum of its lines. Staff ids are not invariant,
because after a delete the next id can repeat an existing one (`Scenarios.StaffIdCollision`).

Three behaviours of the code that a reader might not expect:

- The reset token is `Math.random().toString(36).substring(2, 8)`, upper-cased. That substring
  can be shorter than six characters, even empty, when the random number has few base-36
  digits. So the model accepts any token string.
- `updateDelivery` replaces the first delivery with a matching id by whatever record it is given,
  in any state and from any caller. `MockApi.Store.UpdateDelivery` models that.
- The staff panel's conversion form refuses quantities that are not positive
  (`components/StaffPanel.tsx:258`), but `addConversionLog` itself accepts any quantity. Called
  directly with a negative quantity, it moves stock the other way.

On a first run, `initDeliveries` reads the persisted staff list before anything has been saved.
It sees an empty list, so it assigns the literal fallbacks `S001` and `S005`. `Seed.InitDeliveries`
holds exactly those.

## Model

| member | source | states |
|---|---|---|
| Catalogue.PriceOf | services/mockApi.ts:78-81 | an id in the table gets its positive table price; any other id gets 0 (the `\|\| 0` fallback) |
| Catalogue.CataloguePriced | constants.tsx:7-19 | every catalogue product has a positive table price, so the fallback only applies to ids outside the catalogue |
| Seed.InitStaffSeeded | services/mockApi.ts:34-42 | the five seeded staff are numbered S001 to S005 in order, and each has a password and a salary |
| Seed.InitDeliveriesSeeded | services/mockApi.ts:44-53 | the seeded deliveries are numbered D001 to D004 in order, each is assigned to a seeded delivery-role staff member, and exactly the returned one carries a reason and a photo |
| Seed.InitInvoices | services/mockApi.ts:83-87 | the seeded invoice is I001, dated today, priced from the table and totalled |
| Seed.InitConversionLogs | services/mockApi.ts:89-93 | the seeded log is C001, dated today, from the first catalogue milk into paneer |
| Seed.InitRoutesSeeded | services/mockApi.ts:95-100 | the seeded routes are numbered R001 and R002 in order, each run by a seeded delivery-role staff member |
| Seed.InitSalaryRecords | services/mockApi.ts:102-106 | the seeded payment is SR001, dated today, and pays a seeded staff member exactly their salary |
| Catalogue.CatalogueIdsDistinct | constants.tsx:7-19 | no two catalogue products share an id |
| Catalogue.CatalogueNamesDistinct | constants.tsx:7-19 | no two catalogue products share a name, so a lookup by name is unambiguous |
| Catalogue.PriceTableKeys | services/mockApi.ts:78-81 | the price table has an entry for exactly the catalogue ids |
| Seed.InitProducts | services/mockApi.ts:27-32 | one product per catalogue entry, in catalogue order, with the same id, name, unit and kind; with in-range draws the stock lies in [20, 520) for litres and [20, 120) otherwise |
| Ids.Decimal | services/mockApi.ts:203 | `String(n)`: at least one character, all digits, and more than one exactly when n ≥ 10 |
| Ids.PadStart | services/mockApi.ts:203 | `padStart(width, fill)`: the input when it is long enough, otherwise exactly `width` long with `fill` in every added leading place |
| Ids.PadStartSuffix | services/mockApi.ts:203 | padding only adds characters in front: the result ends with the input |
| Ids.Pad3 | services/mockApi.ts:203 | a padded number is all digits and at least three characters long |
| Ids.FormatId | services/mockApi.ts:203 | an id starts with its prefix and has at least three more characters |
| Ids.ParseId | services/mockApi.ts:203 | reading an id back: a parse succeeds only on an id that starts with the prefix and is longer than it, and an id parsed at the standard width gives a number below 1000 that formats back to the same id |
| Ids.ThreeDigitsCanonical | services/mockApi.ts:203 | any three digits read as a number below 1000 whose padding gives the same three digits |
| Ids.DecimalRoundTrip | services/mockApi.ts:203 | the decimal rendering of n is all digits and reads back as n |
| Ids.Pad3Value | services/mockApi.ts:203 | zero-padding to three places keeps the numeric value |
| Ids.Pad3Width | services/mockApi.ts:203 | a padded number has at least three characters, exactly three iff it is below 1000 |
| Ids.Pad3Examples | services/mockApi.ts:203 | 1 → "001", 42 → "042", and 1234 is not truncated |
| Ids.FormatIdRoundTrip | services/mockApi.ts:203 | parsing `prefix + pad(n)` gives back n |
| Ids.FormatIdInjective | services/mockApi.ts:203 | two ids with the same prefix are equal iff their numbers are equal |
| Ids.NewestFirstDistinct | services/mockApi.ts:226 | in a collection numbered newest-first, ids are pairwise distinct and the next id is not yet taken |
| Ids.NewestFirstPrepend | services/mockApi.ts:226 | prepending the record numbered length + 1 keeps the collection numbered newest-first |
| Ids.OldestFirstDistinct | services/mockApi.ts:334-336 | in a collection numbered oldest-first, ids are pairwise distinct and the next id is not yet taken |
| Ids.OldestFirstAppend | services/mockApi.ts:334-336 | appending the record numbered length + 1 keeps the collection numbered oldest-first |
| Arrays.FindIndex | services/mockApi.ts:192 | the result is the first index satisfying the predicate, and it is -1 iff no element does |
| Arrays.Filter | services/mockApi.ts:286 | exactly the satisfying elements are kept; nothing is dropped iff all satisfy, and then the result is the input |
| Arrays.FilterConcat | services/mockApi.ts:286 | filtering keeps order: filtering a concatenation concatenates the filtered parts |
| Arrays.FilterMultiset | services/mockApi.ts:286 | each satisfying element is kept as often as it occurs, and every other element is dropped |
| Ledger.ProductIndex | services/mockApi.ts:220 | the first product with the id, or -1 iff none has it |
| Ledger.ProductNamed | services/mockApi.ts:315-316 | the first product with the name, or -1 iff none has it |
| Ledger.LookupsIgnoreStock | services/mockApi.ts:218-224 | changing stock never changes which product a lookup by id or by name finds |
| Ledger.PriceItems | services/mockApi.ts:204-207 | pricing keeps the number of lines and every line's product and quantity, and sets its price from the table, 0 for an unknown id |
| Ledger.PricingIgnoresCallerPrices | services/mockApi.ts:204-207 | drafts that agree on products and quantities get identical priced lines, whatever prices the caller sent |
| Ledger.Total | services/mockApi.ts:208 | no lines total 0, and lines with no negative quantity or price never total below 0 |
| Ledger.TotalCons | services/mockApi.ts:208 | the left-fold total of a list is its first line's amount plus the total of the rest |
| Ledger.InvoiceTotalIsSum | services/mockApi.ts:208 | the `reduce` total of the priced lines equals the sum of quantity × table price |
| Ledger.NewInvoiceConsistent | services/mockApi.ts:201-216 | a new invoice is priced from the table and its total is the sum of its lines |
| Ledger.ApplySale | services/mockApi.ts:220-223 | one line never changes the number of products |
| Ledger.DecrementStock | services/mockApi.ts:219-224 | the whole stock loop never changes the number of products |
| Ledger.DecrementKeepsProducts | services/mockApi.ts:219-224 | an invoice changes stock only: ids, names, units and kinds stay |
| Ledger.SaleEffect | services/mockApi.ts:219-224 | the first product with an id loses the total quantity of all lines naming that id, even below zero; later duplicates and unnamed products are unchanged |
| Ledger.UnknownIdNoEffect | services/mockApi.ts:220-221 | a line whose id matches no product moves no stock |
| Ledger.StockTotalUpdate | services/mockApi.ts:222 | replacing one product changes the stock sum by the difference of the two stocks |
| Ledger.SaleStockTotal | services/mockApi.ts:220-223 | one line lowers total stock by its quantity when its product is found, and by 0 otherwise |
| Ledger.InvoiceStockConservation | services/mockApi.ts:219-224 | an invoice lowers total stock by exactly the quantity ordered of existing products |
| Ledger.ConvertStock | services/mockApi.ts:315-320 | a conversion changes only stock: the same products, with the same ids, names, units and kinds, in the same order |
| Ledger.ConversionEffect | services/mockApi.ts:315-320 | all or nothing: if both names resolve, only those products move (one product named on both sides nets toQty - fromQty); otherwise nothing moves |
| Ledger.ConversionStockConservation | services/mockApi.ts:315-320 | a resolved conversion changes total stock by toQty - fromQty, and an unresolved one by 0 |
| Ledger.StockCanGoNegative | services/mockApi.ts:222 | selling 3 of a product holding 1 leaves -2: there is no floor |
| Ledger.RepeatedIdCumulative | services/mockApi.ts:219-224 | two lines for one product subtract both quantities |
| Ledger.UnknownIdPricedZero | services/mockApi.ts:206 | a line for an unknown id is priced 0 and adds nothing to the total |
| Auth.ToLower | services/mockApi.ts:140 | lower-casing keeps the length and lowers each ASCII capital |
| Auth.IsAdminId | services/mockApi.ts:140 | an id is the admin id iff it has five characters that lower-case, one by one, to "admin" |
| Auth.AdminIdAnyCase | services/mockApi.ts:162 | "admin", "ADMIN", "Admin" and "aDmIn" are the admin id; "admin ", "adm", "S001" and "" are not |
| Auth.AdminIdIgnoresCase | services/mockApi.ts:162 | ids that differ only in letter case are both the admin id or both not |
| Auth.ChangePassword | services/mockApi.ts:150-158 | succeeds iff the old password matches, then installs the new one; the token is never touched; both messages are given |
| Auth.RequestReset | services/mockApi.ts:160-168 | succeeds iff the id is the admin id in any case, then replaces any earlier token with one expiring 300000 ms later and returns it; otherwise nothing changes |
| Auth.ResetPassword | services/mockApi.ts:170-183 | succeeds iff a token is pending, matches, and now ≤ expiry; success installs the password and drops the token; a failure never changes the password |
| Auth.ResetOutcomes | services/mockApi.ts:170-183 | each of the three outcomes (invalid, expired, reset), with its exact message and new state |
| Auth.TokenSingleUse | services/mockApi.ts:172-181 | once a token has reset the password, presenting it again is refused as invalid and changes nothing |
| Auth.ResetWindow | services/mockApi.ts:160-183 | a token issued at t resets the password iff it is used no later than t + 300000; the expiry instant itself is accepted |
| Auth.ExpiredThenInvalid | services/mockApi.ts:175-177 | a late token is reported expired once and dropped, then reported invalid; the password stays |
| Auth.LaterRequestSupersedes | services/mockApi.ts:166 | after a second request, the first token no longer works |
| MockApi.CredentialIndex | services/mockApi.ts:143 | the first staff record whose id and password both match, or -1 iff none does |
| MockApi.StaffIndex | services/mockApi.ts:274 | the first staff record with the id, or -1 iff none has it |
| MockApi.DeliveryIndex | services/mockApi.ts:192 | the first delivery with the id, or -1 iff none has it |
| MockApi.WithoutStaff | services/mockApi.ts:286 | exactly the records with other ids remain; the list shrinks iff some record had the id |
| MockApi.DeliveriesOf | services/mockApi.ts:187 | exactly the deliveries assigned to the staff member |
| MockApi.PrependNumbered | services/mockApi.ts:226 | a record numbered after a newest-first collection keeps it numbered once put first, and no earlier record has its id |
| MockApi.PrependInvoice | services/mockApi.ts:201-229 | a table-priced, totalled invoice numbered next keeps the invoices numbered newest first, each priced and totalled, with the new id unused before |
| MockApi.StatusCount | services/mockApi.ts:236-238 | the number of deliveries in one state: 0 iff none is in it, all of them iff every one is |
| MockApi.StatusCountsAddUp | services/mockApi.ts:236-238 | every delivery is in exactly one state, so the three counts add up to the number of deliveries |
| MockApi.Stats | services/mockApi.ts:236-238 | the dashboard statistics are the three per-status counts, and they add up to the number of deliveries |
| MockApi.Store.constructor | services/mockApi.ts:109-120 | every collection holds its first-run seed, the password is "admin123", no token is pending, and the invariant holds |
| MockApi.Store.Login | services/mockApi.ts:138-148 | the admin check comes first; otherwise the first staff record matching id and password; otherwise nobody; each case is an iff; nothing changes |
| MockApi.Store.ChangeAdminPassword | services/mockApi.ts:150-158 | follows `Auth.ChangePassword` on the credential and changes nothing else |
| MockApi.Store.RequestAdminPasswordReset | services/mockApi.ts:160-168 | follows `Auth.RequestReset` and changes only the token |
| MockApi.Store.ResetAdminPassword | services/mockApi.ts:170-183 | follows `Auth.ResetPassword` and changes only the credential and the token |
| MockApi.Store.GetDeliveriesByStaff | services/mockApi.ts:185-188 | exactly the deliveries assigned to the staff member |
| MockApi.Store.UpdateDelivery | services/mockApi.ts:190-199 | succeeds iff a delivery has the id, then replaces the first such delivery; otherwise "Delivery not found" and nothing changes |
| MockApi.Store.SellStock | services/mockApi.ts:218-224 | the stock loop leaves the products equal to `DecrementStock` of the old products over the lines |
| MockApi.Store.CreateInvoice | services/mockApi.ts:201-229 | the invoice gets the next id (not held by any earlier invoice), table prices and the sum total; it is put first; stock moves as `DecrementStock`; the invariant is kept |
| MockApi.Store.MoveStock | services/mockApi.ts:314-320 | the products become `ConvertStock` of the old products |
| MockApi.Store.AddConversionLog | services/mockApi.ts:309-325 | the log gets the next id and is put first, even when no product moves; stock moves as `ConvertStock`; the invariant is kept |
| MockApi.Store.GetDashboardData | services/mockApi.ts:234-240 | the daily records, and per-status delivery counts that add up to the number of deliveries |
| MockApi.Store.GetProducts | services/mockApi.ts:242-245 | the current products |
| MockApi.Store.UpdateProduct | services/mockApi.ts:247-256 | succeeds iff a product has the id, then replaces the first such product; otherwise "Product not found" and nothing changes |
| MockApi.Store.GetStaff | services/mockApi.ts:258-261 | the current staff |
| MockApi.Store.AddStaff | services/mockApi.ts:263-270 | the member gets id `S` + pad(length + 1) and is appended |
| MockApi.Store.UpdateStaffSalary | services/mockApi.ts:272-281 | succeeds iff a member has the id, then sets the salary of the first such member only; otherwise "Staff not found" and nothing changes |
| MockApi.Store.DeleteStaff | services/mockApi.ts:283-292 | every record with the id is removed; success iff one existed; otherwise "Staff not found" |
| MockApi.Store.GetDeliveries | services/mockApi.ts:294-297 | the current deliveries |
| MockApi.Store.GetInvoices | services/mockApi.ts:299-302 | the current invoices; under the store invariant they are numbered newest first, their ids are distinct, and each is priced from the table and totalled |
| MockApi.Store.GetConversionLogs | services/mockApi.ts:304-307 | the current conversion logs; under the store invariant they are numbered newest first with distinct ids |
| MockApi.Store.GetDeliveryRoutes | services/mockApi.ts:327-330 | the current routes; under the store invariant they are numbered oldest first with distinct ids |
| MockApi.Store.CreateDeliveryRoute | services/mockApi.ts:332-339 | the route gets the next id, not held by any earlier route, and is appended; the invariant is kept |
| MockApi.Store.GetSalaryRecords | services/mockApi.ts:341-344 | the current salary records; under the store invariant they are numbered newest first with distinct ids |
| MockApi.Store.PaySalary | services/mockApi.ts:346-357 | the payment gets the next `SR` id, not held by any earlier payment, and is put first; the invariant is kept |
| Scenarios.SeedLookups | constants.tsx:7-19 | in the seeded products, cow milk is found first by id and by name, paneer is seventh, and "Milk Cake" is absent |
| Scenarios.StaffCredential | services/mockApi.ts:34-42 | S002 with "password2" is the second record; with "password1" nobody matches |
| Scenarios.NoAdminRecord | services/mockApi.ts:34-42 | no seeded staff record has the id "admin" |
| Scenarios.IdLiterals | services/mockApi.ts:203 | the second invoice is "I002", the second log is "C002", and the fifth staff id is "S005" |
| Scenarios.WalkInSale | services/mockApi.ts:204-224 | two litres of cow milk are priced 50 each and total 100, whatever price the caller sent, and take 2 off cow-milk stock |
| Scenarios.MilkIntoPaneer | services/mockApi.ts:315-320 | converting 50 cow milk into 10 paneer moves exactly those two stocks |
| Scenarios.WalkInInvoice | services/mockApi.ts:201-229 | on a first-run store a walk-in sale becomes invoice I002, totals 100, and lowers cow-milk stock by 2 |
| Scenarios.ConversionMoves | services/mockApi.ts:309-325 | on a first-run store the conversion is logged as C002 and only cow milk (-50) and paneer (+10) move |
| Scenarios.ConversionUnknownName | services/mockApi.ts:315-320 | a conversion into an unknown product is still logged as C002 but moves no stock, not even its source |
| Scenarios.LoginRuns | services/mockApi.ts:138-148 | "ADMIN"/"admin123" logs in as admin, S002 with its own password as Sita Devi, and a wrong password as nobody |
| Scenarios.ResetTokenSingleUse | services/mockApi.ts:170-183 | a token used at the expiry instant resets the password; used again it is invalid and the password stays |
| Scenarios.ChangedPasswordLogin | services/mockApi.ts:150-158 | after a change the new password logs the admin in and the old one does not |
| Scenarios.ResetTokenExpiry | services/mockApi.ts:175-177 | a late token is first "expired", then "invalid", and the old password still logs in |
| Scenarios.SeedStaffWithoutS002 | services/mockApi.ts:286 | deleting S002 from the seeded staff leaves the other four in order |
| Scenarios.StaffIdCollision | services/mockApi.ts:263-292 | after deleting S002 the next member is numbered S005, beside the seeded S005 |

## Left out

- Persistence (`localDB`, `localStorage`, `saveData`) is not modelled. The store starts from the first-run seed. Data persisted by an earlier session is not modelled, and neither are read or write failures.
- `simulateDelay` and the promises are not modelled. Every call runs to completion atomically, so interleaved calls are not modelled.
- `initDailyRecords` is not modelled. It draws 366 random records dated from the clock, so the records are a constructor parameter, and the dashboard returns them unchanged.
- `Math.random()`, `Date.now()` and `new Date().toISOString()` are not modelled. They become parameters: the seed stock draws, the reset token, the current time in milliseconds, and today's date string.
- Numbers are unbounded integers. Fractional quantities, prices and salaries, and floating-point rounding, are not modelled.
- Object aliasing is not modelled: the model works on values. The source updates product and staff objects in place, `updateProduct`/`updateDelivery` store the caller's own object, and the getters return shallow copies that share records with the store.
- Catalogue.PriceOf: does not model a product id that names an inherited property of a JavaScript object (for example `constructor`). In the source, `productPrices[id] || 0` would not give 0 for such an id.
- Auth.ToLower: lowers ASCII capitals only. Non-ASCII letters whose JavaScript lower case is ASCII are not modelled.
- `ConversionLog.fromProduct` is typed in `types.ts` as one of the two milks. The model accepts any name, because the check the code does is the lookup by name.
- The UI components (`App.tsx`, `components/`) are not modelled. `constants.tsx` is modelled only for the product catalogue; the icons and role list are not modelled.
