# Point-of-sale store core, modelled in Dafny

This project models the core of a small point-of-sale backend: products, customers, bills and
bill items. The model covers four things:

- **Bill creation.** One all-or-nothing transaction does the following, in order:
  - resolves an optional customer by email, creating the customer or (with consent) updating
    their details;
  - snapshots that customer's fields onto the bill and stamps the creating cashier;
  - creates the bill's items in request order.
- **Saving an item.** The first save of a bill item does three things: the line price becomes
  unit price times quantity, the product's stock drops by the quantity, and the bill's total
  grows by the line price.
- **Customer email changes.** Saving an existing customer whose email changed rewrites the
  email snapshot on every bill linked to that customer.
- **Analytics.** A read-only endpoint returns per-customer, per-cashier and per-product
  reports. Each report list is grouped, summed or counted, and sorted in descending order.

Modules:

- `Wrappers` — `Option` and `Result`.
- `Records` — the four tables as a `Db` value. A primary key is a row's position in its table
  and money is whole cents. The module also holds the consistency rules the rest of the model
  preserves:
  - every foreign key resolves;
  - customer emails are unique;
  - every bill's `totalAmount` equals the sum of its items' prices.
- `Signals` — the bulk update of bill email snapshots, as a loop over an array of bill rows.
- `Models` — the side effects of saving instances:
  - the `Store` class holds the tables as fields that its methods update;
  - the `CustomerRecord` class is an in-memory customer that remembers the email it was last
    saved with.
- `Serializers` — `BillSerializer.create`:
  - the `setattr` loop, customer resolution and the item loop are methods on the store;
  - each method is proved against a specification function (`Resolve`, `AfterLines`,
    `AfterCreate`);
  - lemmas about those functions state what the transaction promises.
- `Aggregation` — the `values` / `annotate(Sum, Count)` / `order_by('-…')` pipeline. Grouping
  is a fold and the ordering is an insertion sort. Both are proved against reference
  definitions of Sum and Count per key.
- `Views` — the analytics endpoint as functions over `Db`, with one lemma per report list.

Where the code's evident intent and its literal behaviour differ, the model follows the intent
and keeps the literal version beside it:

- **Change detection is on the customer.** `__init__`/`save` at store/models.py:33-41 sit
  inside `Bill` but call `super(Customer, self)` and read `self.email`. The model gives this
  logic to the customer instance (`Models.CustomerRecord`). The propagation runs once, inside
  the save and before the row is written, when the save changes the email of a stored customer.
- **The signal's guard is replaced by the remembered email.** The signal at
  store/signals.py:7 tests `hasattr(instance, '_old_email')`, and nothing ever sets that
  attribute on a `Customer`. The model drives the propagation from the remembered email that
  `CustomerRecord` keeps.
- **The prefixed detail keys name real columns.** The customer details are keyed
  `temp_customer_name`, … (store/serializers.py:36), and these are not customer columns. The
  model maps each key to the column it names. The source hands the keys to two places:
  - `get_or_create(defaults=…)` at line 45. For an email no customer has, Django rejects the
    unknown field names with a `FieldError`, which aborts the whole creation. The model creates
    the customer instead.
  - `setattr` at line 50, which stores nothing. See Findings.
- **A new customer's missing details are "".** The details dictionary always holds all four
  keys, with `None` for a detail the request lacks. Even with the keys mapped,
  `get_or_create` would receive `name=None`. Storing "" for a missing detail is a modelling
  choice.
- **Each item is inserted once.** `BillItem.objects.create` (store/serializers.py:61) saves
  with `force_insert=True`, and `BillItem.save` forwards it to both of its `super().save` calls
  (store/models.py:58 and 62). The second call repeats the INSERT under the key the first one
  assigned, so the primary key rejects it with an `IntegrityError` and the sale is rolled back.
  The model inserts each item once (`Models.AfterItemSave`). See Findings.
- **The bill total is updated.** The second `if not self.pk` (store/models.py:65) runs after
  line 58 has assigned a key, so the literal code never adds the line price to the bill total.
  The model adds it, as the comment at line 64 says. See Findings.
- **Stock is decremented from the current row.** Each item line carries its own `Product`
  instance, loaded when the request is validated. `BillItem.save` writes back that instance's
  stock minus the line's quantity (store/models.py:60-61). When one product appears on two
  lines, the last write wins and the earlier decrements are lost. The model decrements the
  current stock, so the quantities add up (`Serializers.AfterLinesEffect`,
  `Serializers.CreateAdjustsStock`). `Serializers.AfterLinesStale` keeps the literal stock writes and
  is otherwise the intended loop, bill total update included.
  See Findings.

## Model

| member | source | states |
|---|---|---|
| Signals.Propagated | store/signals.py:8 | the bulk update keeps the number of bills, and every bill's customer link, creator and total |
| Signals.UpdateRelatedBills | store/signals.py:5-8 | the in-place pass over the bill rows leaves them equal to `Propagated`: each row linked to the customer gets the new email and every other row is unchanged |
| Signals.LinkedBillsGetEmail | store/signals.py:8 | after the bulk update, every bill linked to the customer carries the customer's new email |
| Signals.OnlyEmailSnapshotChanges | store/signals.py:8 | the bulk update keeps the number of bills and changes only `customer_email`, and only on bills linked to that customer |
| Signals.PropagationIdempotent | store/signals.py:8 | running the bulk update a second time changes nothing |
| Models.AfterItemSave | store/models.py:55-67 | an item save keeps the customers and the sizes of the product and bill tables; it adds one item on a first save and none on a re-save; it never changes a product's price; it hands back a keyed instance whose bill, product and quantity are as given, so only the price may change |
| Models.FirstSavePricesLine | store/models.py:55-58 | a first save stores exactly one new item, at the end of the table; its price is the product's unit price times the quantity and its other fields are as given; the saved instance gets that row's key |
| Models.FirstSaveDecrementsStock | store/models.py:59-61 | a first save lowers the product's stock by exactly the quantity, with no lower bound; nothing else about that product or any other product changes |
| Models.FirstSaveGrowsTotal | store/models.py:64-67 | a first save grows the item's bill total by exactly the line price; other bills and all customers are untouched |
| Models.ResaveChangesNothing | store/models.py:55-67 | saving an item that already has a key neither recomputes the price, nor touches stock or total, nor writes any row |
| Models.ItemSaveKeepsConsistent | store/models.py:55-67 | an item save keeps every foreign key valid, emails unique and every bill's total equal to the sum of its items' prices |
| Models.AsWrittenTotalDrifts | store/models.py:65-67 | on a one-product, one-bill store, the literal save leaves the bill total at 0 while its item costs 500 cents; the intended save keeps the totals equal |
| Models.AfterItemSaveAsWritten | store/models.py:55-67 | the literal item save prices and inserts a new line and keeps the customers, but leaves every bill, its total included, as it was |
| Models.CreateItemAsWritten | store/models.py:55-62 | creating an item as written always fails: the second forced INSERT repeats the key the first one assigned, whatever the tables and the item |
| Models.Store.SaveItem | store/models.py:55-67 | the store method leaves the tables and the returned instance as `AfterItemSave` says, and keeps the store consistent |
| Models.AfterCustomerSave | store/models.py:37-41 | a customer save stores the fields under the returned key: the existing key, or the next key for a new customer; no other customer, product or item changes; the number of bills stays the same |
| Models.PropagationOnlyOnEmailChange | store/models.py:37-41 | bills change only when an existing customer is saved with an email different from the remembered one; then every linked bill carries the new email; items and products are untouched |
| Models.CustomerSaveKeepsConsistent | store/models.py:37-41 | a customer save whose email no other customer has keeps the tables consistent and stores the fields under the returned key |
| Models.Store.UpdateRelatedBills | store/signals.py:8 | the store's bill table becomes `Propagated` of the old one; no other table changes |
| Models.Store.WriteCustomer | store/models.py:40 | a new customer is appended under the next key; an existing one is overwritten in place under its own key |
| Models.Store.InsertBill | store/serializers.py:59 | the bill row is appended under the next key; no other table changes |
| Models.Store.Rollback | store/serializers.py:39 | leaving the transaction on failure restores the tables saved at its start |
| Models.CustomerRecord.constructor | store/models.py:33-35 | a new instance remembers the email it was built with |
| Models.WithField | store/serializers.py:50 | `setattr` on a column sets that column and leaves every other column unchanged; on any other name, no column changes |
| Models.CustomerRecord.SetAttr | store/serializers.py:50 | setting a column changes that column only; any other name changes no column; the key and the remembered email are kept |
| Models.CustomerRecord.Save | store/models.py:37-41 | a save propagates the email to the customer's bills only if it changed since the last save, writes the row, gives a new customer its key, then remembers the saved email; the store stays consistent |
| Serializers.Merged | store/serializers.py:46-50 | a column that no filled detail names keeps its value through the consented update |
| Serializers.MergedPerField | store/serializers.py:46-50 | with consent, each filled detail overwrites its column and an empty or absent one keeps the old value |
| Serializers.AsWrittenMergeChangesNothing | store/serializers.py:48-50 | with the literal prefixed keys, the consented update changes no column, whatever details are supplied |
| Serializers.MergedAsWritten | store/serializers.py:48-50 | the literal `setattr` loop changes only attributes a filled detail key names, and changes nothing when no key is a customer column |
| Serializers.ApplyDetails | store/serializers.py:48-50 | the `setattr` loop over the details leaves the instance's fields as `Merged` says; the key and the remembered email are kept |
| Serializers.FindByEmail | store/serializers.py:45 | the lookup returns a customer whose email matches; it returns none exactly when no customer has that email |
| Serializers.NewCustomer | store/serializers.py:45 | a customer created for a new email carries that email and the supplied name, address and phone, "" where a detail is missing |
| Serializers.Resolve | store/serializers.py:41-52 | customer resolution keeps the tables consistent; it adds at most one customer; it changes no product or item and keeps the number of bills; with a filled email it links a customer that has that email |
| Serializers.ResolveOutcome | store/serializers.py:41-51 | with no filled email, nothing is looked up and the request's own link is kept; an unknown email creates exactly one customer from the details; a known email links that customer, unchanged without consent and merged per field with consent |
| Serializers.ResolveLinks | store/serializers.py:41-57 | resolution keeps the tables consistent and yields a valid link (always one when an email is given); products, items and the number of bills are unchanged |
| Serializers.ResolveCustomer | store/serializers.py:41-52 | on the store, find-or-create and the consented update leave the tables and the link as `Resolve` says, and keep the store consistent |
| Serializers.Header | store/serializers.py:32-59 | the new bill's creator is the requesting user, its total starts at 0, and it links the resolved customer, which is the request's writable `customer` when no email is filled; the creator and the total cannot be supplied by the caller |
| Serializers.AfterLines | store/serializers.py:60-61 | a successful item loop adds one item per line; it keeps the customers and the sizes of the product and bill tables; a failure names a product id that does not exist |
| Serializers.AfterLinesFailsIffUnknown | store/serializers.py:60-61 | the item loop fails exactly when some line names a product that does not exist |
| Serializers.AfterLinesEffect | store/serializers.py:60-61 | a successful item loop does all of the following and nothing else: appends one item per line, in order, priced at unit price times quantity; lowers each product's stock by the total quantity requested of it; grows the bill total by the sum of the line prices |
| Serializers.StaleStockLosesUpdate | store/models.py:60-61 | with stock 10 and lines of 2 and 3 units of one product, the stale stock writes leave 7 in stock and the intended one leaves 5 |
| Serializers.AfterLinesStale | store/models.py:60-61 | the item loop with the literal stale stock writes (and the intended total update) succeeds exactly when every line names a known product, adding one item per line and keeping the customers; a failure names an unknown product |
| Serializers.StaleAgreesWithoutRepeats | store/models.py:60-61 | when no product appears on two lines, the stale stock writes give exactly the intended tables |
| Serializers.AfterLinesKeepsConsistent | store/serializers.py:60-61 | the item loop keeps every bill's total equal to the sum of its items' prices |
| Serializers.AddLines | store/serializers.py:60-61 | the store's item loop ends in the tables `AfterLines` gives; on an unknown product it rolls back to the transaction's start and reports that product |
| Serializers.AfterCreate | store/serializers.py:34-63 | a committed creation adds exactly one bill, under the next key, and one item per line; a failure names either the request's `customer` id that names no customer or a product id that names no product |
| Serializers.CreateUnfolds | store/serializers.py:34-63 | a committed creation consists of the resolved tables plus the new bill header with its items, stock changes and total, and the result is consistent |
| Serializers.CreateFailsOnlyOnUnknownReference | store/serializers.py:31-61 | creation fails exactly when a line names an unknown product or the request's `customer` names an unknown customer, whether or not an email is given |
| Serializers.CreateRecordsBill | store/serializers.py:32-61 | a committed bill is appended after the untouched existing bills; its creator is the requesting user, never a supplied value; it has one item per line, in order; its total is the sum of its items' prices, never a supplied value |
| Serializers.CreateAdjustsStock | store/serializers.py:60-61 | each product's stock drops by the total quantity the request sells of it; its name, price and description stay the same |
| Serializers.CreateWithoutEmail | store/serializers.py:44 | without a filled email, no customer is created or changed and the bill keeps the request's link and snapshot fields |
| Serializers.CreateWithNewEmail | store/serializers.py:44-45 | an email no customer has creates exactly one customer carrying the supplied details, and the bill links to it |
| Serializers.CreateWithKnownEmail | store/serializers.py:45-52 | a known email links the bill to that customer; without consent the customer is unchanged; with consent each filled detail overwrites its column |
| Serializers.CreateSnapshotsCustomer | store/serializers.py:52-57 | when a customer is resolved, the bill's name, email, address and phone equal that customer's fields after any update, and the email is the one supplied |
| Serializers.Create | store/serializers.py:34-63 | the store method commits exactly the tables `AfterCreate` gives and returns the new bill's key; on failure it reports the error and leaves the store as it was; the store stays consistent |
| Aggregation.GroupRows | store/views.py:136-137 | grouping yields groups with distinct keys, no more groups than rows |
| Aggregation.GroupRowsCorrect | store/views.py:136-137 | grouping the rows gives one group per distinct key, each with that key's Sum and Count; the Sums and Counts add up to the rows' totals |
| Aggregation.Sort | store/views.py:138 | the sort returns the same groups, a permutation of its input |
| Aggregation.SortCorrect | store/views.py:138 | the descending sort returns a permutation of the groups, in order |
| Aggregation.Aggregate | store/views.py:135-138 | the pipeline's result is sorted descending; its Sums add up to the rows' amounts and its Counts to the number of rows |
| Aggregation.AggregateCorrect | store/views.py:135-138 | the whole pipeline is sorted descending with one group per distinct key; exactly the rows' keys appear; each group has its key's Sum and Count; the Sums and Counts add up to the rows' totals |
| Views.CustomerAnalytics | store/views.py:131-155 | each of the three lists is sorted as its `order_by` says; the frequencies and the instances each add up to the customer's bills |
| Views.CashierAnalytics | store/views.py:157-174 | both lists are sorted as their `order_by` says; the instances add up to the cashier's bills |
| Views.ProductAnalytics | store/views.py:176-195 | both lists are sorted by total quantity descending; their totals are equal and are the product's quantity sold |
| Views.ProductsBoughtCorrect | store/views.py:135-138 | `products_bought` names each product once, exactly the products among the customer's items; each has the Sum of quantities and the Count of items; it is sorted by total quantity, then frequency, descending |
| Views.FrequentedTimingsCorrect | store/views.py:140-144 | `frequented_timings` lists exactly the hours of the customer's bills, each once with the number of the customer's bills in it; the counts add up to the customer's bills; it is sorted by frequency descending |
| Views.CustomerCashiersCorrect | store/views.py:146-149 | `cashiers` lists exactly the creator emails of the customer's bills, each once, and counts the customer's bills per creator email; the counts add up to the customer's bills; it is sorted by instances descending |
| Views.ProductsSoldCorrect | store/views.py:161-164 | `products_sold` names each product once, exactly the products among the cashier's items, each with the Sum of quantities; it is sorted by total quantity descending |
| Views.CashierCustomersCorrect | store/views.py:166-169 | `customers` of a cashier lists exactly the customer emails on the cashier's bills, each once, and counts the cashier's bills per customer email, with unlinked bills under none; the counts add up to the cashier's bills; it is sorted by instances descending |
| Views.ProductTotalsConserved | store/views.py:182-190 | for a product, the per-customer and per-cashier totals each add up to the product's total quantity sold; each list has one entry for exactly each buyer or cashier among the matching items, zero-quantity ones included, and is sorted by total quantity descending |
| Views.Analytics | store/views.py:118-194 | "Invalid analytics type" is returned exactly when the type is not one of the three; a report needs a non-empty identifier and is of the requested type; with an identifier, the customer and cashier reports are computed for that email, and the product report for the filter the identifier selects, or its error is returned |
| Views.FilterFor | store/views.py:180 | an identifier fails exactly when it is neither alphabetic nor an integer; a name filter comes only from an alphabetic identifier, and an id filter from a non-alphabetic integer, with that integer's value |
| Views.InvalidTypeRejected | store/views.py:118-129 | an unknown type gets "Invalid analytics type" whatever the identifier and the tables, so no query runs for it |
| Views.MissingIdentifierRunsNoQuery | store/views.py:131-178 | a missing or empty identifier yields that type's "… is required …" error, whatever the tables hold |
| Views.ProductIdentifierChoice | store/views.py:180 | an alphabetic identifier filters by product name; otherwise an integer filters by product id, and anything else fails as a non-number id |

## Left out

- Request validation by the serializer fields is not modelled: email format, maximum lengths and
  positive quantities. A request reaches `Create` already validated, so quantities are `nat`.
  The `customer` and `product` fields reject ids that name no row before `create` runs.
  The model rejects them as a failed transaction that changes nothing.
- The item shape is not modelled as written. `BillItemSerializer` (store/serializers.py:16-19)
  makes `bill` and `price` required on every item. The `bill` key then collides with `bill=bill`
  in `BillItem.objects.create` at line 61, so the literal `create` fails with a `TypeError` for
  any request with items. The model takes each line as a product and a quantity. The first save
  recomputes the price. Even without that collision, the duplicate INSERT listed under Findings
  would fail the creation.
- Models.CustomerRecord.Save: a save whose email another customer already has is excluded
  (`EmailFree`). The unique email column rejects it, and resolution never attempts it.
- The database's check constraint on `PositiveIntegerField` is not modelled. The stock decrement
  is unconditional and stock may go negative, as the sale path is written. A backend that
  enforces the constraint would make such a sale fail and roll back.
- `DecimalField` digit limits are not modelled. Money is unbounded whole cents and prices are
  exact.
- `transaction.atomic` is modelled as all-or-nothing over the table value. Isolation levels,
  concurrent sales and database failures other than an unknown reference are not modelled.
- The signal's registration with `@receiver` is not modelled. The propagation is called inside
  the customer save, before the row is written, when the email of a stored customer changed
  (store/models.py:38-40).
- The creation timestamp and its time zone are not modelled. A bill stores only the hour of
  creation (0-23), which is the only part the core reads. The clock is a parameter of `Create`.
- The authenticated user comes from the request context and is a parameter of `Create`.
- Aggregation.SortCorrect: the order among groups with equal sort fields is left unstated,
  because the database leaves it unspecified. The model sorts stably.
- Views.ProductIdentifierChoice: `str.isalpha()` is modelled for ASCII letters only. `int()`'s
  extra accepted forms are not modelled either: surrounding whitespace, underscores between
  digits, and non-ASCII digits.
- Views.FilterFor: only ASCII letters count for `str.isalpha()`, and only an optional sign
  followed by ASCII digits counts as an integer. Python's `int()` also accepts surrounding
  whitespace, underscores between digits and non-ASCII digits, so an identifier such as " 5"
  fails here with the integer error, while the source filters on product id 5.
- Views.ProductsSoldCorrect: the groups also carry a count that the source does not return.
  The same holds for the total of the count-only lists. The lemmas state only the fields the
  source returns.
- The generic create/read/update/delete views, URL routing, the OpenAPI schema decorator, the
  admin registration, the migration and the test fixtures are not part of this model.

## Findings

| source | as written | input that shows it | evidently intended | confidence | as-written member | corrected member |
|---|---|---|---|---|---|---|
| store/models.py:65-67 | the total update is guarded by a second `if not self.pk`, evaluated after the first save (line 58) has assigned a key, so the bill total never changes | a bill with total 0 and one new item of 2 units of a 250-cent product: the item is priced 500 and the bill total stays 0 | add the line price to the bill total on the item's first save, as the comment at line 64 says | not executed | Models.AsWrittenTotalDrifts | Models.ItemSaveKeepsConsistent |
| store/models.py:60-61 | each line's save writes back the stock its own `Product` instance held at validation, minus its quantity, so with a product on two lines the last write wins | stock 10 and two lines of 2 and 3 units of that product: the stale stock writes leave 7 | each line lowers the current stock by its quantity, leaving 5 | not executed | Serializers.StaleStockLosesUpdate | Serializers.AfterLinesEffect |
| store/models.py:58-62 | `objects.create` passes `force_insert=True` and the save forwards it to both `super().save` calls, so the second call repeats the INSERT under the key the first one assigned | any new item, e.g. 2 units of a 250-cent product on an empty item table: the first INSERT takes key 0 and the second INSERT of key 0 fails with an `IntegrityError` | insert the row once, then write the stock | not executed | Models.CreateItemAsWritten | Models.FirstSavePricesLine |
| store/serializers.py:48-50 | the consented update calls `setattr(customer, 'temp_customer_name', …)` and the like, which sets attributes that are not columns, so `customer.save()` stores nothing new | a known customer "Ann" with consent and a detail name "Anne": the saved name stays "Ann" | each filled detail overwrites the customer column it names | not executed | Serializers.AsWrittenMergeChangesNothing | Serializers.MergedPerField |
