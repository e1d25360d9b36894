/**
 * The analytics endpoint (`UnifiedAnalyticsView`, store/views.py lines 118-194): a type
 * discriminator and an identifier select one of three read-only reports over the bills and
 * their items, or an error record.
 *
 * Each list of a report is a `filter` of the joined records, a `values` projection onto a
 * grouping key, a `Sum`/`Count` annotation and a descending `order_by`. A list is a sequence
 * of groups: `key` is the grouped column (`product__name`, `hour`, `created_by__email`,
 * `customer__email`), `total` is `total_quantity` and `count` is `frequency` or `instances`;
 * the source returns only the annotations its query names.
 */
module Views {
  import opened Wrappers
  import opened Records
  import opened Aggregation

  /** A bill item joined with its product, bill, the bill's customer and the bill's creator. */
  datatype Sale = Sale(productId: ProductId, productName: string, quantity: nat, customerEmail: Option<string>, cashierEmail: string)

  /** A bill joined with its customer and creator. */
  datatype Visit = Visit(customerEmail: Option<string>, cashierEmail: string, hour: Hour)

  /** `customer__email`: the linked customer's current email, not the bill's snapshot. */
  function LinkedEmail(db: Db, b: Bill): Option<string>
    requires b.customer.Some? ==> b.customer.value < |db.customers|
  {
    if b.customer.Some? then Some(db.customers[b.customer.value].email) else None
  }

  function Sales(db: Db): seq<Sale>
    requires LinksValid(db)
  {
    seq(|db.items|, i requires 0 <= i < |db.items| =>
      var item := db.items[i];
      var bill := db.bills[item.bill];
      Sale(item.product, db.products[item.product].name, item.quantity, LinkedEmail(db, bill), bill.createdBy.email))
  }

  function Visits(db: Db): seq<Visit>
    requires LinksValid(db)
  {
    seq(|db.bills|, b requires 0 <= b < |db.bills| =>
      Visit(LinkedEmail(db, db.bills[b]), db.bills[b].createdBy.email, db.bills[b].createdAt))
  }

  /** `.filter(...)`: the records that satisfy the condition, in order. */
  function Filter<T>(s: seq<T>, keep: T -> bool): seq<T>
  {
    if s == [] then []
    else Filter(s[..|s| - 1], keep) + (if keep(s[|s| - 1]) then [s[|s| - 1]] else [])
  }

  /** `.values(...)`: each record's grouping key and the quantity `Sum` adds up. */
  function Project<T, K>(s: seq<T>, key: T -> K, amount: T -> nat): seq<Row<K>>
  {
    seq(|s|, i requires 0 <= i < |s| => Row(key(s[i]), amount(s[i])))
  }

  // The rows of each query.

  /** The amount `Sum('quantity')` adds for an item. */
  function SaleQuantity(s: Sale): nat
  {
    s.quantity
  }

  /** The sum of the items' quantities. */
  function Quantity(sales: seq<Sale>): nat
  {
    if sales == [] then 0 else Quantity(sales[..|sales| - 1]) + sales[|sales| - 1].quantity
  }

  function BoughtRows(db: Db, email: string): seq<Row<string>>
    requires LinksValid(db)
  {
    Project(Filter(Sales(db), (s: Sale) => s.customerEmail == Some(email)), (s: Sale) => s.productName, SaleQuantity)
  }

  /** The customer's bills; each counts once. */
  function CustomerVisits(db: Db, email: string): seq<Visit>
    requires LinksValid(db)
  {
    Filter(Visits(db), (v: Visit) => v.customerEmail == Some(email))
  }

  function TimingRows(db: Db, email: string): seq<Row<Hour>>
    requires LinksValid(db)
  {
    Project(CustomerVisits(db, email), (v: Visit) => v.hour, (v: Visit) => 1)
  }

  function ServedByRows(db: Db, email: string): seq<Row<string>>
    requires LinksValid(db)
  {
    Project(CustomerVisits(db, email), (v: Visit) => v.cashierEmail, (v: Visit) => 1)
  }

  function SoldRows(db: Db, email: string): seq<Row<string>>
    requires LinksValid(db)
  {
    Project(Filter(Sales(db), (s: Sale) => s.cashierEmail == email), (s: Sale) => s.productName, SaleQuantity)
  }

  /** The cashier's bills; each counts once. */
  function CashierVisits(db: Db, email: string): seq<Visit>
    requires LinksValid(db)
  {
    Filter(Visits(db), (v: Visit) => v.cashierEmail == email)
  }

  function ServedRows(db: Db, email: string): seq<Row<Option<string>>>
    requires LinksValid(db)
  {
    Project(CashierVisits(db, email), (v: Visit) => v.customerEmail, (v: Visit) => 1)
  }

  /** How the product identifier selects items: by product name or by product id. */
  datatype ProductFilter = ByName(name: string) | ById(id: int)

  predicate Selects(f: ProductFilter, s: Sale)
  {
    match f
    case ByName(name) => s.productName == name
    case ById(id) => s.productId == id
  }

  function ProductSales(db: Db, f: ProductFilter): seq<Sale>
    requires LinksValid(db)
  {
    Filter(Sales(db), (s: Sale) => Selects(f, s))
  }

  function BuyerRows(db: Db, f: ProductFilter): seq<Row<Option<string>>>
    requires LinksValid(db)
  {
    Project(ProductSales(db, f), (s: Sale) => s.customerEmail, SaleQuantity)
  }

  function SellerRows(db: Db, f: ProductFilter): seq<Row<string>>
    requires LinksValid(db)
  {
    Project(ProductSales(db, f), (s: Sale) => s.cashierEmail, SaleQuantity)
  }

  // The reports.

  datatype CustomerReport = CustomerReport(
    productsBought: seq<Group<string>>, frequentedTimings: seq<Group<Hour>>, cashiers: seq<Group<string>>)

  datatype CashierReport = CashierReport(productsSold: seq<Group<string>>, customers: seq<Group<Option<string>>>)

  datatype ProductReport = ProductReport(customers: seq<Group<Option<string>>>, cashiers: seq<Group<string>>)

  datatype Report = OfCustomer(customerReport: CustomerReport) | OfCashier(cashierReport: CashierReport) | OfProduct(productReport: ProductReport)

  function CustomerAnalytics(db: Db, email: string): (r: CustomerReport)
    requires LinksValid(db)
    ensures SortedBy(r.productsBought, ByTotalThenCount)
    ensures SortedBy(r.frequentedTimings, ByCount) && CountOf(r.frequentedTimings) == |CustomerVisits(db, email)|
    ensures SortedBy(r.cashiers, ByCount) && CountOf(r.cashiers) == |CustomerVisits(db, email)|
  {
    CustomerReport(
      Aggregate(BoughtRows(db, email), ByTotalThenCount),
      Aggregate(TimingRows(db, email), ByCount),
      Aggregate(ServedByRows(db, email), ByCount))
  }

  function CashierAnalytics(db: Db, email: string): (r: CashierReport)
    requires LinksValid(db)
    ensures SortedBy(r.productsSold, ByTotal)
    ensures SortedBy(r.customers, ByCount) && CountOf(r.customers) == |CashierVisits(db, email)|
  {
    CashierReport(Aggregate(SoldRows(db, email), ByTotal), Aggregate(ServedRows(db, email), ByCount))
  }

  function ProductAnalytics(db: Db, f: ProductFilter): (r: ProductReport)
    requires LinksValid(db)
    ensures SortedBy(r.customers, ByTotal) && SortedBy(r.cashiers, ByTotal)
    ensures TotalOf(r.customers) == TotalOf(r.cashiers) == Quantity(ProductSales(db, f))
  {
    ProjectedQuantity(ProductSales(db, f), (s: Sale) => s.customerEmail);
    ProjectedQuantity(ProductSales(db, f), (s: Sale) => s.cashierEmail);
    ProductReport(Aggregate(BuyerRows(db, f), ByTotal), Aggregate(SellerRows(db, f), ByTotal))
  }

  // Request handling.

  /** The 400 responses, and the uncaught error of an identifier that is neither alphabetic nor an integer. */
  datatype AnalyticsError =
    | InvalidType
    | CustomerEmailRequired
    | CashierEmailRequired
    | ProductIdentifierRequired
    | NotAnInteger(identifier: string)

  /**
   * The error texts. The `NotAnInteger` text approximates Django's, which shows the identifier
   * with `%r`: Python's repr switches to double quotes when the identifier holds a `'` and
   * escapes backslashes and control characters, while this text always uses single quotes.
   */
  function Message(e: AnalyticsError): string
  {
    match e
    case InvalidType => "Invalid analytics type"
    case CustomerEmailRequired => "Customer email is required for customer analytics"
    case CashierEmailRequired => "Cashier email is required for cashier analytics"
    case ProductIdentifierRequired => "Product identifier is required for product analytics"
    case NotAnInteger(identifier) => "Field 'id' expected a number but got '" + identifier + "'."
  }

  /** The identifier is present and non-empty (`if not identifier` fails otherwise). */
  predicate Given(identifier: Option<string>)
  {
    identifier.Some? && identifier.value != ""
  }

  predicate IsLetter(c: char)
  {
    'a' <= c <= 'z' || 'A' <= c <= 'Z'
  }

  predicate IsDigit(c: char)
  {
    '0' <= c <= '9'
  }

  /** `str.isalpha()`: non-empty and made of letters. */
  predicate IsAlpha(s: string)
  {
    |s| > 0 && forall i :: 0 <= i < |s| ==> IsLetter(s[i])
  }

  predicate IsDigits(s: string)
  {
    |s| > 0 && forall i :: 0 <= i < |s| ==> IsDigit(s[i])
  }

  /** A decimal integer with an optional sign, the form an integer column accepts. */
  predicate IsInteger(s: string)
  {
    IsDigits(s) || (|s| > 1 && (s[0] == '+' || s[0] == '-') && IsDigits(s[1..]))
  }

  function DigitsValue(s: string): nat
    requires IsDigits(s) || s == []
  {
    if s == [] then 0
    else DigitsValue(s[..|s| - 1]) * 10 + (s[|s| - 1] as int - '0' as int)
  }

  function IntegerValue(s: string): int
    requires IsInteger(s)
  {
    if IsDigits(s) then DigitsValue(s)
    else if s[0] == '-' then -(DigitsValue(s[1..]) as int)
    else DigitsValue(s[1..])
  }

  /** A purely alphabetic identifier is a product name; any other is a product id. */
  function FilterFor(identifier: string): (r: Result<ProductFilter, AnalyticsError>)
    ensures r.Failure? <==> !IsAlpha(identifier) && !IsInteger(identifier)
    ensures r.Failure? ==> r.error == NotAnInteger(identifier)
    ensures r.Success? && r.value.ByName? ==> IsAlpha(identifier) && r.value.name == identifier
    ensures r.Success? && r.value.ById? ==> !IsAlpha(identifier) && IsInteger(identifier) && r.value.id == IntegerValue(identifier)
  {
    if IsAlpha(identifier) then Success(ByName(identifier))
    else if IsInteger(identifier) then Success(ById(IntegerValue(identifier)))
    else Failure(NotAnInteger(identifier))
  }

  /** `UnifiedAnalyticsView.get`. */
  function Analytics(db: Db, analyticsType: Option<string>, identifier: Option<string>): (r: Result<Report, AnalyticsError>)
    requires LinksValid(db)
    ensures r == Failure(InvalidType) <==> analyticsType !in {Some("customer"), Some("cashier"), Some("product")}
    ensures r.Success? ==> Given(identifier)
    ensures r.Success? ==>
      && (r.value.OfCustomer? <==> analyticsType == Some("customer"))
      && (r.value.OfCashier? <==> analyticsType == Some("cashier"))
      && (r.value.OfProduct? <==> analyticsType == Some("product"))
    ensures analyticsType == Some("customer") && Given(identifier) ==>
      r == Success(OfCustomer(CustomerAnalytics(db, identifier.value)))
    ensures analyticsType == Some("cashier") && Given(identifier) ==>
      r == Success(OfCashier(CashierAnalytics(db, identifier.value)))
    ensures analyticsType == Some("product") && Given(identifier) ==>
      match FilterFor(identifier.value)
      case Failure(e) => r == Failure(e)
      case Success(f) => r == Success(OfProduct(ProductAnalytics(db, f)))
  {
    if analyticsType == Some("customer") then
      if !Given(identifier) then Failure(CustomerEmailRequired)
      else Success(OfCustomer(CustomerAnalytics(db, identifier.value)))
    else if analyticsType == Some("cashier") then
      if !Given(identifier) then Failure(CashierEmailRequired)
      else Success(OfCashier(CashierAnalytics(db, identifier.value)))
    else if analyticsType == Some("product") then
      if !Given(identifier) then Failure(ProductIdentifierRequired)
      else
        match FilterFor(identifier.value)
        case Failure(e) => Failure(e)
        case Success(f) => Success(OfProduct(ProductAnalytics(db, f)))
    else Failure(InvalidType)
  }

  // Properties of the reports.

  /**
   * `products_bought`: each product name appears once, exactly the names among the customer's
   * items appear, each carries the Sum of the quantities and the Count of the customer's items
   * with that name, and the list is sorted by total quantity, then frequency, descending.
   */
  lemma ProductsBoughtCorrect(db: Db, email: string)
    requires LinksValid(db)
    ensures var r := CustomerAnalytics(db, email).productsBought;
      var rows := BoughtRows(db, email);
      && (forall i, j :: 0 <= i < j < |r| ==> r[i].key != r[j].key)
      && GroupKeys(r) == KeysOf(rows)
      && (forall i :: 0 <= i < |r| ==> r[i].total == SumFor(rows, r[i].key) && r[i].count == CountFor(rows, r[i].key))
      && (forall i, j :: 0 <= i < j < |r| ==>
            r[i].total > r[j].total || (r[i].total == r[j].total && r[i].count >= r[j].count))
  {
    AggregateCorrect(BoughtRows(db, email), ByTotalThenCount);
  }

  /**
   * `frequented_timings`: one entry per hour in which the customer has a bill, and no other, each counting the customer's bills created in
   * that hour; the counts add up to the number of the customer's bills; sorted by frequency descending.
   */
  lemma FrequentedTimingsCorrect(db: Db, email: string)
    requires LinksValid(db)
    ensures var r := CustomerAnalytics(db, email).frequentedTimings;
      var rows := TimingRows(db, email);
      && (forall i, j :: 0 <= i < j < |r| ==> r[i].key != r[j].key)
      && GroupKeys(r) == KeysOf(rows)
      && (forall i :: 0 <= i < |r| ==> r[i].count == CountFor(rows, r[i].key))
      && CountOf(r) == |CustomerVisits(db, email)|
      && (forall i, j :: 0 <= i < j < |r| ==> r[i].count >= r[j].count)
  {
    AggregateCorrect(TimingRows(db, email), ByCount);
  }

  /** `cashiers` of a customer: bills per creator's email, exactly the creators of the customer's bills, adding up to the customer's bills, sorted by instances descending. */
  lemma CustomerCashiersCorrect(db: Db, email: string)
    requires LinksValid(db)
    ensures var r := CustomerAnalytics(db, email).cashiers;
      var rows := ServedByRows(db, email);
      && (forall i, j :: 0 <= i < j < |r| ==> r[i].key != r[j].key)
      && GroupKeys(r) == KeysOf(rows)
      && (forall i :: 0 <= i < |r| ==> r[i].count == CountFor(rows, r[i].key))
      && CountOf(r) == |CustomerVisits(db, email)|
      && (forall i, j :: 0 <= i < j < |r| ==> r[i].count >= r[j].count)
  {
    AggregateCorrect(ServedByRows(db, email), ByCount);
  }

  /** `products_sold`: each name once with the Sum of the cashier's items' quantities for it, sorted by total quantity descending. */
  lemma ProductsSoldCorrect(db: Db, email: string)
    requires LinksValid(db)
    ensures var r := CashierAnalytics(db, email).productsSold;
      var rows := SoldRows(db, email);
      && (forall i, j :: 0 <= i < j < |r| ==> r[i].key != r[j].key)
      && GroupKeys(r) == KeysOf(rows)
      && (forall i :: 0 <= i < |r| ==> r[i].total == SumFor(rows, r[i].key))
      && (forall i, j :: 0 <= i < j < |r| ==> r[i].total >= r[j].total)
  {
    AggregateCorrect(SoldRows(db, email), ByTotal);
  }

  /** `customers` of a cashier: bills per customer email (none for unlinked bills), exactly the emails on the cashier's bills, adding up to the cashier's bills, sorted by instances descending. */
  lemma CashierCustomersCorrect(db: Db, email: string)
    requires LinksValid(db)
    ensures var r := CashierAnalytics(db, email).customers;
      var rows := ServedRows(db, email);
      && (forall i, j :: 0 <= i < j < |r| ==> r[i].key != r[j].key)
      && GroupKeys(r) == KeysOf(rows)
      && (forall i :: 0 <= i < |r| ==> r[i].count == CountFor(rows, r[i].key))
      && CountOf(r) == |CashierVisits(db, email)|
      && (forall i, j :: 0 <= i < j < |r| ==> r[i].count >= r[j].count)
  {
    AggregateCorrect(ServedRows(db, email), ByCount);
  }

  lemma {:induction false} ProjectedQuantity<K>(sales: seq<Sale>, key: Sale -> K)
    ensures SumAll(Project(sales, key, SaleQuantity)) == Quantity(sales)
  {
    if sales != [] {
      var init := sales[..|sales| - 1];
      assert Project(sales, key, SaleQuantity)[..|sales| - 1] == Project(init, key, SaleQuantity);
      ProjectedQuantity(init, key);
    }
  }

  /**
   * Product analytics: the per-customer and the per-cashier total quantities each add up to
   * the total quantity of the product's matching items, and both lists are sorted by total
   * quantity descending with one entry per key present among the matching items, a buyer or
   * cashier whose items all have quantity 0 included.
   */
  lemma ProductTotalsConserved(db: Db, f: ProductFilter)
    requires LinksValid(db)
    ensures var r := ProductAnalytics(db, f);
      && TotalOf(r.customers) == Quantity(ProductSales(db, f))
      && TotalOf(r.cashiers) == Quantity(ProductSales(db, f))
      && GroupKeys(r.customers) == KeysOf(BuyerRows(db, f))
      && GroupKeys(r.cashiers) == KeysOf(SellerRows(db, f))
      && (forall i :: 0 <= i < |r.customers| ==> r.customers[i].total == SumFor(BuyerRows(db, f), r.customers[i].key))
      && (forall i :: 0 <= i < |r.cashiers| ==> r.cashiers[i].total == SumFor(SellerRows(db, f), r.cashiers[i].key))
      && (forall i, j :: 0 <= i < j < |r.customers| ==> r.customers[i].key != r.customers[j].key && r.customers[i].total >= r.customers[j].total)
      && (forall i, j :: 0 <= i < j < |r.cashiers| ==> r.cashiers[i].key != r.cashiers[j].key && r.cashiers[i].total >= r.cashiers[j].total)
  {
    AggregateCorrect(BuyerRows(db, f), ByTotal);
    AggregateCorrect(SellerRows(db, f), ByTotal);
    ProjectedQuantity(ProductSales(db, f), (s: Sale) => s.customerEmail);
    ProjectedQuantity(ProductSales(db, f), (s: Sale) => s.cashierEmail);
  }

  /**
   * An unknown type is rejected before the identifier is looked at and before any query runs:
   * the answer is "Invalid analytics type" whatever the identifier and the tables.
   */
  lemma InvalidTypeRejected(db1: Db, db2: Db, analyticsType: Option<string>, id1: Option<string>, id2: Option<string>)
    requires LinksValid(db1) && LinksValid(db2)
    requires analyticsType !in {Some("customer"), Some("cashier"), Some("product")}
    ensures Analytics(db1, analyticsType, id1) == Analytics(db2, analyticsType, id2)
    ensures Message(Analytics(db1, analyticsType, id1).error) == "Invalid analytics type"
  {
  }

  /**
   * An empty or missing identifier gets the type's "... is required ..." error, the same
   * whatever the tables hold: no query runs.
   */
  lemma MissingIdentifierRunsNoQuery(db1: Db, db2: Db, analyticsType: Option<string>, identifier: Option<string>)
    requires LinksValid(db1) && LinksValid(db2) && !Given(identifier)
    requires analyticsType in {Some("customer"), Some("cashier"), Some("product")}
    ensures Analytics(db1, analyticsType, identifier) == Analytics(db2, analyticsType, identifier)
    ensures Analytics(db1, analyticsType, identifier).Failure?
    ensures analyticsType == Some("customer") ==>
      Message(Analytics(db1, analyticsType, identifier).error) == "Customer email is required for customer analytics"
    ensures analyticsType == Some("cashier") ==>
      Message(Analytics(db1, analyticsType, identifier).error) == "Cashier email is required for cashier analytics"
    ensures analyticsType == Some("product") ==>
      Message(Analytics(db1, analyticsType, identifier).error) == "Product identifier is required for product analytics"
  {
  }

  /** A purely alphabetic identifier filters by product name; an integer one by product id. */
  lemma ProductIdentifierChoice(db: Db, identifier: string)
    requires LinksValid(db) && identifier != ""
    ensures IsAlpha(identifier) ==>
      Analytics(db, Some("product"), Some(identifier)) == Success(OfProduct(ProductAnalytics(db, ByName(identifier))))
    ensures !IsAlpha(identifier) && IsInteger(identifier) ==>
      Analytics(db, Some("product"), Some(identifier)) == Success(OfProduct(ProductAnalytics(db, ById(IntegerValue(identifier)))))
    ensures !IsAlpha(identifier) && !IsInteger(identifier) ==>
      Analytics(db, Some("product"), Some(identifier)) == Failure(NotAnInteger(identifier))
  {
  }
}
