/**
 * Bill creation (`BillSerializer.create`, store/serializers.py lines 34-63): resolve an
 * optional customer by email, snapshot its fields onto the bill, stamp the creator, then
 * create the bill's items in request order, all inside one transaction.
 *
 * The transaction is modelled as all-or-nothing over the tables: on success the new tables,
 * on failure (an unknown product or customer id) the tables exactly as they were.
 *
 * Deliberate divergence: the source keys the customer details as `temp_customer_name`,
 * `temp_customer_email`, ... and passes those keys straight to `get_or_create` and `setattr`,
 * which are not customer columns. This model maps each prefixed key to the column it names
 * (`FieldOf`); `MergedAsWritten` keeps the literal behaviour for comparison.
 */
module Serializers {
  import opened Wrappers
  import opened Records
  import opened Models

  /** One requested line: a product id and a quantity. Any supplied price is recomputed on save. */
  datatype LineRequest = LineRequest(product: ProductId, quantity: nat)

  /**
   * The validated request. `created_by` and `total_amount` are read-only fields, so a caller
   * cannot supply them; the plain snapshot fields and the customer link are writable.
   */
  datatype BillRequest = BillRequest(
    customer: Option<CustomerId>,
    customerName: string,
    customerEmail: string,
    customerAddress: string,
    customerPhone: string,
    items: seq<LineRequest>,
    tempName: Option<string>,
    tempEmail: Option<string>,
    tempAddress: Option<string>,
    tempPhone: Option<string>,
    updateConsent: bool)

  datatype CreateError = UnknownProduct(product: ProductId) | UnknownCustomer(customer: CustomerId)

  /** Python truthiness of an optional string: present and non-empty. */
  predicate Filled(value: Option<string>)
  {
    value.Some? && value.value != ""
  }

  function OrEmpty(value: Option<string>): string
  {
    if value.Some? then value.value else ""
  }

  /** The supplied value when it is filled, the current one otherwise. */
  function Pick(value: Option<string>, current: string): string
  {
    if Filled(value) then value.value else current
  }

  /** The temporary customer details, in the order the request's keys are popped. */
  function TempDetails(req: BillRequest): seq<(string, Option<string>)>
  {
    [("temp_customer_name", req.tempName), ("temp_customer_email", req.tempEmail),
     ("temp_customer_address", req.tempAddress), ("temp_customer_phone", req.tempPhone)]
  }

  const Prefix: string := "temp_customer_"

  /** The customer column a detail key stands for: the key without its `temp_customer_` prefix. */
  function FieldOf(key: string): string
  {
    if Prefix <= key then key[|Prefix|..] else key
  }

  /** The customer after the consented update: each filled detail overwrites the column it names. */
  function Merged(c: Customer, details: seq<(string, Option<string>)>): (r: Customer)
    ensures forall f ::
      (forall i :: 0 <= i < |details| && Filled(details[i].1) ==> FieldOf(details[i].0) != f) ==>
        Column(r, f) == Column(c, f)
  {
    if details == [] then c
    else
      var (key, value) := details[|details| - 1];
      var prior := Merged(c, details[..|details| - 1]);
      if Filled(value) then WithField(prior, FieldOf(key), value.value) else prior
  }

  /** The consented update as written: `setattr` with the prefixed key itself. */
  function MergedAsWritten(c: Customer, details: seq<(string, Option<string>)>): (r: Customer)
    ensures forall f ::
      (forall i :: 0 <= i < |details| && Filled(details[i].1) ==> details[i].0 != f) ==>
        Column(r, f) == Column(c, f)
    ensures (forall i :: 0 <= i < |details| ==> Column(c, details[i].0).None?) ==> r == c
  {
    if details == [] then c
    else
      var (key, value) := details[|details| - 1];
      var prior := MergedAsWritten(c, details[..|details| - 1]);
      if Filled(value) then WithField(prior, key, value.value) else prior
  }

  /**
   * With consent, each filled detail overwrites its field and an empty or absent one keeps
   * the old value.
   */
  lemma MergedPerField(c: Customer, req: BillRequest)
    ensures Merged(c, TempDetails(req)) ==
      Customer(Pick(req.tempName, c.name), Pick(req.tempAddress, c.address),
               Pick(req.tempEmail, c.email), Pick(req.tempPhone, c.phone))
  {
    var d := TempDetails(req);
    assert d[..3] == [d[0], d[1], d[2]] && d[..3][..2] == [d[0], d[1]];
    assert d[..3][..2][..1] == [d[0]] && d[..3][..2][..1][..0] == [];
    assert FieldOf(d[0].0) == "name" && FieldOf(d[1].0) == "email";
    assert FieldOf(d[2].0) == "address" && FieldOf(d[3].0) == "phone";
    assert d[..1] == [d[0]] && d[..1][..0] == [];
    assert Merged(c, d[..1][..0]) == c;
    assert WithField(c, FieldOf(d[0].0), OrEmpty(req.tempName)) == c.(name := OrEmpty(req.tempName));
    var m1 := Merged(c, d[..1]);
    assert m1 == c.(name := Pick(req.tempName, c.name));
    var m2 := Merged(c, d[..2]);
    assert d[..2][..1] == d[..1];
    assert m2 == m1.(email := Pick(req.tempEmail, c.email));
    var m3 := Merged(c, d[..3]);
    assert d[..3][..2] == d[..2];
    assert m3 == m2.(address := Pick(req.tempAddress, c.address));
  }

  /** As written, the consented update changes no column, whatever the details are. */
  lemma AsWrittenMergeChangesNothing(c: Customer, req: BillRequest)
    ensures MergedAsWritten(c, TempDetails(req)) == c
  {
    var d := TempDetails(req);
    assert d[..3] == [d[0], d[1], d[2]] && d[..3][..2] == [d[0], d[1]];
    assert d[..3][..2][..1] == [d[0]] && d[..3][..2][..1][..0] == [];
    assert d[..1] == [d[0]] && d[..1][..0] == [];
    assert d[..2][..1] == d[..1] && d[..3][..2] == d[..2];
    assert MergedAsWritten(c, d[..1]) == c;
    assert MergedAsWritten(c, d[..2]) == c;
    assert MergedAsWritten(c, d[..3]) == c;
  }

  /**
   * The fields of a customer created by `get_or_create` from the details. The details always
   * hold all four keys, with `None` for a detail the request lacks; storing "" for such a
   * detail (the column default of `address` and `phone`) is a modelling choice.
   */
  function NewCustomer(req: BillRequest, email: string): (r: Customer)
    ensures r.email == email
    ensures req.tempName.Some? ==> r.name == req.tempName.value
    ensures req.tempAddress.Some? ==> r.address == req.tempAddress.value
    ensures req.tempPhone.Some? ==> r.phone == req.tempPhone.value
    ensures req.tempName.None? ==> r.name == ""
    ensures req.tempAddress.None? ==> r.address == ""
    ensures req.tempPhone.None? ==> r.phone == ""
  {
    Customer(OrEmpty(req.tempName), OrEmpty(req.tempAddress), email, OrEmpty(req.tempPhone))
  }

  /** The customer with this email, if there is one. */
  function FindByEmail(customers: seq<Customer>, email: string): (r: Option<CustomerId>)
    ensures r.Some? ==> r.value < |customers| && customers[r.value].email == email
    ensures r.None? <==> forall j :: 0 <= j < |customers| ==> customers[j].email != email
  {
    if customers == [] then None
    else if customers[0].email == email then Some(0)
    else
      match FindByEmail(customers[1..], email)
      case None => None
      case Some(k) => Some(k + 1)
  }

  /**
   * Customer resolution: the tables after it and the customer the bill links to. With no
   * filled email the request's own link is kept and nothing is looked up.
   */
  function Resolve(db: Db, req: BillRequest): (r: (Db, Option<CustomerId>))
    requires Consistent(db)
    ensures Consistent(r.0)
    ensures r.0.products == db.products && r.0.items == db.items && |r.0.bills| == |db.bills|
    ensures |db.customers| <= |r.0.customers| <= |db.customers| + 1
    ensures Filled(req.tempEmail) ==>
      r.1.Some? && r.1.value < |r.0.customers| && r.0.customers[r.1.value].email == req.tempEmail.value
  {
    if !Filled(req.tempEmail) then (db, req.customer)
    else
      var email := req.tempEmail.value;
      match FindByEmail(db.customers, email)
      case None =>
        CustomerSaveKeepsConsistent(db, None, NewCustomer(req, email), email);
        var (db', k) := AfterCustomerSave(db, None, NewCustomer(req, email), email);
        (db', Some(k))
      case Some(k) =>
        if req.updateConsent then
          MergedPerField(db.customers[k], req);
          CustomerSaveKeepsConsistent(db, Some(k), Merged(db.customers[k], TempDetails(req)), db.customers[k].email);
          (AfterCustomerSave(db, Some(k), Merged(db.customers[k], TempDetails(req)), db.customers[k].email).0, Some(k))
        else (db, Some(k))
  }

  /** The bill header: the resolved customer's fields when one was resolved, the request's plain fields otherwise. */
  function Header(db: Db, link: Option<CustomerId>, req: BillRequest, user: User, hour: Hour): (r: Bill)
    requires Filled(req.tempEmail) ==> link.Some? && link.value < |db.customers|
    ensures r.createdBy == user && r.createdAt == hour && r.totalAmount == 0 && r.customer == link
  {
    if Filled(req.tempEmail) then
      var c := db.customers[link.value];
      Bill(link, c.name, c.email, c.address, c.phone, user, hour, 0)
    else
      Bill(link, req.customerName, req.customerEmail, req.customerAddress, req.customerPhone, user, hour, 0)
  }

  /** Creating the items of bill `bill`, one per line in order; an unknown product aborts. */
  function AfterLines(db: Db, bill: BillId, lines: seq<LineRequest>): (r: Result<Db, CreateError>)
    requires bill < |db.bills|
    ensures r.Success? ==>
      && |r.value.items| == |db.items| + |lines| && |r.value.products| == |db.products|
      && |r.value.bills| == |db.bills| && r.value.customers == db.customers
    ensures r.Failure? ==> r.error.UnknownProduct? && r.error.product >= |db.products|
    decreases |lines|
  {
    if lines == [] then Success(db)
    else if lines[0].product >= |db.products| then Failure(UnknownProduct(lines[0].product))
    else AfterLines(AfterItemSave(db, ItemInstance(None, BillItem(bill, lines[0].product, lines[0].quantity, 0))).0, bill, lines[1..])
  }

  /**
   * The whole transaction: the committed tables and the new bill's key, or the error. A
   * `customer` or `product` id that names no row is rejected whatever else the request holds.
   */
  function AfterCreate(db: Db, req: BillRequest, user: User, hour: Hour): (r: Result<(Db, BillId), CreateError>)
    requires Consistent(db)
    ensures r.Success? ==>
      && r.value.1 == |db.bills| && |r.value.0.bills| == |db.bills| + 1
      && |r.value.0.items| == |db.items| + |req.items| && |r.value.0.products| == |db.products|
    ensures r.Failure? ==>
      || (r.error.UnknownCustomer? && req.customer == Some(r.error.customer) && r.error.customer >= |db.customers|)
      || (r.error.UnknownProduct? && r.error.product >= |db.products|)
  {
    if req.customer.Some? && req.customer.value >= |db.customers| then
      Failure(UnknownCustomer(req.customer.value))
    else
      ResolveLinks(db, req);
      var (db1, link) := Resolve(db, req);
      var pk := |db1.bills|;
      var db2 := db1.(bills := db1.bills + [Header(db1, link, req, user, hour)]);
      match AfterLines(db2, pk, req.items)
      case Failure(e) => Failure(e)
      case Success(db3) => Success((db3, pk))
  }

  /** Resolution keeps the tables consistent, yields a valid link, and leaves products, items and bills' totals alone. */
  lemma ResolveLinks(db: Db, req: BillRequest)
    requires Consistent(db)
    requires !Filled(req.tempEmail) && req.customer.Some? ==> req.customer.value < |db.customers|
    ensures var (db1, link) := Resolve(db, req);
      && Consistent(db1)
      && (link.Some? ==> link.value < |db1.customers|)
      && (Filled(req.tempEmail) ==> link.Some?)
      && db1.products == db.products && db1.items == db.items && |db1.bills| == |db.bills|
  {
    if Filled(req.tempEmail) {
      var email := req.tempEmail.value;
      match FindByEmail(db.customers, email)
      case None =>
        CustomerSaveKeepsConsistent(db, None, NewCustomer(req, email), email);
      case Some(k) =>
        if req.updateConsent {
          var c := Merged(db.customers[k], TempDetails(req));
          MergedPerField(db.customers[k], req);
          CustomerSaveKeepsConsistent(db, Some(k), c, db.customers[k].email);
        }
    }
  }

  /** Every requested product id names an existing product. */
  predicate LinesKnown(productCount: nat, lines: seq<LineRequest>)
  {
    forall j :: 0 <= j < |lines| ==> lines[j].product < productCount
  }

  /** The items the lines should produce for bill `bill`, priced from `products`. */
  function LineItems(products: seq<Product>, bill: BillId, lines: seq<LineRequest>): seq<BillItem>
    requires LinesKnown(|products|, lines)
  {
    seq(|lines|, j requires 0 <= j < |lines| =>
      BillItem(bill, lines[j].product, lines[j].quantity, products[lines[j].product].price * lines[j].quantity))
  }

  /** The total quantity the lines request of product `p`. */
  function LinesQuantity(lines: seq<LineRequest>, p: ProductId): nat
  {
    if lines == [] then 0
    else (if lines[0].product == p then lines[0].quantity else 0) + LinesQuantity(lines[1..], p)
  }

  /** The sum of the lines' extended prices. */
  function LinesTotal(products: seq<Product>, lines: seq<LineRequest>): Cents
    requires LinesKnown(|products|, lines)
  {
    if lines == [] then 0
    else products[lines[0].product].price * lines[0].quantity + LinesTotal(products, lines[1..])
  }

  /** Two product tables that differ at most in stock. */
  predicate SamePrices(a: seq<Product>, b: seq<Product>)
  {
    |a| == |b| && forall p :: 0 <= p < |a| ==> a[p].price == b[p].price
  }

  lemma {:induction false} LinesTotalSamePrices(a: seq<Product>, b: seq<Product>, lines: seq<LineRequest>)
    requires SamePrices(a, b) && LinesKnown(|a|, lines)
    ensures LinesTotal(a, lines) == LinesTotal(b, lines)
  {
    if lines != [] {
      LinesTotalSamePrices(a, b, lines[1..]);
    }
  }

  /** The item loop fails exactly when some line names an unknown product. */
  lemma {:induction false} AfterLinesFailsIffUnknown(db: Db, bill: BillId, lines: seq<LineRequest>)
    requires bill < |db.bills|
    ensures AfterLines(db, bill, lines).Failure? <==> !LinesKnown(|db.products|, lines)
    decreases |lines|
  {
    if lines != [] && lines[0].product < |db.products| {
      var db1 := AfterItemSave(db, ItemInstance(None, BillItem(bill, lines[0].product, lines[0].quantity, 0))).0;
      AfterLinesFailsIffUnknown(db1, bill, lines[1..]);
      if !LinesKnown(|db.products|, lines) {
        var j :| 0 <= j < |lines| && lines[j].product >= |db.products|;
        assert lines[1..][j - 1] == lines[j];
      }
    }
  }

  /** The step the item-loop lemmas share: one saved line and the remaining lines. */
  lemma StepLines(db: Db, bill: BillId, lines: seq<LineRequest>)
    requires bill < |db.bills| && lines != [] && LinesKnown(|db.products|, lines)
    ensures var db1 := AfterItemSave(db, ItemInstance(None, BillItem(bill, lines[0].product, lines[0].quantity, 0))).0;
      && LinesKnown(|db1.products|, lines[1..])
      && AfterLines(db, bill, lines) == AfterLines(db1, bill, lines[1..])
      && SamePrices(db1.products, db.products)
  {
    forall j | 0 <= j < |lines[1..]| ensures lines[1..][j].product < |db.products| {
      assert lines[1..][j] == lines[j + 1];
    }
  }

  /** A successful item loop appends one item per line, in order, priced at unit price times quantity. */
  lemma {:induction false} AfterLinesItems(db: Db, bill: BillId, lines: seq<LineRequest>)
    requires bill < |db.bills| && LinesKnown(|db.products|, lines)
    ensures AfterLines(db, bill, lines).Success?
    ensures AfterLines(db, bill, lines).value.items == db.items + LineItems(db.products, bill, lines)
    decreases |lines|
  {
    AfterLinesFailsIffUnknown(db, bill, lines);
    if lines != [] {
      var db1 := AfterItemSave(db, ItemInstance(None, BillItem(bill, lines[0].product, lines[0].quantity, 0))).0;
      StepLines(db, bill, lines);
      AfterLinesItems(db1, bill, lines[1..]);
      assert LineItems(db1.products, bill, lines[1..]) == LineItems(db.products, bill, lines[1..]);
      assert LineItems(db.products, bill, lines) == [LineItems(db.products, bill, lines)[0]] + LineItems(db.products, bill, lines[1..]);
    }
  }

  /** A successful item loop lowers each product's stock by the quantity requested of it over all lines. */
  lemma {:induction false} AfterLinesStock(db: Db, bill: BillId, lines: seq<LineRequest>)
    requires bill < |db.bills| && LinesKnown(|db.products|, lines)
    ensures AfterLines(db, bill, lines).Success?
    ensures var db' := AfterLines(db, bill, lines).value;
      && |db'.products| == |db.products|
      && forall p :: 0 <= p < |db.products| ==>
           db'.products[p] == db.products[p].(stockQuantity := db.products[p].stockQuantity - LinesQuantity(lines, p))
    decreases |lines|
  {
    AfterLinesFailsIffUnknown(db, bill, lines);
    if lines != [] {
      var db1 := AfterItemSave(db, ItemInstance(None, BillItem(bill, lines[0].product, lines[0].quantity, 0))).0;
      StepLines(db, bill, lines);
      AfterLinesStock(db1, bill, lines[1..]);
    }
  }

  /** A successful item loop grows the bill's total by the sum of the line prices and leaves other bills and the customers alone. */
  lemma {:induction false} AfterLinesBills(db: Db, bill: BillId, lines: seq<LineRequest>)
    requires bill < |db.bills| && LinesKnown(|db.products|, lines)
    ensures AfterLines(db, bill, lines).Success?
    ensures var db' := AfterLines(db, bill, lines).value;
      && db'.bills == db.bills[bill := db.bills[bill].(totalAmount := db.bills[bill].totalAmount + LinesTotal(db.products, lines))]
      && db'.customers == db.customers
    decreases |lines|
  {
    AfterLinesFailsIffUnknown(db, bill, lines);
    if lines == [] {
      assert db.bills[bill := db.bills[bill]] == db.bills;
    } else {
      var db1 := AfterItemSave(db, ItemInstance(None, BillItem(bill, lines[0].product, lines[0].quantity, 0))).0;
      StepLines(db, bill, lines);
      AfterLinesBills(db1, bill, lines[1..]);
      LinesTotalSamePrices(db1.products, db.products, lines[1..]);
    }
  }

  /**
   * A successful item loop appends one item per line in order, priced at unit price times
   * quantity; lowers each product's stock by the quantity requested of it; grows the bill's
   * total by the sum of the line prices; and changes nothing else.
   */
  lemma AfterLinesEffect(db: Db, bill: BillId, lines: seq<LineRequest>)
    requires bill < |db.bills| && LinesKnown(|db.products|, lines)
    ensures AfterLines(db, bill, lines).Success?
    ensures var db' := AfterLines(db, bill, lines).value;
      && db'.items == db.items + LineItems(db.products, bill, lines)
      && |db'.products| == |db.products|
      && (forall p :: 0 <= p < |db.products| ==>
            db'.products[p] == db.products[p].(stockQuantity := db.products[p].stockQuantity - LinesQuantity(lines, p)))
      && db'.bills == db.bills[bill := db.bills[bill].(totalAmount := db.bills[bill].totalAmount + LinesTotal(db.products, lines))]
      && db'.customers == db.customers
  {
    AfterLinesItems(db, bill, lines);
    AfterLinesStock(db, bill, lines);
    AfterLinesBills(db, bill, lines);
  }

  /** The item loop keeps every bill's total equal to the sum of its items' prices. */
  lemma {:induction false} AfterLinesKeepsConsistent(db: Db, bill: BillId, lines: seq<LineRequest>)
    requires Consistent(db) && bill < |db.bills| && AfterLines(db, bill, lines).Success?
    ensures Consistent(AfterLines(db, bill, lines).value)
    decreases |lines|
  {
    if lines != [] {
      var inst := ItemInstance(None, BillItem(bill, lines[0].product, lines[0].quantity, 0));
      ItemSaveKeepsConsistent(db, inst);
      AfterLinesKeepsConsistent(AfterItemSave(db, inst).0, bill, lines[1..]);
    }
  }

  /**
   * The item loop with the source's stock writes. Each line's `product` instance is loaded
   * when the request is validated (`snapshot`), and its save writes back that instance's stock
   * minus the line's quantity (store/models.py:60-61), overwriting what earlier lines wrote.
   * Everything else is the intended save (`AfterItemSave`), the bill total update included,
   * which the source never performs (line 65): only the stale-stock defect is isolated here.
   */
  function AfterLinesStale(db: Db, snapshot: seq<Product>, bill: BillId, lines: seq<LineRequest>): (r: Result<Db, CreateError>)
    requires bill < |db.bills| && |snapshot| == |db.products|
    ensures r.Success? <==> LinesKnown(|db.products|, lines)
    ensures r.Success? ==>
      && |r.value.products| == |db.products| && |r.value.bills| == |db.bills|
      && r.value.customers == db.customers
      && |r.value.items| == |db.items| + |lines|
    ensures r.Failure? ==> r.error.UnknownProduct? && r.error.product >= |db.products|
    decreases |lines|
  {
    if lines == [] then Success(db)
    else if lines[0].product >= |db.products| then Failure(UnknownProduct(lines[0].product))
    else
      var p := lines[0].product;
      var db1 := AfterItemSave(db, ItemInstance(None, BillItem(bill, p, lines[0].quantity, 0))).0;
      var written := db1.products[p].(stockQuantity := snapshot[p].stockQuantity - lines[0].quantity);
      AfterLinesStale(db1.(products := db1.products[p := written]), snapshot, bill, lines[1..])
  }

  /**
   * Two lines of one product: the stale writes leave 10 - 3 = 7 in stock, the intended loop
   * 10 - 2 - 3 = 5.
   */
  lemma StaleStockLosesUpdate()
    ensures var db := Db([Product("Widget", 250, 10, None)], [],
                         [Bill(None, "", "", "", "", User(1, "cashier@example.com"), 9, 0)], []);
      var lines := [LineRequest(0, 2), LineRequest(0, 3)];
      && AfterLinesStale(db, db.products, 0, lines).Success?
      && AfterLinesStale(db, db.products, 0, lines).value.products[0].stockQuantity == 7
      && AfterLines(db, 0, lines).Success?
      && AfterLines(db, 0, lines).value.products[0].stockQuantity == 5
  {
    var db := Db([Product("Widget", 250, 10, None)], [],
                 [Bill(None, "", "", "", "", User(1, "cashier@example.com"), 9, 0)], []);
    var lines := [LineRequest(0, 2), LineRequest(0, 3)];
    assert lines[1..] == [LineRequest(0, 3)] && lines[1..][1..] == [];
  }

  /** When no product appears on two lines, the stale writes are exactly the intended ones. */
  lemma {:induction false} StaleAgreesWithoutRepeats(db: Db, snapshot: seq<Product>, bill: BillId, lines: seq<LineRequest>)
    requires bill < |db.bills| && |snapshot| == |db.products|
    requires forall j :: 0 <= j < |lines| && lines[j].product < |db.products| ==>
      snapshot[lines[j].product].stockQuantity == db.products[lines[j].product].stockQuantity
    requires forall i, j :: 0 <= i < j < |lines| ==> lines[i].product != lines[j].product
    ensures AfterLinesStale(db, snapshot, bill, lines) == AfterLines(db, bill, lines)
    decreases |lines|
  {
    if lines != [] && lines[0].product < |db.products| {
      var p := lines[0].product;
      var db1 := AfterItemSave(db, ItemInstance(None, BillItem(bill, p, lines[0].quantity, 0))).0;
      assert db1.products[p := db1.products[p].(stockQuantity := snapshot[p].stockQuantity - lines[0].quantity)] == db1.products;
      forall j | 0 <= j < |lines[1..]| && lines[1..][j].product < |db1.products|
        ensures snapshot[lines[1..][j].product].stockQuantity == db1.products[lines[1..][j].product].stockQuantity
      {
        assert lines[1..][j] == lines[j + 1];
      }
      StaleAgreesWithoutRepeats(db1, snapshot, bill, lines[1..]);
    }
  }

  /**
   * The three outcomes of resolution. No filled email: nothing is looked up and the
   * request's own link is kept. An unknown email: exactly one customer is created from the
   * details. A known email: that customer is linked; without consent it is unchanged, with
   * consent each filled detail overwrites its field; no bill's snapshot is rewritten.
   */
  lemma ResolveOutcome(db: Db, req: BillRequest)
    requires Consistent(db)
    ensures var (db1, link) := Resolve(db, req);
      && (!Filled(req.tempEmail) ==> db1 == db && link == req.customer)
      && (Filled(req.tempEmail) && (forall j :: 0 <= j < |db.customers| ==> db.customers[j].email != req.tempEmail.value) ==>
            db1 == db.(customers := db.customers + [NewCustomer(req, req.tempEmail.value)]) && link == Some(|db.customers|))
      && (forall k :: Filled(req.tempEmail) && 0 <= k < |db.customers| && db.customers[k].email == req.tempEmail.value ==>
            && link == Some(k)
            && db1 == if req.updateConsent then
                        db.(customers := db.customers[k := Customer(Pick(req.tempName, db.customers[k].name),
                          Pick(req.tempAddress, db.customers[k].address), db.customers[k].email,
                          Pick(req.tempPhone, db.customers[k].phone))])
                      else db)
  {
    if Filled(req.tempEmail) {
      var email := req.tempEmail.value;
      match FindByEmail(db.customers, email)
      case None =>
      case Some(k) =>
        MergedPerField(db.customers[k], req);
    }
  }

  /** A successful transaction: the resolved tables, plus the bill header with its items, stock and total. */
  lemma {:induction false} CreateUnfolds(db: Db, req: BillRequest, user: User, hour: Hour)
    requires Consistent(db) && AfterCreate(db, req, user, hour).Success?
    ensures var (db', pk) := AfterCreate(db, req, user, hour).value;
      var (db1, link) := Resolve(db, req);
      && LinesKnown(|db.products|, req.items)
      && pk == |db.bills| == |db1.bills|
      && db'.customers == db1.customers
      && db'.bills == db1.bills + [Header(db1, link, req, user, hour).(totalAmount := LinesTotal(db.products, req.items))]
      && db'.items == db.items + LineItems(db.products, pk, req.items)
      && |db'.products| == |db.products|
      && (forall p :: 0 <= p < |db.products| ==>
            db'.products[p] == db.products[p].(stockQuantity := db.products[p].stockQuantity - LinesQuantity(req.items, p)))
      && Consistent(db')
  {
    ResolveLinks(db, req);
    var (db1, link) := Resolve(db, req);
    var pk := |db1.bills|;
    var header := Header(db1, link, req, user, hour);
    var db2 := db1.(bills := db1.bills + [header]);
    AfterLinesFailsIffUnknown(db2, pk, req.items);
    AfterLinesEffect(db2, pk, req.items);
    assert Consistent(db2) by {
      ItemsTotalOfAbsentBill(db2.items, pk);
    }
    AfterLinesKeepsConsistent(db2, pk, req.items);
  }

  /**
   * The transaction fails exactly when a line names an unknown product or the request's
   * `customer` names an unknown customer, whether or not an email is also given.
   */
  lemma CreateFailsOnlyOnUnknownReference(db: Db, req: BillRequest, user: User, hour: Hour)
    requires Consistent(db)
    ensures AfterCreate(db, req, user, hour).Failure? <==>
      || (req.customer.Some? && req.customer.value >= |db.customers|)
      || !LinesKnown(|db.products|, req.items)
  {
    if !(req.customer.Some? && req.customer.value >= |db.customers|) {
      ResolveLinks(db, req);
      var (db1, link) := Resolve(db, req);
      var db2 := db1.(bills := db1.bills + [Header(db1, link, req, user, hour)]);
      AfterLinesFailsIffUnknown(db2, |db1.bills|, req.items);
    }
  }

  /**
   * A committed bill is appended after the existing ones, which are left untouched; it has
   * one item per requested line, in request order, each priced at unit price times quantity;
   * its creator is the requesting user; and its total is the sum of its items' prices.
   */
  lemma CreateRecordsBill(db: Db, req: BillRequest, user: User, hour: Hour)
    requires Consistent(db) && AfterCreate(db, req, user, hour).Success?
    ensures var (db', pk) := AfterCreate(db, req, user, hour).value;
      && pk == |db.bills| && |db'.bills| == |db.bills| + 1 && db'.bills[..pk] == db.bills
      && LinesKnown(|db.products|, req.items)
      && db'.items == db.items + LineItems(db.products, pk, req.items)
      && db'.bills[pk].createdBy == user && db'.bills[pk].createdAt == hour
      && db'.bills[pk].totalAmount == LinesTotal(db.products, req.items) == ItemsTotal(db'.items, pk)
  {
    CreateUnfolds(db, req, user, hour);
    ResolveOutcome(db, req);
  }

  /** Each product's stock drops by the total quantity the request sells of it; nothing else about a product changes. */
  lemma CreateAdjustsStock(db: Db, req: BillRequest, user: User, hour: Hour)
    requires Consistent(db) && AfterCreate(db, req, user, hour).Success?
    ensures var db' := AfterCreate(db, req, user, hour).value.0;
      && |db'.products| == |db.products|
      && forall p :: 0 <= p < |db.products| ==>
           && db'.products[p].stockQuantity == db.products[p].stockQuantity - LinesQuantity(req.items, p)
           && db'.products[p].name == db.products[p].name
           && db'.products[p].price == db.products[p].price
           && db'.products[p].description == db.products[p].description
  {
    CreateUnfolds(db, req, user, hour);
  }

  /** Without a filled email no customer is looked up or created and the bill keeps the request's own link and fields. */
  lemma CreateWithoutEmail(db: Db, req: BillRequest, user: User, hour: Hour)
    requires Consistent(db) && AfterCreate(db, req, user, hour).Success? && !Filled(req.tempEmail)
    ensures var (db', pk) := AfterCreate(db, req, user, hour).value;
      && db'.customers == db.customers
      && pk < |db'.bills|
      && db'.bills[pk].customer == req.customer
      && db'.bills[pk].customerName == req.customerName && db'.bills[pk].customerEmail == req.customerEmail
      && db'.bills[pk].customerAddress == req.customerAddress && db'.bills[pk].customerPhone == req.customerPhone
  {
    CreateUnfolds(db, req, user, hour);
    ResolveOutcome(db, req);
  }

  /** An email no customer has creates exactly one customer carrying the supplied details, and the bill links to it. */
  lemma CreateWithNewEmail(db: Db, req: BillRequest, user: User, hour: Hour)
    requires Consistent(db) && AfterCreate(db, req, user, hour).Success? && Filled(req.tempEmail)
    requires forall j :: 0 <= j < |db.customers| ==> db.customers[j].email != req.tempEmail.value
    ensures var (db', pk) := AfterCreate(db, req, user, hour).value;
      && db'.customers == db.customers + [Customer(OrEmpty(req.tempName), OrEmpty(req.tempAddress), req.tempEmail.value, OrEmpty(req.tempPhone))]
      && pk < |db'.bills|
      && db'.bills[pk].customer == Some(|db.customers|)
  {
    CreateUnfolds(db, req, user, hour);
    ResolveOutcome(db, req);
  }

  /**
   * A known email links the bill to that customer. Without consent the customer is
   * unchanged whatever details were supplied; with consent each filled detail overwrites its
   * field and an empty or absent one leaves the old value.
   */
  lemma CreateWithKnownEmail(db: Db, req: BillRequest, user: User, hour: Hour, k: CustomerId)
    requires Consistent(db) && AfterCreate(db, req, user, hour).Success? && Filled(req.tempEmail)
    requires k < |db.customers| && db.customers[k].email == req.tempEmail.value
    ensures var (db', pk) := AfterCreate(db, req, user, hour).value;
      && pk < |db'.bills|
      && db'.bills[pk].customer == Some(k)
      && (!req.updateConsent ==> db'.customers == db.customers)
      && (req.updateConsent ==> db'.customers == db.customers[k := Customer(
            Pick(req.tempName, db.customers[k].name), Pick(req.tempAddress, db.customers[k].address),
            db.customers[k].email, Pick(req.tempPhone, db.customers[k].phone))])
  {
    CreateUnfolds(db, req, user, hour);
    ResolveOutcome(db, req);
  }

  /** When a customer is resolved, the bill's name, email, address and phone are that customer's fields after any update. */
  lemma CreateSnapshotsCustomer(db: Db, req: BillRequest, user: User, hour: Hour)
    requires Consistent(db) && AfterCreate(db, req, user, hour).Success? && Filled(req.tempEmail)
    ensures var (db', pk) := AfterCreate(db, req, user, hour).value;
      && pk < |db'.bills|
      && db'.bills[pk].customer.Some? && db'.bills[pk].customer.value < |db'.customers|
      && var c := db'.customers[db'.bills[pk].customer.value];
      && db'.bills[pk].customerName == c.name && db'.bills[pk].customerEmail == c.email
      && db'.bills[pk].customerAddress == c.address && db'.bills[pk].customerPhone == c.phone
      && c.email == req.tempEmail.value
  {
    CreateUnfolds(db, req, user, hour);
    ResolveLinks(db, req);
    ResolveOutcome(db, req);
  }

  /** The consented update's loop: `setattr` for each filled detail, on the column its key names. */
  method ApplyDetails(rec: CustomerRecord, details: seq<(string, Option<string>)>)
    modifies rec
    ensures rec.Fields() == Merged(old(rec.Fields()), details)
    ensures rec.pk == old(rec.pk) && rec.oldEmail == old(rec.oldEmail)
  {
    var i := 0;
    while i < |details|
      invariant 0 <= i <= |details|
      invariant rec.Fields() == Merged(old(rec.Fields()), details[..i])
      invariant rec.pk == old(rec.pk) && rec.oldEmail == old(rec.oldEmail)
    {
      var (key, value) := details[i];
      if Filled(value) {
        rec.SetAttr(FieldOf(key), value.value);
      }
      assert details[..i + 1][..i] == details[..i];
      i := i + 1;
    }
    assert details[..i] == details;
  }

  /** Customer resolution on the store: find or create by email, then the consented update. */
  method ResolveCustomer(store: Store, req: BillRequest) returns (link: Option<CustomerId>)
    requires store.Valid()
    requires !Filled(req.tempEmail) && req.customer.Some? ==> req.customer.value < |store.customers|
    modifies store
    ensures (store.State(), link) == Resolve(old(store.State()), req)
    ensures store.Valid()
  {
    if !Filled(req.tempEmail) {
      return req.customer;
    }
    var found := FindByEmail(store.customers, req.tempEmail.value);
    if found.None? {
      // get_or_create: a new instance, saved once
      var rec := new CustomerRecord(None, NewCustomer(req, req.tempEmail.value));
      rec.Save(store);
      link := rec.pk;
    } else {
      var k := found.value;
      var rec := new CustomerRecord(found, store.customers[k]);
      if req.updateConsent {
        ApplyDetails(rec, TempDetails(req));
        MergedPerField(store.customers[k], req);
        rec.Save(store);
      }
      link := rec.pk;
    }
  }

  /** The item loop of the transaction; an unknown product rolls the store back to `start`. */
  method AddLines(store: Store, pk: BillId, lines: seq<LineRequest>, start: Db) returns (r: Result<BillId, CreateError>)
    requires store.Valid() && pk < |store.bills| && Consistent(start)
    modifies store
    ensures store.Valid()
    ensures match AfterLines(old(store.State()), pk, lines)
      case Success(db) => r == Success(pk) && store.State() == db
      case Failure(e) => r == Failure(e) && store.State() == start
  {
    var i := 0;
    while i < |lines|
      invariant 0 <= i <= |lines|
      invariant store.Valid() && pk < |store.bills|
      invariant AfterLines(store.State(), pk, lines[i..]) == AfterLines(old(store.State()), pk, lines)
    {
      var line := lines[i];
      if line.product >= |store.products| {
        store.Rollback(start);
        return Failure(UnknownProduct(line.product));
      }
      var saved := store.SaveItem(ItemInstance(None, BillItem(pk, line.product, line.quantity, 0)));
      assert lines[i..][1..] == lines[i + 1..];
      i := i + 1;
    }
    r := Success(pk);
  }

  /**
   * `BillSerializer.create`: one transaction over the store. On success the store holds the
   * committed tables and the new bill's key is returned; on failure the store is rolled back
   * to the tables it started with.
   */
  method Create(store: Store, req: BillRequest, user: User, hour: Hour) returns (r: Result<BillId, CreateError>)
    requires store.Valid()
    modifies store
    ensures store.Valid()
    ensures match AfterCreate(old(store.State()), req, user, hour)
      case Success((db, pk)) => r == Success(pk) && store.State() == db
      case Failure(e) => r == Failure(e) && store.State() == old(store.State())
  {
    var start := store.State();
    if req.customer.Some? && req.customer.value >= |store.customers| {
      return Failure(UnknownCustomer(req.customer.value));
    }
    ResolveLinks(start, req);
    var link := ResolveCustomer(store, req);
    var pk := store.InsertBill(Header(store.State(), link, req, user, hour));
    assert store.Valid() by {
      ItemsTotalOfAbsentBill(store.items, pk);
    }
    r := AddLines(store, pk, req.items, start);
  }
}
