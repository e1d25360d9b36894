/**
 * The side effects of saving model instances (store/models.py):
 *  - `BillItem.save` (lines 55-67): on the first save the line price becomes unit price times
 *    quantity, the product's stock drops by the quantity and the bill's total grows by the price;
 *  - the customer's change detection (lines 33-41): a save of an existing customer whose email
 *    differs from the remembered one rewrites the email snapshot of its bills.
 *
 * Deliberate divergences from the literal code, all towards what the code evidently intends:
 *  - the change detection is written inside `Bill` but calls `super(Customer, self)` and reads
 *    `self.email`; here it belongs to the customer instance (`CustomerRecord`);
 *  - `objects.create` forces an INSERT, and the save forwards that to its second
 *    `super().save` (line 62), which repeats the key the first INSERT assigned; the model
 *    inserts each item once, and `CreateItemAsWritten` keeps the literal failure;
 *  - the second `if not self.pk` (line 65) is tested after line 58 has assigned a primary key,
 *    so the literal code never adds the price to the bill; `AfterItemSave` adds it, as the
 *    comment at line 64 describes, and `AfterItemSaveAsWritten` keeps the literal behaviour.
 */
module Models {
  import opened Wrappers
  import opened Records
  import Signals

  /** An in-memory bill item: `pk` is None until the item is first saved. */
  datatype ItemInstance = ItemInstance(pk: Option<ItemId>, item: BillItem)

  /** The item's bill and product exist (the instance holds references to both). */
  predicate RefsExist(db: Db, item: BillItem)
  {
    item.bill < |db.bills| && item.product < |db.products|
  }

  /** The tables and the saved instance after `BillItem.save`, with the intended total update. */
  function AfterItemSave(db: Db, inst: ItemInstance): (r: (Db, ItemInstance))
    requires RefsExist(db, inst.item)
    ensures r.0.customers == db.customers && |r.0.products| == |db.products| && |r.0.bills| == |db.bills|
    ensures |r.0.items| == |db.items| + (if inst.pk.None? then 1 else 0)
    ensures r.1.pk.Some? && RefsExist(r.0, r.1.item)
    ensures r.1.item == inst.item.(price := r.1.item.price)
    ensures forall p :: 0 <= p < |db.products| ==> r.0.products[p].price == db.products[p].price
  {
    if inst.pk.Some? then (db, inst)
    else
      var product := db.products[inst.item.product];
      var row := inst.item.(price := product.price * inst.item.quantity);
      var bill := db.bills[row.bill];
      (db.(products := db.products[row.product := product.(stockQuantity := product.stockQuantity - row.quantity)],
           bills := db.bills[row.bill := bill.(totalAmount := bill.totalAmount + row.price)],
           items := db.items + [row]),
       ItemInstance(Some(|db.items|), row))
  }

  /** `BillItem.save` as written: the guard at line 65 is false by then, so the total is never touched. */
  function AfterItemSaveAsWritten(db: Db, inst: ItemInstance): (r: (Db, ItemInstance))
    requires RefsExist(db, inst.item)
    ensures r.0.bills == db.bills && r.0.customers == db.customers
    ensures |r.0.products| == |db.products|
    ensures |r.0.items| == |db.items| + (if inst.pk.None? then 1 else 0)
    ensures r.1.pk.Some? && RefsExist(r.0, r.1.item)
    ensures r.1.item == inst.item.(price := r.1.item.price)
    ensures inst.pk.None? ==> r.1.item.price == db.products[inst.item.product].price * inst.item.quantity
  {
    if inst.pk.Some? then (db, inst)
    else
      var product := db.products[inst.item.product];
      var row := inst.item.(price := product.price * inst.item.quantity);
      (db.(products := db.products[row.product := product.(stockQuantity := product.stockQuantity - row.quantity)],
           items := db.items + [row]),
       ItemInstance(Some(|db.items|), row))
  }

  /**
   * A first save stores one new item whose price is the product's unit price times the
   * quantity, and hands back the instance with its new primary key.
   */
  lemma FirstSavePricesLine(db: Db, inst: ItemInstance)
    requires RefsExist(db, inst.item) && inst.pk.None?
    ensures var (db', saved) := AfterItemSave(db, inst);
      && saved.pk == Some(|db.items|)
      && saved.item.price == db.products[inst.item.product].price * inst.item.quantity
      && saved.item == inst.item.(price := saved.item.price)
      && db'.items == db.items + [saved.item]
  {
  }

  /**
   * A first save lowers the product's stock by exactly the quantity, with no lower bound,
   * and changes nothing else about any product.
   */
  lemma FirstSaveDecrementsStock(db: Db, inst: ItemInstance)
    requires RefsExist(db, inst.item) && inst.pk.None?
    ensures var db' := AfterItemSave(db, inst).0;
      && |db'.products| == |db.products|
      && db'.products[inst.item.product].stockQuantity == db.products[inst.item.product].stockQuantity - inst.item.quantity
      && db'.products[inst.item.product] == db.products[inst.item.product].(stockQuantity := db'.products[inst.item.product].stockQuantity)
      && (forall p :: 0 <= p < |db.products| && p != inst.item.product ==> db'.products[p] == db.products[p])
  {
  }

  /** A first save grows the item's bill total by exactly the line price; other bills and customers are untouched. */
  lemma FirstSaveGrowsTotal(db: Db, inst: ItemInstance)
    requires RefsExist(db, inst.item) && inst.pk.None?
    ensures var (db', saved) := AfterItemSave(db, inst);
      && |db'.bills| == |db.bills|
      && db'.bills[inst.item.bill].totalAmount == db.bills[inst.item.bill].totalAmount + saved.item.price
      && db'.bills[inst.item.bill] == db.bills[inst.item.bill].(totalAmount := db'.bills[inst.item.bill].totalAmount)
      && (forall b :: 0 <= b < |db.bills| && b != inst.item.bill ==> db'.bills[b] == db.bills[b])
      && db'.customers == db.customers
  {
  }

  /** Saving an item that already has a primary key recomputes nothing and changes no table. */
  lemma ResaveChangesNothing(db: Db, inst: ItemInstance)
    requires RefsExist(db, inst.item) && inst.pk.Some?
    ensures AfterItemSave(db, inst) == (db, inst)
  {
  }

  /** Appending one row to the items adds its price to its own bill's sum only. */
  lemma {:induction false} ItemsTotalAppend(items: seq<BillItem>, row: BillItem, b: BillId)
    ensures ItemsTotal(items + [row], b) == ItemsTotal(items, b) + (if row.bill == b then row.price else 0)
  {
    assert (items + [row])[..|items|] == items;
  }

  /** Saving an item keeps every bill's total equal to the sum of its items' prices. */
  lemma {:induction false} ItemSaveKeepsConsistent(db: Db, inst: ItemInstance)
    requires Consistent(db) && RefsExist(db, inst.item)
    ensures Consistent(AfterItemSave(db, inst).0)
  {
    if inst.pk.None? {
      var (db', saved) := AfterItemSave(db, inst);
      forall b | 0 <= b < |db'.bills|
        ensures db'.bills[b].totalAmount == ItemsTotal(db'.items, b)
      {
        ItemsTotalAppend(db.items, saved.item, b);
      }
    }
  }

  /**
   * `BillItem.objects.create(...)` as written for a new item (store/serializers.py:61).
   * `create` saves with `force_insert=True`, and `BillItem.save` forwards it to both
   * `super().save` calls. The first INSERT (line 58) stores the priced row under the next key
   * and sets `pk`, and the stock is written (lines 60-61). The second INSERT (line 62) is forced
   * again under that key, which the table now holds, so the primary key rejects it with an
   * `IntegrityError` naming the key, and the enclosing transaction is rolled back.
   */
  function CreateItemAsWritten(db: Db, item: BillItem): (r: Result<(Db, ItemInstance), ItemId>)
    requires RefsExist(db, item)
    ensures r == Failure(|db.items|)
  {
    var (db1, saved) := AfterItemSaveAsWritten(db, ItemInstance(None, item));
    var key := saved.pk.value;
    if key < |db1.items| then Failure(key)
    else Success((db1, saved))
  }

  /** The literal save breaks the rule that a bill's total is the sum of its items' prices. */
  lemma AsWrittenTotalDrifts()
    ensures var db := Db([Product("Widget", 250, 10, None)], [],
                         [Bill(None, "", "", "", "", User(1, "cashier@example.com"), 9, 0)], []);
      && Consistent(db)
      && RefsExist(db, BillItem(0, 0, 2, 0))
      && !TotalsMatch(AfterItemSaveAsWritten(db, ItemInstance(None, BillItem(0, 0, 2, 0))).0)
      && TotalsMatch(AfterItemSave(db, ItemInstance(None, BillItem(0, 0, 2, 0))).0)
  {
    var db := Db([Product("Widget", 250, 10, None)], [],
                 [Bill(None, "", "", "", "", User(1, "cashier@example.com"), 9, 0)], []);
    var inst := ItemInstance(None, BillItem(0, 0, 2, 0));
    var literal := AfterItemSaveAsWritten(db, inst).0;
    assert ItemsTotal(literal.items, 0) == 500 by {
      assert literal.items == [BillItem(0, 0, 2, 500)];
      assert literal.items[..0] == [];
    }
    ItemSaveKeepsConsistent(db, inst);
  }

  /** A customer save may use the email only if no other customer has it (unique column). */
  predicate EmailFree(customers: seq<Customer>, pk: Option<CustomerId>, email: string)
  {
    forall j :: 0 <= j < |customers| && pk != Some(j) ==> customers[j].email != email
  }

  /**
   * The tables and the customer's primary key after saving customer fields `c` from an
   * instance with key `pk` that remembers `remembered` as its last saved email.
   */
  function AfterCustomerSave(db: Db, pk: Option<CustomerId>, c: Customer, remembered: string): (r: (Db, CustomerId))
    requires pk.Some? ==> pk.value < |db.customers|
    ensures r.1 < |r.0.customers| && r.0.customers[r.1] == c && (pk.Some? ==> r.1 == pk.value)
    ensures |r.0.customers| == |db.customers| + (if pk.None? then 1 else 0)
    ensures forall j :: 0 <= j < |db.customers| && j != r.1 ==> r.0.customers[j] == db.customers[j]
    ensures r.0.products == db.products && r.0.items == db.items && |r.0.bills| == |db.bills|
  {
    match pk
    case None => (db.(customers := db.customers + [c]), |db.customers|)
    case Some(k) =>
      var bills := if c.email != remembered then Signals.Propagated(db.bills, k, c.email) else db.bills;
      (db.(customers := db.customers[k := c], bills := bills), k)
  }

  /**
   * Change detection: the bills change only when the record already exists and its email
   * differs from the remembered one; then every bill linked to it carries the new email.
   */
  lemma PropagationOnlyOnEmailChange(db: Db, pk: Option<CustomerId>, c: Customer, remembered: string)
    requires pk.Some? ==> pk.value < |db.customers|
    ensures var db' := AfterCustomerSave(db, pk, c, remembered).0;
      && (pk.None? || c.email == remembered ==> db'.bills == db.bills)
      && (pk.Some? && c.email != remembered ==> db'.bills == Signals.Propagated(db.bills, pk.value, c.email))
      && (forall b :: 0 <= b < |db'.bills| && pk.Some? && db'.bills[b].customer == pk ==> db'.bills[b].customerEmail == c.email || c.email == remembered)
      && db'.items == db.items && db'.products == db.products
  {
  }

  /** A save whose email is free keeps the tables consistent and stores the fields under the returned key. */
  lemma {:induction false} CustomerSaveKeepsConsistent(db: Db, pk: Option<CustomerId>, c: Customer, remembered: string)
    requires Consistent(db) && (pk.Some? ==> pk.value < |db.customers|) && EmailFree(db.customers, pk, c.email)
    ensures var (db', k) := AfterCustomerSave(db, pk, c, remembered);
      Consistent(db') && k < |db'.customers| && db'.customers[k] == c
  {
    var (db', k) := AfterCustomerSave(db, pk, c, remembered);
    Signals.OnlyEmailSnapshotChanges(db.bills, k, c.email);
    assert forall b :: 0 <= b < |db'.bills| ==>
      db'.bills[b].totalAmount == db.bills[b].totalAmount && db'.bills[b].customer == db.bills[b].customer;
  }

  /** The database: one sequence per table. */
  class Store {
    var products: seq<Product>
    var customers: seq<Customer>
    var bills: seq<Bill>
    var items: seq<BillItem>

    function State(): Db
      reads this
    {
      Db(products, customers, bills, items)
    }

    predicate Valid()
      reads this
    {
      Consistent(State())
    }

    constructor (db: Db)
      requires Consistent(db)
      ensures State() == db && Valid()
    {
      products, customers, bills, items := db.products, db.customers, db.bills, db.items;
    }

    /** `BillItem.save`, intended form: price, then stock, then the bill's running total. */
    method SaveItem(inst: ItemInstance) returns (saved: ItemInstance)
      requires Valid() && RefsExist(State(), inst.item)
      modifies this
      ensures (State(), saved) == AfterItemSave(old(State()), inst)
      ensures Valid()
    {
      ItemSaveKeepsConsistent(State(), inst);
      if inst.pk.Some? {
        return inst;
      }
      var product := products[inst.item.product];
      var row := inst.item.(price := product.price * inst.item.quantity);
      var pk := |items|;
      items := items + [row];
      products := products[row.product := product.(stockQuantity := product.stockQuantity - row.quantity)];
      var bill := bills[row.bill];
      bills := bills[row.bill := bill.(totalAmount := bill.totalAmount + row.price)];
      saved := ItemInstance(Some(pk), row);
    }

    /** The bulk update issued by the email-change propagation. */
    method UpdateRelatedBills(customer: CustomerId, email: string)
      modifies this
      ensures State() == old(State()).(bills := Signals.Propagated(old(bills), customer, email))
    {
      var current := bills;
      var rows := new Bill[|current|](i requires 0 <= i < |current| => current[i]);
      Signals.UpdateRelatedBills(rows, customer, email);
      bills := rows[..];
    }

    /** Inserts or updates the customer row. */
    method WriteCustomer(pk: Option<CustomerId>, c: Customer) returns (k: CustomerId)
      requires pk.Some? ==> pk.value < |customers|
      modifies this
      ensures pk.None? ==> State() == old(State()).(customers := old(customers) + [c]) && k == old(|customers|)
      ensures pk.Some? ==> State() == old(State()).(customers := old(customers)[pk.value := c]) && k == pk.value
    {
      if pk.None? {
        k := |customers|;
        customers := customers + [c];
      } else {
        k := pk.value;
        customers := customers[k := c];
      }
    }

    /** `Bill.objects.create`: inserts the bill row and returns its primary key. */
    method InsertBill(b: Bill) returns (pk: BillId)
      modifies this
      ensures State() == old(State()).(bills := old(bills) + [b]) && pk == old(|bills|)
    {
      pk := |bills|;
      bills := bills + [b];
    }

    /** Restores the tables saved at the start of a transaction. */
    method Rollback(db: Db)
      modifies this
      ensures State() == db
    {
      products, customers, bills, items := db.products, db.customers, db.bills, db.items;
    }
  }

  /** `getattr(customer, field)` for a column name; None for any other name. */
  function Column(c: Customer, field: string): Option<string>
  {
    if field == "name" then Some(c.name)
    else if field == "address" then Some(c.address)
    else if field == "email" then Some(c.email)
    else if field == "phone" then Some(c.phone)
    else None
  }

  /**
   * `setattr(customer, field, value)`: a customer column named `field` takes the value; a name
   * that is not a column only sets an unsaved attribute, so the customer's fields stay as they were.
   */
  function WithField(c: Customer, field: string, value: string): (r: Customer)
    ensures Column(c, field).Some? ==> Column(r, field) == Some(value)
    ensures Column(c, field).None? ==> r == c
    ensures forall f :: f != field ==> Column(r, f) == Column(c, f)
  {
    if field == "name" then c.(name := value)
    else if field == "address" then c.(address := value)
    else if field == "email" then c.(email := value)
    else if field == "phone" then c.(phone := value)
    else c
  }

  /** An in-memory customer instance with the email it remembers from its last save. */
  class CustomerRecord {
    var pk: Option<CustomerId>
    var name: string
    var address: string
    var email: string
    var phone: string
    var oldEmail: string

    function Fields(): Customer
      reads this
    {
      Customer(name, address, email, phone)
    }

    /** Building an instance remembers the email it starts with. */
    constructor (pk: Option<CustomerId>, c: Customer)
      ensures this.pk == pk && Fields() == c && oldEmail == c.email
    {
      this.pk := pk;
      name, address, email, phone := c.name, c.address, c.email, c.phone;
      oldEmail := c.email;
    }

    /** Sets one attribute of the instance; the key and the remembered email are kept. */
    method SetAttr(field: string, value: string)
      modifies this
      ensures Fields() == WithField(old(Fields()), field, value)
      ensures pk == old(pk) && oldEmail == old(oldEmail)
    {
      if field == "name" {
        name := value;
      } else if field == "address" {
        address := value;
      } else if field == "email" {
        email := value;
      } else if field == "phone" {
        phone := value;
      }
    }

    /**
     * Saves the instance: an existing customer whose email differs from the remembered one
     * first has its bills' email snapshot rewritten; a new one gets its primary key. After
     * the save the remembered email is the current one.
     */
    method Save(store: Store)
      requires store.Valid() && (pk.Some? ==> pk.value < |store.customers|)
      requires EmailFree(store.customers, pk, email)
      modifies this, store
      ensures pk.Some? && (old(pk).Some? ==> pk == old(pk))
      ensures (store.State(), pk.value) == AfterCustomerSave(old(store.State()), old(pk), old(Fields()), old(oldEmail))
      ensures Fields() == old(Fields()) && oldEmail == email
      ensures store.Valid()
    {
      CustomerSaveKeepsConsistent(store.State(), pk, Fields(), oldEmail);
      if pk.Some? && email != oldEmail {
        store.UpdateRelatedBills(pk.value, email);
      }
      var k := store.WriteCustomer(pk, Fields());
      pk := Some(k);
      oldEmail := email;
    }
  }
}
