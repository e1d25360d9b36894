/**
 * The persisted records of the point-of-sale store (store/models.py, lines 4-31 and 46-50)
 * and the consistency rules the database keeps between them.
 *
 * Every table is a sequence and a record's primary key is its position in that sequence.
 * Money is a whole number of cents (the source's DecimalField with two decimal places).
 */
module Records {
  import opened Wrappers

  type Cents = int
  type ProductId = nat
  type CustomerId = nat
  type BillId = nat
  type ItemId = nat

  /** The hour of a bill's creation time, the only part of the timestamp the core reads. */
  type Hour = h: int | 0 <= h < 24

  /** Stock is a plain integer: the sale path decrements it without a lower bound. */
  datatype Product = Product(name: string, price: Cents, stockQuantity: int, description: Option<string>)

  datatype Customer = Customer(name: string, address: string, email: string, phone: string)

  /** The authenticated user who creates a bill (the cashier). */
  datatype User = User(id: nat, email: string)

  /**
   * A bill keeps a snapshot of its customer's fields taken at creation; `customer` is the
   * nullable link to the customer record itself.
   */
  datatype Bill = Bill(
    customer: Option<CustomerId>,
    customerName: string,
    customerEmail: string,
    customerAddress: string,
    customerPhone: string,
    createdBy: User,
    createdAt: Hour,
    totalAmount: Cents)

  /** `price` is the extended line price: unit price times quantity at the moment of sale. */
  datatype BillItem = BillItem(bill: BillId, product: ProductId, quantity: nat, price: Cents)

  /** The four tables. */
  datatype Db = Db(products: seq<Product>, customers: seq<Customer>, bills: seq<Bill>, items: seq<BillItem>)

  /** Every foreign key points at an existing row. */
  predicate LinksValid(db: Db)
  {
    && (forall i :: 0 <= i < |db.items| ==>
          db.items[i].bill < |db.bills| && db.items[i].product < |db.products|)
    && (forall b :: 0 <= b < |db.bills| && db.bills[b].customer.Some? ==>
          db.bills[b].customer.value < |db.customers|)
  }

  /** Customer emails are unique (`unique=True` on the email column). */
  predicate EmailsUnique(customers: seq<Customer>)
  {
    forall i, j :: 0 <= i < j < |customers| ==> customers[i].email != customers[j].email
  }

  /** The sum of the prices of the items that belong to bill `b`. */
  function ItemsTotal(items: seq<BillItem>, b: BillId): Cents
  {
    if items == [] then 0
    else
      var last := items[|items| - 1];
      ItemsTotal(items[..|items| - 1], b) + (if last.bill == b then last.price else 0)
  }

  /** Every bill's total equals the sum of its items' prices. */
  predicate TotalsMatch(db: Db)
  {
    forall b :: 0 <= b < |db.bills| ==> db.bills[b].totalAmount == ItemsTotal(db.items, b)
  }

  predicate Consistent(db: Db)
  {
    LinksValid(db) && EmailsUnique(db.customers) && TotalsMatch(db)
  }

  /** A bill with no items contributes nothing: adding items of other bills leaves `b`'s sum alone. */
  lemma {:induction false} ItemsTotalOfAbsentBill(items: seq<BillItem>, b: BillId)
    requires forall i :: 0 <= i < |items| ==> items[i].bill < b
    ensures ItemsTotal(items, b) == 0
  {
    if items != [] {
      ItemsTotalOfAbsentBill(items[..|items| - 1], b);
    }
  }
}
