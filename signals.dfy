/**
 * Email-change propagation (store/signals.py, lines 5-8): when a saved customer's email
 * changed, every bill linked to that customer gets the new email in its snapshot.
 * Only `customerEmail` is rewritten; the other snapshot fields stay as they were.
 *
 * The receiver's guard at line 7 asks `hasattr(instance, '_old_email')`, which never holds
 * for a `Customer` (the attribute is declared and set only in `Bill`); here the update is
 * run by the customer's save itself when its remembered email differs (`Models.CustomerRecord`).
 */
module Signals {
  import opened Wrappers
  import opened Records

  /** The bill table after the bulk update `filter(customer=c).update(customer_email=e)`. */
  function Propagated(bills: seq<Bill>, customer: CustomerId, email: string): (r: seq<Bill>)
    ensures |r| == |bills|
    ensures forall i :: 0 <= i < |bills| ==>
      r[i].customer == bills[i].customer && r[i].totalAmount == bills[i].totalAmount && r[i].createdBy == bills[i].createdBy
  {
    seq(|bills|, i requires 0 <= i < |bills| =>
      if bills[i].customer == Some(customer) then bills[i].(customerEmail := email) else bills[i])
  }

  /** The bulk update as a pass over the bill rows, rewriting the matching ones in place. */
  method UpdateRelatedBills(rows: array<Bill>, customer: CustomerId, email: string)
    modifies rows
    ensures rows[..] == Propagated(old(rows[..]), customer, email)
  {
    var i := 0;
    while i < rows.Length
      invariant 0 <= i <= rows.Length
      invariant forall j :: 0 <= j < i ==> rows[j] == Propagated(old(rows[..]), customer, email)[j]
      invariant forall j :: i <= j < rows.Length ==> rows[j] == old(rows[j])
    {
      if rows[i].customer == Some(customer) {
        rows[i] := rows[i].(customerEmail := email);
      }
      i := i + 1;
    }
  }

  /** Every bill linked to the customer carries the new email afterwards. */
  lemma LinkedBillsGetEmail(bills: seq<Bill>, customer: CustomerId, email: string)
    ensures forall i :: 0 <= i < |bills| && bills[i].customer == Some(customer) ==>
      Propagated(bills, customer, email)[i].customerEmail == email
  {
  }

  /**
   * Nothing but the email snapshot changes: the link, name, address, phone, creator,
   * creation hour and total of every bill are kept, and bills linked to other customers
   * or to none are untouched.
   */
  lemma OnlyEmailSnapshotChanges(bills: seq<Bill>, customer: CustomerId, email: string)
    ensures |Propagated(bills, customer, email)| == |bills|
    ensures forall i :: 0 <= i < |bills| ==>
      Propagated(bills, customer, email)[i] == bills[i].(customerEmail := Propagated(bills, customer, email)[i].customerEmail)
    ensures forall i :: 0 <= i < |bills| && bills[i].customer != Some(customer) ==>
      Propagated(bills, customer, email)[i] == bills[i]
  {
  }

  /** Running the update a second time changes nothing further. */
  lemma PropagationIdempotent(bills: seq<Bill>, customer: CustomerId, email: string)
    ensures Propagated(Propagated(bills, customer, email), customer, email) == Propagated(bills, customer, email)
  {
  }
}
