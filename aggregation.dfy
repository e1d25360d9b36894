/**
 * The aggregation steps the analytics queries are built from (store/views.py, lines 135-190):
 * `.values(key)` turns the selected records into rows, `.annotate(Sum, Count)` groups the rows
 * by key, and `.order_by('-field')` sorts the groups in descending order.
 *
 * The database leaves the order among groups with equal sort fields unspecified; the model
 * sorts stably, and its properties state only the descending order.
 */
module Aggregation {

  /** One selected record: its grouping key and the quantity `Sum` adds up. */
  datatype Row<K> = Row(key: K, amount: nat)

  /** One output group: its key, the `Sum` of its rows' amounts and the `Count` of its rows. */
  datatype Group<K> = Group(key: K, total: nat, count: nat)

  /** The sort fields of `order_by`, each descending. */
  datatype Order = ByTotalThenCount | ByTotal | ByCount

  // Reference definitions of Sum and Count per key.

  function SumFor<K(==)>(rows: seq<Row<K>>, k: K): nat
  {
    if rows == [] then 0
    else SumFor(rows[..|rows| - 1], k) + (if rows[|rows| - 1].key == k then rows[|rows| - 1].amount else 0)
  }

  function CountFor<K(==)>(rows: seq<Row<K>>, k: K): nat
  {
    if rows == [] then 0
    else CountFor(rows[..|rows| - 1], k) + (if rows[|rows| - 1].key == k then 1 else 0)
  }

  function SumAll<K(==)>(rows: seq<Row<K>>): nat
  {
    if rows == [] then 0 else SumAll(rows[..|rows| - 1]) + rows[|rows| - 1].amount
  }

  function KeysOf<K(==)>(rows: seq<Row<K>>): set<K>
  {
    set i | 0 <= i < |rows| :: rows[i].key
  }

  function GroupKeys<K(==)>(gs: seq<Group<K>>): set<K>
  {
    set i | 0 <= i < |gs| :: gs[i].key
  }

  /** Each key names at most one group. */
  predicate Distinct<K(==)>(gs: seq<Group<K>>)
  {
    forall i, j :: 0 <= i < j < |gs| ==> gs[i].key != gs[j].key
  }

  /** Every group carries the Sum and Count of the rows with its key. */
  predicate Tallied<K(==)>(gs: seq<Group<K>>, rows: seq<Row<K>>)
  {
    forall i :: 0 <= i < |gs| ==> gs[i].total == SumFor(rows, gs[i].key) && gs[i].count == CountFor(rows, gs[i].key)
  }

  function TotalOf<K(==)>(gs: seq<Group<K>>): nat
  {
    if gs == [] then 0 else gs[0].total + TotalOf(gs[1..])
  }

  function CountOf<K(==)>(gs: seq<Group<K>>): nat
  {
    if gs == [] then 0 else gs[0].count + CountOf(gs[1..])
  }

  lemma GroupKeysCons<K>(g: Group<K>, gs: seq<Group<K>>)
    ensures GroupKeys([g] + gs) == {g.key} + GroupKeys(gs)
  {
    var r := [g] + gs;
    forall k | k in GroupKeys(r) ensures k in {g.key} + GroupKeys(gs) {
      var i :| 0 <= i < |r| && r[i].key == k;
      if i > 0 {
        assert gs[i - 1].key == k;
      }
    }
    forall k | k in GroupKeys(gs) ensures k in GroupKeys(r) {
      var i :| 0 <= i < |gs| && gs[i].key == k;
      assert r[i + 1].key == k;
    }
    assert r[0].key == g.key;
  }

  lemma GroupKeysSnoc<K>(gs: seq<Group<K>>, g: Group<K>)
    ensures GroupKeys(gs + [g]) == GroupKeys(gs) + {g.key}
  {
    var r := gs + [g];
    forall k | k in GroupKeys(r) ensures k in GroupKeys(gs) + {g.key} {
      var i :| 0 <= i < |r| && r[i].key == k;
      if i < |gs| {
        assert gs[i].key == k;
      }
    }
    forall k | k in GroupKeys(gs) ensures k in GroupKeys(r) {
      var i :| 0 <= i < |gs| && gs[i].key == k;
      assert r[i].key == k;
    }
    assert r[|gs|].key == g.key;
  }

  // Grouping, one row at a time.

  /** The position of the group with key `k`, or `|gs|` when there is none. */
  function IndexOf<K(==)>(gs: seq<Group<K>>, k: K): (i: nat)
    ensures i <= |gs|
    ensures i < |gs| ==> gs[i].key == k
    ensures i == |gs| <==> k !in GroupKeys(gs)
  {
    if gs == [] then 0
    else if gs[0].key == k then 0
    else
      assert gs == [gs[0]] + gs[1..];
      GroupKeysCons(gs[0], gs[1..]);
      1 + IndexOf(gs[1..], k)
  }

  /** Adds one row: its group's Sum and Count grow, or a new group is opened after the others. */
  function Add<K(==)>(gs: seq<Group<K>>, row: Row<K>): seq<Group<K>>
  {
    var i := IndexOf(gs, row.key);
    if i == |gs| then gs + [Group(row.key, row.amount, 1)]
    else gs[i := gs[i].(total := gs[i].total + row.amount, count := gs[i].count + 1)]
  }

  /** `.values(key).annotate(...)`: the groups in order of their keys' first appearance. */
  function GroupRows<K(==)>(rows: seq<Row<K>>): (r: seq<Group<K>>)
    ensures Distinct(r) && |r| <= |rows|
  {
    if rows == [] then []
    else
      var gs := GroupRows(rows[..|rows| - 1]);
      AddKeepsDistinct(gs, rows[|rows| - 1]);
      Add(gs, rows[|rows| - 1])
  }

  lemma {:induction false} TotalOfAppend<K>(gs: seq<Group<K>>, g: Group<K>)
    ensures TotalOf(gs + [g]) == TotalOf(gs) + g.total && CountOf(gs + [g]) == CountOf(gs) + g.count
  {
    if gs != [] {
      assert (gs + [g])[1..] == gs[1..] + [g];
      TotalOfAppend(gs[1..], g);
    }
  }

  lemma {:induction false} TotalOfUpdate<K>(gs: seq<Group<K>>, i: nat, g: Group<K>)
    requires i < |gs|
    ensures TotalOf(gs[i := g]) == TotalOf(gs) - gs[i].total + g.total
    ensures CountOf(gs[i := g]) == CountOf(gs) - gs[i].count + g.count
  {
    if i == 0 {
      assert gs[i := g][1..] == gs[1..];
    } else {
      assert gs[i := g][1..] == gs[1..][i - 1 := g];
      TotalOfUpdate(gs[1..], i - 1, g);
    }
  }

  lemma {:induction false} AbsentKeyTallies<K>(rows: seq<Row<K>>, k: K)
    requires k !in KeysOf(rows)
    ensures SumFor(rows, k) == 0 && CountFor(rows, k) == 0
  {
    if rows != [] {
      var init := rows[..|rows| - 1];
      assert forall i :: 0 <= i < |init| ==> init[i] == rows[i];
      assert k !in KeysOf(init);
      AbsentKeyTallies(init, k);
    }
  }

  lemma KeysOfSnoc<K>(rows: seq<Row<K>>)
    requires rows != []
    ensures KeysOf(rows) == KeysOf(rows[..|rows| - 1]) + {rows[|rows| - 1].key}
  {
    var init := rows[..|rows| - 1];
    forall k | k in KeysOf(init) ensures k in KeysOf(rows) {
      var i :| 0 <= i < |init| && init[i].key == k;
      assert rows[i].key == k;
    }
    assert rows[|rows| - 1].key in KeysOf(rows);
  }

  /** The invariant of grouping: distinct keys, the rows' keys, and per-key Sums and Counts. */
  predicate GroupsOf<K(==)>(gs: seq<Group<K>>, rows: seq<Row<K>>)
  {
    Distinct(gs) && GroupKeys(gs) == KeysOf(rows) && Tallied(gs, rows)
  }

  lemma AddKeepsDistinct<K>(gs: seq<Group<K>>, row: Row<K>)
    requires Distinct(gs)
    ensures Distinct(Add(gs, row)) && GroupKeys(Add(gs, row)) == GroupKeys(gs) + {row.key}
  {
    var i := IndexOf(gs, row.key);
    var r := Add(gs, row);
    if i == |gs| {
      GroupKeysSnoc(gs, Group(row.key, row.amount, 1));
      forall a, b | 0 <= a < b < |r| ensures r[a].key != r[b].key {
        if b == |gs| {
          assert r[a].key in GroupKeys(gs);
        }
      }
    } else {
      assert forall a :: 0 <= a < |gs| ==> r[a].key == gs[a].key;
      assert GroupKeys(r) == GroupKeys(gs) by {
        forall k | k in GroupKeys(r) ensures k in GroupKeys(gs) {
          var a :| 0 <= a < |r| && r[a].key == k;
        }
        forall k | k in GroupKeys(gs) ensures k in GroupKeys(r) {
          var a :| 0 <= a < |gs| && gs[a].key == k;
        }
      }
    }
  }

  lemma AddKeepsTallied<K>(gs: seq<Group<K>>, rows: seq<Row<K>>)
    requires rows != [] && GroupsOf(gs, rows[..|rows| - 1])
    ensures Tallied(Add(gs, rows[|rows| - 1]), rows)
  {
    var init, row := rows[..|rows| - 1], rows[|rows| - 1];
    var r := Add(gs, row);
    var i := IndexOf(gs, row.key);
    if i == |gs| {
      assert row.key !in KeysOf(init);
      AbsentKeyTallies(init, row.key);
    }
    forall a | 0 <= a < |r| ensures r[a].total == SumFor(rows, r[a].key) && r[a].count == CountFor(rows, r[a].key) {
      if a < |gs| && a != i {
        assert gs[a].key != row.key;
      }
    }
  }

  lemma AddKeepsTotals<K>(gs: seq<Group<K>>, row: Row<K>)
    ensures TotalOf(Add(gs, row)) == TotalOf(gs) + row.amount && CountOf(Add(gs, row)) == CountOf(gs) + 1
  {
    var i := IndexOf(gs, row.key);
    if i == |gs| {
      TotalOfAppend(gs, Group(row.key, row.amount, 1));
    } else {
      TotalOfUpdate(gs, i, gs[i].(total := gs[i].total + row.amount, count := gs[i].count + 1));
    }
  }

  /**
   * Grouping is correct against the per-key reference sums: one group per distinct key,
   * each with the Sum and Count of that key's rows, and nothing lost or counted twice.
   */
  lemma {:induction false} GroupRowsCorrect<K>(rows: seq<Row<K>>)
    ensures GroupsOf(GroupRows(rows), rows)
    ensures TotalOf(GroupRows(rows)) == SumAll(rows) && CountOf(GroupRows(rows)) == |rows|
  {
    if rows != [] {
      var init, row := rows[..|rows| - 1], rows[|rows| - 1];
      GroupRowsCorrect(init);
      var gs0 := GroupRows(init);
      AddKeepsDistinct(gs0, row);
      KeysOfSnoc(rows);
      AddKeepsTallied(gs0, rows);
      AddKeepsTotals(gs0, row);
    }
  }

  // Sorting, descending.

  /** `a` may come before `b` under the descending sort fields. */
  predicate Precedes<K(==)>(a: Group<K>, b: Group<K>, order: Order)
  {
    match order
    case ByTotalThenCount => a.total > b.total || (a.total == b.total && a.count >= b.count)
    case ByTotal => a.total >= b.total
    case ByCount => a.count >= b.count
  }

  predicate SortedBy<K(==)>(gs: seq<Group<K>>, order: Order)
  {
    forall i, j :: 0 <= i < j < |gs| ==> Precedes(gs[i], gs[j], order)
  }

  function Insert<K(==)>(g: Group<K>, gs: seq<Group<K>>, order: Order): seq<Group<K>>
  {
    if gs == [] || Precedes(g, gs[0], order) then [g] + gs
    else [gs[0]] + Insert(g, gs[1..], order)
  }

  /** `.order_by(...)`: an insertion sort, stable among equal sort fields. */
  function Sort<K(==)>(gs: seq<Group<K>>, order: Order): (r: seq<Group<K>>)
    ensures multiset(r) == multiset(gs) && |r| == |gs|
  {
    if gs == [] then []
    else
      var tail := Sort(gs[1..], order);
      InsertKeeps(gs[0], tail, order);
      assert gs == [gs[0]] + gs[1..];
      Insert(gs[0], tail, order)
  }

  lemma {:induction false} InsertKeeps<K>(g: Group<K>, gs: seq<Group<K>>, order: Order)
    ensures multiset(Insert(g, gs, order)) == multiset(gs) + multiset{g}
    ensures TotalOf(Insert(g, gs, order)) == TotalOf(gs) + g.total
    ensures CountOf(Insert(g, gs, order)) == CountOf(gs) + g.count
  {
    if gs == [] || Precedes(g, gs[0], order) {
      assert ([g] + gs)[1..] == gs;
    } else {
      var rest := Insert(g, gs[1..], order);
      InsertKeeps(g, gs[1..], order);
      assert ([gs[0]] + rest)[1..] == rest;
      assert gs == [gs[0]] + gs[1..];
    }
  }

  lemma {:induction false} InsertKeys<K>(g: Group<K>, gs: seq<Group<K>>, order: Order)
    ensures GroupKeys(Insert(g, gs, order)) == GroupKeys(gs) + {g.key}
  {
    if gs == [] || Precedes(g, gs[0], order) {
      GroupKeysCons(g, gs);
    } else {
      var rest := Insert(g, gs[1..], order);
      InsertKeys(g, gs[1..], order);
      GroupKeysCons(gs[0], rest);
      assert gs == [gs[0]] + gs[1..];
      GroupKeysCons(gs[0], gs[1..]);
    }
  }

  lemma {:induction false} InsertSorted<K>(g: Group<K>, gs: seq<Group<K>>, order: Order)
    requires SortedBy(gs, order)
    ensures SortedBy(Insert(g, gs, order), order)
  {
    if gs == [] || Precedes(g, gs[0], order) {
      var r := [g] + gs;
      forall i, j | 0 <= i < j < |r| ensures Precedes(r[i], r[j], order) {
        if i == 0 && j > 1 {
          assert Precedes(gs[0], gs[j - 1], order);
        }
      }
    } else {
      assert SortedBy(gs[1..], order);
      var rest := Insert(g, gs[1..], order);
      InsertSorted(g, gs[1..], order);
      InsertKeeps(g, gs[1..], order);
      var r := [gs[0]] + rest;
      forall j | 0 < j < |r| ensures Precedes(gs[0], r[j], order) {
        assert r[j] in multiset(rest);
        if r[j] != g {
          assert r[j] in multiset(gs[1..]);
          var k :| 0 <= k < |gs[1..]| && gs[1..][k] == r[j];
          assert gs[k + 1] == r[j];
        }
      }
    }
  }

  /** The sort yields a descending permutation of the groups with the same Sum and Count totals. */
  lemma {:induction false} SortCorrect<K>(gs: seq<Group<K>>, order: Order)
    ensures var s := Sort(gs, order);
      && SortedBy(s, order) && multiset(s) == multiset(gs)
      && TotalOf(s) == TotalOf(gs) && CountOf(s) == CountOf(gs)
  {
    if gs != [] {
      var tail := Sort(gs[1..], order);
      SortCorrect(gs[1..], order);
      InsertSorted(gs[0], tail, order);
      InsertKeeps(gs[0], tail, order);
      assert gs == [gs[0]] + gs[1..];
    }
  }

  /** Sorting keeps the set of keys and their distinctness. */
  lemma {:induction false} SortKeepsKeys<K>(gs: seq<Group<K>>, order: Order)
    ensures GroupKeys(Sort(gs, order)) == GroupKeys(gs)
    ensures Distinct(gs) ==> Distinct(Sort(gs, order))
  {
    if gs != [] {
      var tail := Sort(gs[1..], order);
      SortKeepsKeys(gs[1..], order);
      InsertKeys(gs[0], tail, order);
      assert gs == [gs[0]] + gs[1..];
      GroupKeysCons(gs[0], gs[1..]);
      if Distinct(gs) {
        assert Distinct(gs[1..]);
        assert gs[0].key !in GroupKeys(gs[1..]);
        InsertDistinct(gs[0], tail, order);
      }
    }
  }

  lemma {:induction false} InsertDistinct<K>(g: Group<K>, gs: seq<Group<K>>, order: Order)
    requires Distinct(gs) && g.key !in GroupKeys(gs)
    ensures Distinct(Insert(g, gs, order))
  {
    if gs == [] || Precedes(g, gs[0], order) {
      var r := [g] + gs;
      forall i, j | 0 <= i < j < |r| ensures r[i].key != r[j].key {
        if i == 0 {
          assert r[j] == gs[j - 1];
        }
      }
    } else {
      assert Distinct(gs[1..]);
      assert gs == [gs[0]] + gs[1..];
      GroupKeysCons(gs[0], gs[1..]);
      var rest := Insert(g, gs[1..], order);
      InsertDistinct(g, gs[1..], order);
      InsertKeys(g, gs[1..], order);
      var r := [gs[0]] + rest;
      forall i, j | 0 <= i < j < |r| ensures r[i].key != r[j].key {
        if i == 0 {
          assert r[j].key in GroupKeys(rest);
        }
      }
    }
  }

  /** The full `values` / `annotate` / `order_by` pipeline. */
  function Aggregate<K(==)>(rows: seq<Row<K>>, order: Order): (r: seq<Group<K>>)
    ensures SortedBy(r, order) && TotalOf(r) == SumAll(rows) && CountOf(r) == |rows|
  {
    GroupRowsCorrect(rows);
    SortCorrect(GroupRows(rows), order);
    Sort(GroupRows(rows), order)
  }

  /**
   * Aggregation is correct: sorted descending, one group per distinct key of the rows, each
   * carrying that key's Sum and Count, and the Sums and Counts add up to the rows' totals.
   */
  lemma AggregateCorrect<K>(rows: seq<Row<K>>, order: Order)
    ensures var gs := Aggregate(rows, order);
      && SortedBy(gs, order) && Distinct(gs) && GroupKeys(gs) == KeysOf(rows) && Tallied(gs, rows)
      && TotalOf(gs) == SumAll(rows) && CountOf(gs) == |rows|
  {
    var grouped := GroupRows(rows);
    GroupRowsCorrect(rows);
    SortCorrect(grouped, order);
    SortKeepsKeys(grouped, order);
    var gs := Sort(grouped, order);
    forall i | 0 <= i < |gs| ensures gs[i].total == SumFor(rows, gs[i].key) && gs[i].count == CountFor(rows, gs[i].key) {
      assert gs[i] in multiset(grouped);
      var j :| 0 <= j < |grouped| && grouped[j] == gs[i];
    }
  }
}
