/**
  `queryset.update(field=value, ...)` as the admin actions use it: the named fields are
  set on every selected row, nothing else changes, and the number of selected rows is
  returned. Rows are selected by primary key.
 */
module BulkUpdate {
  import opened Seqs

  /** The table after `change` has been applied to exactly the rows `chosen` names. */
  function UpdateWhere<T>(chosen: T -> bool, change: T -> T, rows: seq<T>): (r: seq<T>)
    ensures |r| == |rows|
    ensures forall i :: 0 <= i < |rows| ==> r[i] == if chosen(rows[i]) then change(rows[i]) else rows[i]
  {
    seq(|rows|, i requires 0 <= i < |rows| => if chosen(rows[i]) then change(rows[i]) else rows[i])
  }

  /**
    One pass over the table, as the single UPDATE statement does it: the new table and
    the number of rows it changed.
   */
  method ApplyUpdate<T>(chosen: T -> bool, change: T -> T, rows: seq<T>) returns (updated: seq<T>, count: nat)
    ensures updated == UpdateWhere(chosen, change, rows)
    ensures count == |Filter(chosen, rows)|
  {
    updated := [];
    count := 0;
    for i := 0 to |rows|
      invariant |updated| == i
      invariant forall k :: 0 <= k < i ==> updated[k] == if chosen(rows[k]) then change(rows[k]) else rows[k]
      invariant count == |Filter(chosen, rows[..i])|
    {
      assert rows[..i + 1] == rows[..i] + [rows[i]];
      FilterAppend(chosen, rows[..i], [rows[i]]);
      assert Filter(chosen, [rows[i]]) == if chosen(rows[i]) then [rows[i]] else [];
      if chosen(rows[i]) {
        updated := updated + [change(rows[i])];
        count := count + 1;
      } else {
        updated := updated + [rows[i]];
      }
    }
    assert rows[..|rows|] == rows;
  }

  /**
    An update that does not move rows in or out of the selection selects the same number
    of rows afterwards, so a second application reports the same count.
   */
  lemma {:induction false} UpdateWhereCount<T>(chosen: T -> bool, change: T -> T, rows: seq<T>)
    requires forall x :: chosen(change(x)) == chosen(x)
    ensures |Filter(chosen, UpdateWhere(chosen, change, rows))| == |Filter(chosen, rows)|
  {
    if rows != [] {
      UpdateWhereCount(chosen, change, rows[1..]);
      assert UpdateWhere(chosen, change, rows)[1..] == UpdateWhere(chosen, change, rows[1..]);
    }
  }

  /**
    Setting fields to fixed values is idempotent: applying the update to its own result
    changes nothing more.
   */
  lemma UpdateWhereIdempotent<T>(chosen: T -> bool, change: T -> T, rows: seq<T>)
    requires forall x :: chosen(change(x)) == chosen(x)
    requires forall x :: change(change(x)) == change(x)
    ensures UpdateWhere(chosen, change, UpdateWhere(chosen, change, rows)) == UpdateWhere(chosen, change, rows)
  {
  }
}
