/**
  The bulk actions of the update admin page: `mark_as_featured` and
  `mark_as_published`. Both only ever set a flag to true.
 */
module UpdateAdminActions {
  import opened Seqs
  import opened BulkUpdate
  import opened UpdateModels

  function UpdateIdIn(selected: set<int>): Update -> bool
  {
    (u: Update) => u.id in selected
  }

  function SetFeatured(u: Update): Update { u.(isFeatured := true) }

  function SetPublished(u: Update): Update { u.(isPublished := true) }

  function MarkFeatured(rows: seq<Update>, selected: set<int>): seq<Update>
  {
    UpdateWhere(UpdateIdIn(selected), SetFeatured, rows)
  }

  function MarkPublished(rows: seq<Update>, selected: set<int>): seq<Update>
  {
    UpdateWhere(UpdateIdIn(selected), SetPublished, rows)
  }

  /**
    `mark_as_featured`: an update is featured afterwards exactly when it was featured
    before or is selected (the flag is never cleared), no other field changes, unselected
    updates are untouched, and a second application changes nothing and reports the
    same count.
   */
  lemma MarkFeaturedSpec(rows: seq<Update>, selected: set<int>)
    ensures var r := MarkFeatured(rows, selected);
      && |r| == |rows|
      && (forall i :: 0 <= i < |rows| ==> r[i].isFeatured == (rows[i].isFeatured || rows[i].id in selected))
      && (forall i :: 0 <= i < |rows| ==> r[i].(isFeatured := rows[i].isFeatured) == rows[i])
      && (forall i :: 0 <= i < |rows| && rows[i].id !in selected ==> r[i] == rows[i])
    ensures MarkFeatured(MarkFeatured(rows, selected), selected) == MarkFeatured(rows, selected)
    ensures |Filter(UpdateIdIn(selected), MarkFeatured(rows, selected))| == |Filter(UpdateIdIn(selected), rows)|
  {
    UpdateWhereIdempotent(UpdateIdIn(selected), SetFeatured, rows);
    UpdateWhereCount(UpdateIdIn(selected), SetFeatured, rows);
  }

  /** `mark_as_published`, with the same guarantees for `is_published`. */
  lemma MarkPublishedSpec(rows: seq<Update>, selected: set<int>)
    ensures var r := MarkPublished(rows, selected);
      && |r| == |rows|
      && (forall i :: 0 <= i < |rows| ==> r[i].isPublished == (rows[i].isPublished || rows[i].id in selected))
      && (forall i :: 0 <= i < |rows| ==> r[i].(isPublished := rows[i].isPublished) == rows[i])
      && (forall i :: 0 <= i < |rows| && rows[i].id !in selected ==> r[i] == rows[i])
    ensures MarkPublished(MarkPublished(rows, selected), selected) == MarkPublished(rows, selected)
    ensures |Filter(UpdateIdIn(selected), MarkPublished(rows, selected))| == |Filter(UpdateIdIn(selected), rows)|
  {
    UpdateWhereIdempotent(UpdateIdIn(selected), SetPublished, rows);
    UpdateWhereCount(UpdateIdIn(selected), SetPublished, rows);
  }

  /** `UpdateAdmin` over the updates table. */
  class UpdateAdmin {
    var rows: seq<Update>

    constructor(rows: seq<Update>)
      ensures this.rows == rows
    {
      this.rows := rows;
    }

    method MarkAsFeatured(selected: set<int>) returns (updated: nat)
      modifies this
      ensures rows == MarkFeatured(old(rows), selected)
      ensures updated == |Filter(UpdateIdIn(selected), old(rows))|
    {
      var r, n := ApplyUpdate(UpdateIdIn(selected), SetFeatured, rows);
      rows, updated := r, n;
    }

    method MarkAsPublished(selected: set<int>) returns (updated: nat)
      modifies this
      ensures rows == MarkPublished(old(rows), selected)
      ensures updated == |Filter(UpdateIdIn(selected), old(rows))|
    {
      var r, n := ApplyUpdate(UpdateIdIn(selected), SetPublished, rows);
      rows, updated := r, n;
    }
  }
}
