/**
  The bulk actions of the geo entities' admin pages. Each admin holds its model's table
  and each action updates the rows of the selection in place, returning how many rows it
  updated. `queryset.update` writes only the named columns: the `auto_now` timestamps
  (`last_updated`, `updated_at`) are not refreshed by these actions.
 */
module GeoAdmin {
  import opened Wrappers
  import opened Seqs
  import opened BulkUpdate
  import opened OutbreakModels

  // ---------------------------------------------------------------------------
  // Selections and per-row changes
  // ---------------------------------------------------------------------------

  function OutbreakIdIn(selected: set<int>): Outbreak -> bool
  {
    (o: Outbreak) => o.id in selected
  }

  function DipTankIdIn(selected: set<int>): DipTank -> bool
  {
    (d: DipTank) => d.id in selected
  }

  function CordonLineIdIn(selected: set<int>): CordonLine -> bool
  {
    (c: CordonLine) => c.id in selected
  }

  function StationIdIn(selected: set<int>): FootWashStation -> bool
  {
    (s: FootWashStation) => s.id in selected
  }

  function SetVerified(o: Outbreak): Outbreak { o.(isVerified := true) }

  function SetCleared(now: Timestamp): Outbreak -> Outbreak
  {
    (o: Outbreak) => o.(status := "cleared", dateCleared := Some(now))
  }

  function SetAffected(b: bool): DipTank -> DipTank
  {
    (d: DipTank) => d.(isAffected := b)
  }

  function SetDipTankActive(d: DipTank): DipTank { d.(isActive := true) }

  function SetCordonActive(c: CordonLine): CordonLine { c.(status := "active", isActive := true) }

  function SetCordonInactive(c: CordonLine): CordonLine { c.(status := "inactive") }

  function SetOperational(b: bool): FootWashStation -> FootWashStation
  {
    (s: FootWashStation) => s.(isOperational := b)
  }

  // ---------------------------------------------------------------------------
  // The tables after each action
  // ---------------------------------------------------------------------------

  function MarkVerified(rows: seq<Outbreak>, selected: set<int>): seq<Outbreak>
  {
    UpdateWhere(OutbreakIdIn(selected), SetVerified, rows)
  }

  function MarkCleared(rows: seq<Outbreak>, selected: set<int>, now: Timestamp): seq<Outbreak>
  {
    UpdateWhere(OutbreakIdIn(selected), SetCleared(now), rows)
  }

  function MarkAffected(rows: seq<DipTank>, selected: set<int>, affected: bool): seq<DipTank>
  {
    UpdateWhere(DipTankIdIn(selected), SetAffected(affected), rows)
  }

  function MarkDipTankActive(rows: seq<DipTank>, selected: set<int>): seq<DipTank>
  {
    UpdateWhere(DipTankIdIn(selected), SetDipTankActive, rows)
  }

  function MarkCordonActive(rows: seq<CordonLine>, selected: set<int>): seq<CordonLine>
  {
    UpdateWhere(CordonLineIdIn(selected), SetCordonActive, rows)
  }

  function MarkCordonInactive(rows: seq<CordonLine>, selected: set<int>): seq<CordonLine>
  {
    UpdateWhere(CordonLineIdIn(selected), SetCordonInactive, rows)
  }

  function MarkOperational(rows: seq<FootWashStation>, selected: set<int>, operational: bool): seq<FootWashStation>
  {
    UpdateWhere(StationIdIn(selected), SetOperational(operational), rows)
  }

  // ---------------------------------------------------------------------------
  // What each action does
  // ---------------------------------------------------------------------------

  /**
    `mark_as_verified`: every selected outbreak is verified afterwards, a row's flag is
    set exactly when it was set before or the row is selected, no other field of any row
    changes, unselected rows are untouched, and a second application changes nothing and
    reports the same count.
   */
  lemma MarkVerifiedSpec(rows: seq<Outbreak>, selected: set<int>)
    ensures var r := MarkVerified(rows, selected);
      && |r| == |rows|
      && (forall i :: 0 <= i < |rows| ==> r[i].isVerified == (rows[i].isVerified || rows[i].id in selected))
      && (forall i :: 0 <= i < |rows| ==> r[i].(isVerified := rows[i].isVerified) == rows[i])
      && (forall i :: 0 <= i < |rows| && rows[i].id !in selected ==> r[i] == rows[i])
    ensures MarkVerified(MarkVerified(rows, selected), selected) == MarkVerified(rows, selected)
    ensures |Filter(OutbreakIdIn(selected), MarkVerified(rows, selected))| == |Filter(OutbreakIdIn(selected), rows)|
  {
    UpdateWhereIdempotent(OutbreakIdIn(selected), SetVerified, rows);
    UpdateWhereCount(OutbreakIdIn(selected), SetVerified, rows);
  }

  /**
    `mark_as_cleared`: every selected outbreak gets status "cleared" and the same clearing
    time `now`; all other fields and all unselected rows are unchanged. Applying it twice
    with the same time is applying it once.
   */
  lemma MarkClearedSpec(rows: seq<Outbreak>, selected: set<int>, now: Timestamp)
    ensures var r := MarkCleared(rows, selected, now);
      && |r| == |rows|
      && (forall i :: 0 <= i < |rows| && rows[i].id in selected ==>
            r[i].status == "cleared" && r[i].dateCleared == Some(now))
      && (forall i :: 0 <= i < |rows| ==>
            r[i].(status := rows[i].status, dateCleared := rows[i].dateCleared) == rows[i])
      && (forall i :: 0 <= i < |rows| && rows[i].id !in selected ==> r[i] == rows[i])
    ensures MarkCleared(MarkCleared(rows, selected, now), selected, now) == MarkCleared(rows, selected, now)
    ensures |Filter(OutbreakIdIn(selected), MarkCleared(rows, selected, now))| == |Filter(OutbreakIdIn(selected), rows)|
  {
    UpdateWhereIdempotent(OutbreakIdIn(selected), SetCleared(now), rows);
    UpdateWhereCount(OutbreakIdIn(selected), SetCleared(now), rows);
  }

  /** All selected outbreaks share one clearing time, whatever their former state. */
  lemma MarkClearedSharedTime(rows: seq<Outbreak>, selected: set<int>, now: Timestamp, i: nat, j: nat)
    requires i < |rows| && j < |rows| && rows[i].id in selected && rows[j].id in selected
    ensures MarkCleared(rows, selected, now)[i].dateCleared == MarkCleared(rows, selected, now)[j].dateCleared
  {
  }

  /**
    `mark_as_affected` (affected = true) and `mark_as_clear` (affected = false): each
    selected tank's flag becomes the given value and nothing else changes; idempotent.
   */
  lemma MarkAffectedSpec(rows: seq<DipTank>, selected: set<int>, affected: bool)
    ensures var r := MarkAffected(rows, selected, affected);
      && |r| == |rows|
      && (forall i :: 0 <= i < |rows| ==>
            r[i].isAffected == (if rows[i].id in selected then affected else rows[i].isAffected))
      && (forall i :: 0 <= i < |rows| ==> r[i].(isAffected := rows[i].isAffected) == rows[i])
    ensures MarkAffected(MarkAffected(rows, selected, affected), selected, affected) == MarkAffected(rows, selected, affected)
    ensures |Filter(DipTankIdIn(selected), MarkAffected(rows, selected, affected))| == |Filter(DipTankIdIn(selected), rows)|
  {
    UpdateWhereIdempotent(DipTankIdIn(selected), SetAffected(affected), rows);
    UpdateWhereCount(DipTankIdIn(selected), SetAffected(affected), rows);
  }

  /** The last of `mark_as_affected` and `mark_as_clear` decides a selected tank's flag. */
  lemma ClearUndoesAffected(rows: seq<DipTank>, selected: set<int>)
    ensures MarkAffected(MarkAffected(rows, selected, true), selected, false) == MarkAffected(rows, selected, false)
  {
  }

  /** The dip-tank `mark_as_active`: sets `is_active` on the selection, nothing else; idempotent. */
  lemma MarkDipTankActiveSpec(rows: seq<DipTank>, selected: set<int>)
    ensures var r := MarkDipTankActive(rows, selected);
      && |r| == |rows|
      && (forall i :: 0 <= i < |rows| ==> r[i].isActive == (rows[i].isActive || rows[i].id in selected))
      && (forall i :: 0 <= i < |rows| ==> r[i].(isActive := rows[i].isActive) == rows[i])
    ensures MarkDipTankActive(MarkDipTankActive(rows, selected), selected) == MarkDipTankActive(rows, selected)
    ensures |Filter(DipTankIdIn(selected), MarkDipTankActive(rows, selected))| == |Filter(DipTankIdIn(selected), rows)|
  {
    UpdateWhereIdempotent(DipTankIdIn(selected), SetDipTankActive, rows);
    UpdateWhereCount(DipTankIdIn(selected), SetDipTankActive, rows);
  }

  /**
    The cordon-line `mark_as_active` sets both the status and the active flag of the
    selection; nothing else changes; idempotent.
   */
  lemma MarkCordonActiveSpec(rows: seq<CordonLine>, selected: set<int>)
    ensures var r := MarkCordonActive(rows, selected);
      && |r| == |rows|
      && (forall i :: 0 <= i < |rows| && rows[i].id in selected ==> r[i].status == "active" && r[i].isActive)
      && (forall i :: 0 <= i < |rows| ==> r[i].(status := rows[i].status, isActive := rows[i].isActive) == rows[i])
      && (forall i :: 0 <= i < |rows| && rows[i].id !in selected ==> r[i] == rows[i])
    ensures MarkCordonActive(MarkCordonActive(rows, selected), selected) == MarkCordonActive(rows, selected)
    ensures |Filter(CordonLineIdIn(selected), MarkCordonActive(rows, selected))| == |Filter(CordonLineIdIn(selected), rows)|
  {
    UpdateWhereIdempotent(CordonLineIdIn(selected), SetCordonActive, rows);
    UpdateWhereCount(CordonLineIdIn(selected), SetCordonActive, rows);
  }

  /**
    The cordon-line `mark_as_inactive` sets only the status: the `is_active` flag of every
    row, selected or not, is what it was, so an "inactive" line can still be listed.
   */
  lemma MarkCordonInactiveSpec(rows: seq<CordonLine>, selected: set<int>)
    ensures var r := MarkCordonInactive(rows, selected);
      && |r| == |rows|
      && (forall i :: 0 <= i < |rows| && rows[i].id in selected ==> r[i].status == "inactive")
      && (forall i :: 0 <= i < |rows| ==> r[i].isActive == rows[i].isActive)
      && (forall i :: 0 <= i < |rows| ==> r[i].(status := rows[i].status) == rows[i])
      && (forall i :: 0 <= i < |rows| && rows[i].id !in selected ==> r[i] == rows[i])
    ensures MarkCordonInactive(MarkCordonInactive(rows, selected), selected) == MarkCordonInactive(rows, selected)
    ensures |Filter(CordonLineIdIn(selected), MarkCordonInactive(rows, selected))| == |Filter(CordonLineIdIn(selected), rows)|
  {
    UpdateWhereIdempotent(CordonLineIdIn(selected), SetCordonInactive, rows);
    UpdateWhereCount(CordonLineIdIn(selected), SetCordonInactive, rows);
  }

  /**
    `mark_as_operational` (true) and `mark_as_non_operational` (false) change only
    `is_operational`, on the selected stations; idempotent.
   */
  lemma MarkOperationalSpec(rows: seq<FootWashStation>, selected: set<int>, operational: bool)
    ensures var r := MarkOperational(rows, selected, operational);
      && |r| == |rows|
      && (forall i :: 0 <= i < |rows| ==>
            r[i].isOperational == (if rows[i].id in selected then operational else rows[i].isOperational))
      && (forall i :: 0 <= i < |rows| ==> r[i].(isOperational := rows[i].isOperational) == rows[i])
    ensures MarkOperational(MarkOperational(rows, selected, operational), selected, operational)
            == MarkOperational(rows, selected, operational)
    ensures |Filter(StationIdIn(selected), MarkOperational(rows, selected, operational))| == |Filter(StationIdIn(selected), rows)|
  {
    UpdateWhereIdempotent(StationIdIn(selected), SetOperational(operational), rows);
    UpdateWhereCount(StationIdIn(selected), SetOperational(operational), rows);
  }

  // ---------------------------------------------------------------------------
  // The admin pages
  // ---------------------------------------------------------------------------

  /** `OutbreakAdmin` over the outbreaks table. */
  class OutbreakAdmin {
    var rows: seq<Outbreak>

    constructor(rows: seq<Outbreak>)
      ensures this.rows == rows
    {
      this.rows := rows;
    }

    method MarkAsVerified(selected: set<int>) returns (updated: nat)
      modifies this
      ensures rows == MarkVerified(old(rows), selected)
      ensures updated == |Filter(OutbreakIdIn(selected), old(rows))|
    {
      var r, n := ApplyUpdate(OutbreakIdIn(selected), SetVerified, rows);
      rows, updated := r, n;
    }

    /** `timezone.now()` is read once, so it is passed in as `now`. */
    method MarkAsCleared(selected: set<int>, now: Timestamp) returns (updated: nat)
      modifies this
      ensures rows == MarkCleared(old(rows), selected, now)
      ensures updated == |Filter(OutbreakIdIn(selected), old(rows))|
    {
      var r, n := ApplyUpdate(OutbreakIdIn(selected), SetCleared(now), rows);
      rows, updated := r, n;
    }
  }

  /** `DipTankAdmin` over the dip-tank table. */
  class DipTankAdmin {
    var rows: seq<DipTank>

    constructor(rows: seq<DipTank>)
      ensures this.rows == rows
    {
      this.rows := rows;
    }

    method MarkAsAffected(selected: set<int>) returns (updated: nat)
      modifies this
      ensures rows == MarkAffected(old(rows), selected, true)
      ensures updated == |Filter(DipTankIdIn(selected), old(rows))|
    {
      var r, n := ApplyUpdate(DipTankIdIn(selected), SetAffected(true), rows);
      rows, updated := r, n;
    }

    method MarkAsClear(selected: set<int>) returns (updated: nat)
      modifies this
      ensures rows == MarkAffected(old(rows), selected, false)
      ensures updated == |Filter(DipTankIdIn(selected), old(rows))|
    {
      var r, n := ApplyUpdate(DipTankIdIn(selected), SetAffected(false), rows);
      rows, updated := r, n;
    }

    method MarkAsActive(selected: set<int>) returns (updated: nat)
      modifies this
      ensures rows == MarkDipTankActive(old(rows), selected)
      ensures updated == |Filter(DipTankIdIn(selected), old(rows))|
    {
      var r, n := ApplyUpdate(DipTankIdIn(selected), SetDipTankActive, rows);
      rows, updated := r, n;
    }
  }

  /** `CordonLineAdmin` over the cordon-line table. */
  class CordonLineAdmin {
    var rows: seq<CordonLine>

    constructor(rows: seq<CordonLine>)
      ensures this.rows == rows
    {
      this.rows := rows;
    }

    method MarkAsActive(selected: set<int>) returns (updated: nat)
      modifies this
      ensures rows == MarkCordonActive(old(rows), selected)
      ensures updated == |Filter(CordonLineIdIn(selected), old(rows))|
    {
      var r, n := ApplyUpdate(CordonLineIdIn(selected), SetCordonActive, rows);
      rows, updated := r, n;
    }

    method MarkAsInactive(selected: set<int>) returns (updated: nat)
      modifies this
      ensures rows == MarkCordonInactive(old(rows), selected)
      ensures updated == |Filter(CordonLineIdIn(selected), old(rows))|
    {
      var r, n := ApplyUpdate(CordonLineIdIn(selected), SetCordonInactive, rows);
      rows, updated := r, n;
    }
  }

  /** `FootWashStationAdmin` over the station table. */
  class FootWashStationAdmin {
    var rows: seq<FootWashStation>

    constructor(rows: seq<FootWashStation>)
      ensures this.rows == rows
    {
      this.rows := rows;
    }

    method MarkAsOperational(selected: set<int>) returns (updated: nat)
      modifies this
      ensures rows == MarkOperational(old(rows), selected, true)
      ensures updated == |Filter(StationIdIn(selected), old(rows))|
    {
      var r, n := ApplyUpdate(StationIdIn(selected), SetOperational(true), rows);
      rows, updated := r, n;
    }

    method MarkAsNonOperational(selected: set<int>) returns (updated: nat)
      modifies this
      ensures rows == MarkOperational(old(rows), selected, false)
      ensures updated == |Filter(StationIdIn(selected), old(rows))|
    {
      var r, n := ApplyUpdate(StationIdIn(selected), SetOperational(false), rows);
      rows, updated := r, n;
    }
  }
}
