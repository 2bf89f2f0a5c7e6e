/** The append-only audit table and its retention purge (alembic/versions/f6a7b8c9d0e1_audit_log_immutability.py:39-54,
    scripts/purge_audit_logs.py:47-94). Run as the table's owner outside row-level security. */
module AuditPurge {
  import opened Common

  /** `deleted` is the rows_deleted entry of a completion record's metadata. */
  datatype Row = Row(id: string, action: string, createdAt: real, deleted: nat)

  datatype Table = Table(rows: seq<Row>, guarded: bool)

  const INITIATED := "audit.purge_initiated"
  const COMPLETED := "audit.purge_completed"
  const PURGE_PREFIX := "audit.purge"

  predicate IsPurgeRecord(row: Row) {
    PURGE_PREFIX <= row.action
  }

  predicate Older(row: Row, cutoff: real) {
    row.createdAt < cutoff
  }

  predicate Doomed(row: Row, cutoff: real) {
    Older(row, cutoff) && !IsPurgeRecord(row)
  }

  function DoomedBy(cutoff: real): Row -> bool {
    row => Doomed(row, cutoff)
  }

  function Kept(rows: seq<Row>, cutoff: real): seq<Row> {
    if rows == [] then []
    else if Doomed(rows[0], cutoff) then Kept(rows[1..], cutoff)
    else [rows[0]] + Kept(rows[1..], cutoff)
  }

  function CountDoomed(rows: seq<Row>, cutoff: real): nat {
    if rows == [] then 0 else CountDoomed(rows[1..], cutoff) + (if Doomed(rows[0], cutoff) then 1 else 0)
  }

  function CountOlder(rows: seq<Row>, cutoff: real): nat {
    if rows == [] then 0 else CountOlder(rows[1..], cutoff) + (if Older(rows[0], cutoff) then 1 else 0)
  }

  function CountOldPurgeRecords(rows: seq<Row>, cutoff: real): nat {
    if rows == [] then 0
    else CountOldPurgeRecords(rows[1..], cutoff) + (if Older(rows[0], cutoff) && IsPurgeRecord(rows[0]) then 1 else 0)
  }

  function PurgeRecords(rows: seq<Row>): seq<Row> {
    if rows == [] then []
    else if IsPurgeRecord(rows[0]) then [rows[0]] + PurgeRecords(rows[1..])
    else PurgeRecords(rows[1..])
  }

  /** The sum of rows_deleted over the completion records. */
  function Reported(rows: seq<Row>): nat {
    if rows == [] then 0 else Reported(rows[1..]) + (if rows[0].action == COMPLETED then rows[0].deleted else 0)
  }

  /** What a DELETE leaves when nothing stops it. */
  function Remaining(rows: seq<Row>, where: Row -> bool): seq<Row> {
    if rows == [] then []
    else if where(rows[0]) then Remaining(rows[1..], where)
    else [rows[0]] + Remaining(rows[1..], where)
  }

  predicate Matches(rows: seq<Row>, where: Row -> bool) {
    exists i :: 0 <= i < |rows| && where(rows[i])
  }

  /** DELETE FROM audit_logs WHERE ...: with the row trigger installed the first matching row raises (None)
      and takes the statement back; without it the matching rows go. */
  function Delete(t: Table, where: Row -> bool): Option<Table> {
    if t.guarded && Matches(t.rows, where) then None else Some(t.(rows := Remaining(t.rows, where)))
  }

  lemma {:induction false} RemainingRows(rows: seq<Row>, where: Row -> bool)
    ensures forall row :: row in Remaining(rows, where) <==> row in rows && !where(row)
    decreases |rows|
  {
    if rows != [] {
      RemainingRows(rows[1..], where);
      assert forall row :: row in rows <==> row == rows[0] || row in rows[1..];
    }
  }

  lemma MatchesNext(rows: seq<Row>, where: Row -> bool)
    requires rows != []
    ensures Matches(rows, where) <==> where(rows[0]) || Matches(rows[1..], where)
  {
    if i :| 0 <= i < |rows| - 1 && where(rows[1..][i]) {
      assert rows[i + 1] == rows[1..][i];
    }
    if i :| 1 <= i < |rows| && where(rows[i]) {
      assert rows[i] == rows[1..][i - 1];
    }
  }

  lemma {:induction false} NothingRemoved(rows: seq<Row>, where: Row -> bool)
    ensures !Matches(rows, where) ==> Remaining(rows, where) == rows
    decreases |rows|
  {
    if rows != [] {
      NothingRemoved(rows[1..], where);
      MatchesNext(rows, where);
    }
  }

  /** Behind the trigger a DELETE either raises or matches nothing; without it, it removes exactly what it matches. */
  lemma TriggerDecides(t: Table, where: Row -> bool)
    ensures Delete(t, where).None? <==> t.guarded && Matches(t.rows, where)
    ensures t.guarded && Delete(t, where).Some? ==> Delete(t, where).value == t
    ensures !t.guarded ==> Delete(t, where).Some?
    ensures !t.guarded ==> forall row :: row in Delete(t, where).value.rows <==> row in t.rows && !where(row)
  {
    RemainingRows(t.rows, where);
    NothingRemoved(t.rows, where);
  }

  lemma {:induction false} KeptIsRemaining(rows: seq<Row>, cutoff: real)
    ensures Kept(rows, cutoff) == Remaining(rows, DoomedBy(cutoff))
    ensures CountDoomed(rows, cutoff) > 0 <==> Matches(rows, DoomedBy(cutoff))
    decreases |rows|
  {
    if rows != [] {
      KeptIsRemaining(rows[1..], cutoff);
      MatchesNext(rows, DoomedBy(cutoff));
    }
  }

  /** The purge's statements after its first INSERT. */
  datatype Statement =
    | DropTrigger
    | DeleteAndReport(id: string)
    | CreateTrigger

  /** One statement of the purge transaction on its working copy; None is an SQL error. */
  function Execute(t: Table, st: Statement, now: real, cutoff: real): Option<Table> {
    match st
    case DropTrigger => if t.guarded then Some(t.(guarded := false)) else None
    case DeleteAndReport(id) =>
      (match Delete(t, DoomedBy(cutoff))
       case None => None
       case Some(u) => Some(u.(rows := u.rows + [Row(id, COMPLETED, now, CountDoomed(t.rows, cutoff))])))
    case CreateTrigger => if t.guarded then None else Some(t.(guarded := true))
  }

  /** What the committed purge leaves of the rows. */
  function Purged(rows: seq<Row>, now: real, cutoff: real, first: string, second: string): seq<Row> {
    Kept(rows, cutoff) + [Row(first, INITIATED, now, 0), Row(second, COMPLETED, now, CountDoomed(rows, cutoff))]
  }

  class AuditLog {
    var rows: seq<Row>
    var guarded: bool        // the BEFORE UPDATE OR DELETE trigger is installed
    ghost var inserted: nat  // rows ever inserted and committed

    ghost predicate Valid()
      reads this
    {
      guarded && inserted == |rows| + Reported(rows)
    }

    constructor ()
      ensures Valid() && rows == []
    {
      rows, guarded, inserted := [], true, 0;
    }

    /** record_audit's INSERT. Application actions never pose as purge completions. */
    method Insert(row: Row)
      requires Valid() && row.action != COMPLETED
      modifies this
      ensures Valid() && rows == old(rows) + [row] && inserted == old(inserted) + 1
    {
      AppendReports(rows, row);
      rows := rows + [row];
      inserted := inserted + 1;
    }

    /** A DELETE by anyone: row by row, the trigger raising on the first match. */
    method TryDelete(where: Row -> bool) returns (raised: bool)
      modifies this`rows
      ensures raised <==> Delete(Table(old(rows), guarded), where).None?
      ensures rows == if raised then old(rows) else Delete(Table(old(rows), guarded), where).value.rows
      ensures old(Valid()) ==> Valid() && rows == old(rows)
    {
      ghost var before := rows;
      var kept: seq<Row> := [];
      var i := |rows|;
      while i > 0
        invariant 0 <= i <= |rows| && rows == before
        invariant kept == Remaining(rows[i..], where)
        invariant guarded ==> !Matches(rows[i..], where)
      {
        i := i - 1;
        assert rows[i..][1..] == rows[i + 1..] && rows[i..][0] == rows[i];
        MatchesNext(rows[i..], where);
        if where(rows[i]) {
          if guarded {
            return true;
          }
        } else {
          kept := [rows[i]] + kept;
        }
      }
      assert rows[0..] == rows;
      NothingRemoved(rows, where);
      rows := kept;
      return false;
    }

    /** What others commit to the table while the purge has not locked it: records, even a purge of their own. */
    method Elsewhere()
      requires Valid()
      modifies this
      ensures Valid() && PurgeRecords(old(rows)) <= PurgeRecords(rows)
    {
    }

    /** The transaction from DROP TRIGGER on, when nobody else can touch the table: its statements run on a working
        copy that becomes visible all at once or not at all. `failsAt` counts from the transaction's first INSERT. */
    method Transact(now: real, cutoff: real, first: string, second: string, failsAt: Option<nat>)
      returns (committed: bool)
      requires Valid() && cutoff <= now && (failsAt.None? || failsAt.value >= 1)
      modifies this
      ensures Valid() && PurgeRecords(old(rows)) <= PurgeRecords(rows)
      ensures committed <==> failsAt.None? || failsAt.value >= 4
      ensures rows == if committed then Purged(old(rows), now, cutoff, first, second) else old(rows)
      ensures inserted == old(inserted) + (if committed then 2 else 0)
    {
      ghost var seen := rows;
      var own := [Row(first, INITIATED, now, 0)];
      PurgeEffects(seen, now, cutoff, first, second);
      KeptIsRemaining(seen + own, cutoff);
      var script := [DropTrigger, DeleteAndReport(second), CreateTrigger];
      var work := Table(rows + own, guarded);
      var i := 0;
      while i < |script|
        invariant 0 <= i <= 3 && rows == seen && guarded && inserted == old(inserted)
        invariant failsAt.None? || failsAt.value > i
        invariant work == Table(
          if i <= 1 then seen + own else Purged(seen, now, cutoff, first, second),
          i == 0 || i == 3)
      {
        if failsAt == Some(i + 1) {
          return false;
        }
        var next := Execute(work, script[i], now, cutoff);
        if next.None? {
          return false;
        }
        work := next.value;
        i := i + 1;
      }
      rows, guarded := work.rows, work.guarded;
      inserted := inserted + 2;
      return true;
    }

    /** The purge script. `failsAt` is where the connection is lost or psql is killed, if anywhere. Others may commit
        until DROP TRIGGER takes the table's exclusive lock; `seen` is what they have committed by then. */
    method Purge(now: real, days: nat, first: string, second: string, failsAt: Option<nat>)
      returns (committed: bool, seen: seq<Row>)
      requires Valid() && days >= 1
      modifies this
      ensures Valid() && PurgeRecords(old(rows)) <= PurgeRecords(seen) <= PurgeRecords(rows)
      ensures committed <==> failsAt.None? || failsAt.value >= 4
      ensures !committed ==> rows == seen
      ensures committed ==> inserted == |seen| + Reported(seen) + 2
      ensures committed ==>
        forall row :: row in seen ==>
          (row !in rows <==> row.createdAt < now - (days * 86400) as real && !("audit.purge" <= row.action))
      ensures committed ==>
        && 2 <= |rows| <= |seen| + 2
        && rows[|rows| - 2] == Row(first, "audit.purge_initiated", now, 0)
        && rows[|rows| - 1] == Row(second, "audit.purge_completed", now, |seen| + 2 - |rows|)
        && rows == Purged(seen, now, now - (days * 86400) as real, first, second)
    {
      if failsAt == Some(0) {
        return false, rows;
      }
      Elsewhere();
      seen := rows;
      var cutoff := now - (days * 86400) as real;
      committed := Transact(now, cutoff, first, second, failsAt);
      NewRecordsStay(seen, now, cutoff, first, second);
    }

    /** --dry-run */
    method DryRun(now: real, days: nat) returns (count: nat)
      ensures var cutoff := now - (days * 86400) as real;
        count == |set i | 0 <= i < |rows| && rows[i].createdAt < cutoff|
        && count == CountDoomed(rows, cutoff) + CountOldPurgeRecords(rows, cutoff)
    {
      var cutoff := now - (days * 86400) as real;
      DryRunCounts(rows, cutoff);
      OlderAreCounted(rows, cutoff);
      count := 0;
      var i := |rows|;
      while i > 0
        invariant 0 <= i <= |rows| && count == CountOlder(rows[i..], cutoff)
      {
        i := i - 1;
        assert rows[i..][1..] == rows[i + 1..];
        if Older(rows[i], cutoff) {
          count := count + 1;
        }
      }
      assert rows[0..] == rows;
    }
  }

  lemma {:induction false} CountOlderAppend(rows: seq<Row>, row: Row, cutoff: real)
    ensures CountOlder(rows + [row], cutoff) == CountOlder(rows, cutoff) + (if Older(row, cutoff) then 1 else 0)
    decreases |rows|
  {
    if rows == [] {
      assert rows + [row] == [row] && [row][1..] == [];
    } else {
      CountOlderAppend(rows[1..], row, cutoff);
      assert (rows + [row])[1..] == rows[1..] + [row];
    }
  }

  function OlderPlaces(rows: seq<Row>, cutoff: real): set<int> {
    set i | 0 <= i < |rows| && rows[i].createdAt < cutoff
  }

  lemma {:induction false} OlderAreCounted(rows: seq<Row>, cutoff: real)
    ensures CountOlder(rows, cutoff) == |set i | 0 <= i < |rows| && rows[i].createdAt < cutoff|
    decreases |rows|
  {
    assert OlderPlaces(rows, cutoff) == set i | 0 <= i < |rows| && rows[i].createdAt < cutoff;
    if rows == [] {
      assert OlderPlaces(rows, cutoff) == {};
    } else {
      var n := |rows| - 1;
      var rest := rows[..n];
      OlderAreCounted(rest, cutoff);
      assert rows == rest + [rows[n]];
      CountOlderAppend(rest, rows[n], cutoff);
      assert OlderPlaces(rest, cutoff) == set i | 0 <= i < |rest| && rest[i].createdAt < cutoff;
      PlacesAppend(rest, rows[n], cutoff);
    }
  }

  lemma PlacesAppend(rows: seq<Row>, row: Row, cutoff: real)
    ensures |OlderPlaces(rows + [row], cutoff)|
         == |OlderPlaces(rows, cutoff)| + (if row.createdAt < cutoff then 1 else 0)
  {
    var all, rest := OlderPlaces(rows + [row], cutoff), OlderPlaces(rows, cutoff);
    assert all == rest + (if row.createdAt < cutoff then {|rows|} else {});
  }

  /** The two new records are not among the doomed, whatever their ids. */
  lemma NewRecordsStay(rows: seq<Row>, now: real, cutoff: real, first: string, second: string)
    requires cutoff <= now
    ensures var after := Purged(rows, now, cutoff, first, second);
      && 2 <= |after| <= |rows| + 2
      && after[|after| - 2] == Row(first, INITIATED, now, 0)
      && after[|after| - 1] == Row(second, COMPLETED, now, |rows| + 2 - |after|)
    ensures forall row :: row in rows ==>
      (row !in Purged(rows, now, cutoff, first, second) <==> row.createdAt < cutoff && !("audit.purge" <= row.action))
  {
    KeptEffects(rows, cutoff);
    assert "audit.purge" <= INITIATED && "audit.purge" <= COMPLETED;
    forall row | row in rows
      ensures row !in Purged(rows, now, cutoff, first, second)
        <==> row.createdAt < cutoff && !("audit.purge" <= row.action)
    {
      var start, end := Row(first, INITIATED, now, 0), Row(second, COMPLETED, now, CountDoomed(rows, cutoff));
      assert Purged(rows, now, cutoff, first, second) == Kept(rows, cutoff) + [start, end];
      assert row == start ==> IsPurgeRecord(row);
      assert row == end ==> IsPurgeRecord(row);
    }
  }

  lemma {:induction false} AppendReports(rows: seq<Row>, row: Row)
    ensures Reported(rows + [row]) == Reported(rows) + (if row.action == COMPLETED then row.deleted else 0)
    ensures PurgeRecords(rows + [row]) == PurgeRecords(rows) + (if IsPurgeRecord(row) then [row] else [])
    decreases |rows|
  {
    if rows == [] {
      assert rows + [row] == [row];
      assert [row][1..] == [];
    } else {
      AppendReports(rows[1..], row);
      assert (rows + [row])[1..] == rows[1..] + [row];
    }
  }

  lemma {:induction false} KeptAppend(rows: seq<Row>, row: Row, cutoff: real)
    requires !Doomed(row, cutoff)
    ensures Kept(rows + [row], cutoff) == Kept(rows, cutoff) + [row]
    ensures CountDoomed(rows + [row], cutoff) == CountDoomed(rows, cutoff)
    decreases |rows|
  {
    if rows == [] {
      assert rows + [row] == [row];
      assert [row][1..] == [];
    } else {
      KeptAppend(rows[1..], row, cutoff);
      assert (rows + [row])[1..] == rows[1..] + [row];
    }
  }

  lemma {:induction false} KeptCounts(rows: seq<Row>, cutoff: real)
    ensures |Kept(rows, cutoff)| + CountDoomed(rows, cutoff) == |rows|
    decreases |rows|
  {
    if rows != [] {
      KeptCounts(rows[1..], cutoff);
    }
  }

  lemma ConsRecords(row: Row, rows: seq<Row>)
    ensures Reported([row] + rows) == Reported(rows) + (if row.action == COMPLETED then row.deleted else 0)
    ensures PurgeRecords([row] + rows) == if IsPurgeRecord(row) then [row] + PurgeRecords(rows) else PurgeRecords(rows)
  {
    assert ([row] + rows)[1..] == rows;
  }

  lemma {:induction false} KeptRecords(rows: seq<Row>, cutoff: real)
    ensures Reported(Kept(rows, cutoff)) == Reported(rows)
    ensures PurgeRecords(Kept(rows, cutoff)) == PurgeRecords(rows)
    decreases |rows|
  {
    if rows != [] {
      var row, rest := rows[0], rows[1..];
      KeptRecords(rest, cutoff);
      ConsRecords(row, Kept(rest, cutoff));
      assert row.action == COMPLETED ==> IsPurgeRecord(row);
    }
  }

  /** The purge removes exactly the doomed rows and no purge record; what it removes it reports. */
  lemma KeptEffects(rows: seq<Row>, cutoff: real)
    ensures |Kept(rows, cutoff)| + CountDoomed(rows, cutoff) == |rows|
    ensures Reported(Kept(rows, cutoff)) == Reported(rows)
    ensures PurgeRecords(Kept(rows, cutoff)) == PurgeRecords(rows)
    ensures forall row :: row in Kept(rows, cutoff) <==> row in rows && !Doomed(row, cutoff)
  {
    KeptCounts(rows, cutoff);
    KeptRecords(rows, cutoff);
    KeptIsRemaining(rows, cutoff);
    RemainingRows(rows, DoomedBy(cutoff));
  }

  lemma PurgeEffects(rows: seq<Row>, now: real, cutoff: real, first: string, second: string)
    requires cutoff <= now
    ensures var start := Row(first, INITIATED, now, 0);
      && Kept(rows + [start], cutoff) == Kept(rows, cutoff) + [start]
      && CountDoomed(rows + [start], cutoff) == CountDoomed(rows, cutoff)
      && Purged(rows, now, cutoff, first, second)
         == Kept(rows + [start], cutoff) + [Row(second, COMPLETED, now, CountDoomed(rows + [start], cutoff))]
    ensures |Purged(rows, now, cutoff, first, second)| + Reported(Purged(rows, now, cutoff, first, second))
         == |rows| + Reported(rows) + 2
    ensures PurgeRecords(rows) <= PurgeRecords(Purged(rows, now, cutoff, first, second))
  {
    var start, end := Row(first, INITIATED, now, 0), Row(second, COMPLETED, now, CountDoomed(rows, cutoff));
    var kept := Kept(rows, cutoff);
    KeptAppend(rows, start, cutoff);
    KeptEffects(rows, cutoff);
    AppendReports(kept, start);
    AppendReports(kept + [start], end);
    assert Purged(rows, now, cutoff, first, second) == kept + [start] + [end];
  }

  /** The dry run counts old purge records too, so it announces exactly what would be deleted when there are none. */
  lemma {:induction false} DryRunCounts(rows: seq<Row>, cutoff: real)
    ensures CountOlder(rows, cutoff) == CountDoomed(rows, cutoff) + CountOldPurgeRecords(rows, cutoff)
    ensures CountOlder(rows, cutoff) == CountDoomed(rows, cutoff)
        <==> !exists i :: 0 <= i < |rows| && Older(rows[i], cutoff) && IsPurgeRecord(rows[i])
    decreases |rows|
  {
    if rows != [] {
      DryRunCounts(rows[1..], cutoff);
      assert forall i :: 1 <= i < |rows| ==> rows[i] == rows[1..][i - 1];
      assert forall i :: 0 <= i < |rows| - 1 ==> rows[1..][i] == rows[i + 1];
    }
  }

  /** One old purge record: the dry run announces one row, the purge deletes none. */
  lemma OldPurgeRecordIsAnnounced(cutoff: real)
    ensures var rows := [Row("p", COMPLETED, cutoff - 1.0, 0)];
      CountOlder(rows, cutoff) == 1 && CountDoomed(rows, cutoff) == 0 && Kept(rows, cutoff) == rows
  {
    var record := Row("p", COMPLETED, cutoff - 1.0, 0);
    assert PURGE_PREFIX <= COMPLETED;
    assert [record][1..] == [];
    assert CountOlder([record][1..], cutoff) == 0 && CountDoomed([record][1..], cutoff) == 0;
    assert Kept([record][1..], cutoff) == [];
  }
}
