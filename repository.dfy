/**
 * The generic repository over one table, held in memory as a sequence of
 * rows in table order. A row maps column names to values; a row is
 * soft-deleted when it has a `deletedAt` column holding something other than
 * null. The `where` filter of every query is an abstract predicate on rows.
 */
module BaseRepository {
  import opened Wrappers
  import opened AppErrors

  datatype Value = VNull | VBool(b: bool) | VStr(s: string) | VInt(i: int) | VTime(t: int)

  type Entity = map<string, Value>

  const DeletedAt := "deletedAt"

  predicate SoftDeleted(e: Entity): (b: bool)
    ensures DeletedAt in e && e[DeletedAt].VTime? ==> b
    ensures DeletedAt !in e || e[DeletedAt] == VNull ==> !b
  {
    DeletedAt in e && e[DeletedAt] != VNull
  }

  /** What a query sees: soft-deleted rows only with `withDeleted`. */
  predicate Visible(e: Entity, withDeleted: bool): (b: bool)
    ensures withDeleted ==> b
    ensures DeletedAt !in e || e[DeletedAt] == VNull ==> b
    ensures DeletedAt in e && e[DeletedAt].VTime? ==> (b <==> withDeleted)
  {
    withDeleted || !SoftDeleted(e)
  }

  predicate Selected(e: Entity, where: Entity -> bool, withDeleted: bool): (b: bool)
    ensures b ==> where(e)
    ensures b && !withDeleted ==> !SoftDeleted(e)
    ensures where(e) && (withDeleted || DeletedAt !in e || e[DeletedAt] == VNull) ==> b
  {
    where(e) && Visible(e, withDeleted)
  }

  /** The rows a query returns, in table order. */
  function Matching(rows: seq<Entity>, where: Entity -> bool, withDeleted: bool): (s: seq<Entity>)
    ensures |s| <= |rows|
    ensures forall e :: e in s ==> e in rows && Selected(e, where, withDeleted)
    ensures forall i :: 0 <= i < |rows| && Selected(rows[i], where, withDeleted) ==> rows[i] in s
    decreases |rows|
  {
    if rows == [] then []
    else (if Selected(rows[0], where, withDeleted) then [rows[0]] else []) + Matching(rows[1..], where, withDeleted)
  }

  /** The position of the first selected row. */
  function FirstIndex(rows: seq<Entity>, where: Entity -> bool, withDeleted: bool): (r: Option<nat>)
    ensures r.Some? ==> r.value < |rows| && Selected(rows[r.value], where, withDeleted)
    ensures r.Some? ==> forall j :: 0 <= j < r.value ==> !Selected(rows[j], where, withDeleted)
    ensures r.None? ==> forall j :: 0 <= j < |rows| ==> !Selected(rows[j], where, withDeleted)
    decreases |rows|
  {
    if rows == [] then None
    else if Selected(rows[0], where, withDeleted) then Some(0)
    else match FirstIndex(rows[1..], where, withDeleted)
      case None => None
      case Some(k) => Some(k + 1)
  }

  /** The first row of the query's answer is the row at the first selected position. */
  lemma {:induction false} FirstIndexIsFirstMatch(rows: seq<Entity>, where: Entity -> bool, withDeleted: bool)
    ensures FirstIndex(rows, where, withDeleted).None? <==> Matching(rows, where, withDeleted) == []
    ensures FirstIndex(rows, where, withDeleted).Some? ==>
              Matching(rows, where, withDeleted)[0] == rows[FirstIndex(rows, where, withDeleted).value]
    decreases |rows|
  {
    if rows != [] && !Selected(rows[0], where, withDeleted) {
      FirstIndexIsFirstMatch(rows[1..], where, withDeleted);
    }
  }

  /**
   * `skip` and then `take`. The query builder applies each only when it is
   * truthy, so an offset or a limit of 0 is the same as none.
   */
  function Page(s: seq<Entity>, offset: Option<nat>, limit: Option<nat>): (p: seq<Entity>)
    ensures (offset.None? || offset == Some(0)) && (limit.None? || limit == Some(0)) ==> p == s
    ensures limit.Some? && limit.value > 0 ==> |p| <= limit.value
    ensures limit.Some? && limit.value > 0 && offset.None? ==> |p| == if limit.value < |s| then limit.value else |s|
    ensures |p| <= |s|
    ensures offset.None? ==> forall k :: 0 <= k < |p| ==> p[k] == s[k]
    ensures offset.Some? && offset.value <= |s| ==> |p| <= |s| - offset.value && forall k :: 0 <= k < |p| ==> p[k] == s[offset.value + k]
    ensures offset.Some? && offset.value <= |s| ==>
              |p| == if limit.Some? && 0 < limit.value < |s| - offset.value then limit.value else |s| - offset.value
    ensures offset.Some? && offset.value > |s| ==> p == []
  {
    var rest := if offset.Some? && offset.value <= |s| then s[offset.value..]
                else if offset.Some? then [] else s;
    if limit.Some? && 0 < limit.value < |rest| then rest[..limit.value] else rest
  }

  /** The rows that a hard delete keeps. */
  function Unmatched(rows: seq<Entity>, where: Entity -> bool): (s: seq<Entity>)
    ensures forall e :: e in s ==> e in rows && !where(e)
    ensures forall i :: 0 <= i < |rows| && !where(rows[i]) ==> rows[i] in s
    ensures |s| + |Matching(rows, where, true)| == |rows|
    decreases |rows|
  {
    if rows == [] then []
    else (if where(rows[0]) then [] else [rows[0]]) + Unmatched(rows[1..], where)
  }

  /** The entity with the data's value in every column both have; its other columns as they were. */
  function Overwrite(e: Entity, data: Entity): (r: Entity)
    ensures r.Keys == e.Keys
    ensures forall k :: k in e && k in data ==> r[k] == data[k]
    ensures forall k :: k in e && k !in data ==> r[k] == e[k]
  {
    map k | k in e :: if k in data then data[k] else e[k]
  }

  /** The table after `updateRecord`: the first selected row overwritten with the data, if there is one. */
  function UpdatedRows(rows: seq<Entity>, where: Entity -> bool, data: Entity, withDeleted: bool): (r: seq<Entity>)
    ensures |r| == |rows|
    ensures FirstIndex(rows, where, withDeleted).None? ==> r == rows
    ensures FirstIndex(rows, where, withDeleted).Some? ==>
              var i := FirstIndex(rows, where, withDeleted).value;
              r[i] == Overwrite(rows[i], data) && forall j :: 0 <= j < |rows| && j != i ==> r[j] == rows[j]
  {
    match FirstIndex(rows, where, withDeleted)
    case None => rows
    case Some(i) => rows[i := Overwrite(rows[i], data)]
  }

  /** The row `create` plus `save` stores: the data over what the database fills in itself. */
  function Created(data: Entity, filled: Entity): (r: Entity)
    ensures r.Keys == data.Keys + filled.Keys
    ensures forall k :: k in data ==> r[k] == data[k]
    ensures forall k :: k in filled && k !in data ==> r[k] == filled[k]
  {
    map k | k in data.Keys + filled.Keys :: if k in data then data[k] else filled[k]
  }

  /** The value a soft delete (now) or a restore (null) writes. */
  function StampFor(isDelete: bool, now: int): (v: Value)
    ensures isDelete <==> v.VTime?
    ensures !isDelete ==> v == VNull
  {
    if isDelete then VTime(now) else VNull
  }

  /** Every selected row with its `deletedAt` set to `v`, the others unchanged. */
  function Stamped(rows: seq<Entity>, where: Entity -> bool, withDeleted: bool, v: Value): (r: seq<Entity>)
    ensures |r| == |rows|
    ensures forall i :: 0 <= i < |rows| ==>
              r[i] == if Selected(rows[i], where, withDeleted) then rows[i][DeletedAt := v] else rows[i]
  {
    seq(|rows|, i requires 0 <= i < |rows| => if Selected(rows[i], where, withDeleted) then rows[i][DeletedAt := v] else rows[i])
  }

  function NoSoftDeletion(target: string): Thrown {
    PlainError("Entity " + target + " does not support soft deletion", Captured)
  }

  /** One table, named `target`, with its rows in table order. */
  class Repository {
    var rows: seq<Entity>
    const target: string

    constructor(target: string, rows: seq<Entity>)
      ensures this.target == target && this.rows == rows
    {
      this.target := target;
      this.rows := rows;
    }

    /** `findOne`: the first matching row, soft-deleted rows only when asked. */
    function FindOne(where: Entity -> bool, withDeleted: Option<bool>): (r: Option<Entity>)
      reads this
      ensures r.None? <==> forall j :: 0 <= j < |rows| ==> !Selected(rows[j], where, withDeleted.GetOr(false))
      ensures r.Some? ==> r.value in rows && where(r.value) && (withDeleted != Some(true) ==> !SoftDeleted(r.value))
      ensures r.Some? ==> r == Some(Matching(rows, where, withDeleted.GetOr(false))[0])
    {
      FirstIndexIsFirstMatch(rows, where, withDeleted.GetOr(false));
      match FirstIndex(rows, where, withDeleted.GetOr(false))
      case None => None
      case Some(i) => Some(rows[i])
    }

    /** `findMany`: the matching rows, after `offset` and then `limit` when they are given and non-zero. */
    function FindMany(where: Entity -> bool, limit: Option<nat>, offset: Option<nat>, withDeleted: Option<bool>): (r: seq<Entity>)
      reads this
      ensures forall e :: e in r ==> e in rows && where(e) && (withDeleted != Some(true) ==> !SoftDeleted(e))
      ensures limit.Some? && limit.value > 0 ==> |r| <= limit.value
      ensures (limit.None? || limit == Some(0)) && (offset.None? || offset == Some(0)) ==> r == Matching(rows, where, withDeleted.GetOr(false))
      ensures r == Page(Matching(rows, where, withDeleted.GetOr(false)), offset, limit)
      ensures |r| <= |Matching(rows, where, withDeleted.GetOr(false))|
      ensures offset.None? ==> forall k :: 0 <= k < |r| ==> r[k] == Matching(rows, where, withDeleted.GetOr(false))[k]
    {
      var all := Matching(rows, where, withDeleted.GetOr(false));
      var p := Page(all, offset, limit);
      assert forall e :: e in p ==> e in all by {
        forall e | e in p ensures e in all {
          var k :| 0 <= k < |p| && p[k] == e;
        }
      }
      p
    }

    /** `findManyWithCount`: one page and the number of all matching rows. */
    function FindManyWithCount(where: Entity -> bool, limit: Option<nat>, offset: Option<nat>, withDeleted: Option<bool>): (r: (seq<Entity>, nat))
      reads this
      ensures r.0 == FindMany(where, limit, offset, withDeleted)
      ensures r.1 == |Matching(rows, where, withDeleted.GetOr(false))|
      ensures |r.0| <= r.1 <= |rows|
    {
      (FindMany(where, limit, offset, withDeleted), |Matching(rows, where, withDeleted.GetOr(false))|)
    }

    /** `createRecord`: the new row is appended and returned. */
    method CreateRecord(data: Entity, filled: Entity) returns (row: Entity)
      modifies this
      ensures row == Created(data, filled) && rows == old(rows) + [row]
    {
      row := Created(data, filled);
      rows := rows + [row];
    }

    /**
     * `updateRecord`: the first matching row gets the data's value in each
     * of its own columns; nothing changes and null is returned when no row matches.
     */
    method UpdateRecord(where: Entity -> bool, data: Entity, withDeleted: Option<bool>) returns (r: Option<Entity>)
      modifies this
      ensures rows == UpdatedRows(old(rows), where, data, withDeleted.GetOr(false))
      ensures old(FirstIndex(rows, where, withDeleted.GetOr(false))).None? ==> r.None? && rows == old(rows)
      ensures old(FirstIndex(rows, where, withDeleted.GetOr(false))).Some? ==>
                var i := old(FirstIndex(rows, where, withDeleted.GetOr(false))).value;
                r == Some(Overwrite(old(rows)[i], data)) && rows == old(rows)[i := r.value]
    {
      match FirstIndex(rows, where, withDeleted.GetOr(false))
      case None =>
        r := None;
      case Some(i) =>
        var entity := rows[i];
        var updated := entity;
        var pending := entity.Keys;
        while pending != {}
          invariant pending <= entity.Keys && updated.Keys == entity.Keys
          invariant forall k :: k in entity && k !in pending && k in data ==> updated[k] == data[k]
          invariant forall k :: k in entity && (k in pending || k !in data) ==> updated[k] == entity[k]
          decreases |pending|
        {
          var k :| k in pending;
          if k in data {
            updated := updated[k := data[k]];
          }
          pending := pending - {k};
        }
        assert updated == Overwrite(entity, data);
        rows := rows[i := updated];
        r := Some(updated);
    }

    /** `hardDeleteRecords`: removes every row the filter accepts, soft-deleted or not, and counts them. */
    method HardDeleteRecords(where: Entity -> bool) returns (affected: nat)
      modifies this
      ensures rows == Unmatched(old(rows), where)
      ensures affected == |Matching(old(rows), where, true)| && affected == |old(rows)| - |rows|
    {
      var kept := Unmatched(rows, where);
      affected := |rows| - |kept|;
      rows := kept;
    }

    /** `hardDeleteRecord`: true exactly when some row was removed. */
    method HardDeleteRecord(where: Entity -> bool) returns (removed: bool)
      modifies this
      ensures rows == Unmatched(old(rows), where)
      ensures removed <==> |rows| < |old(rows)|
      ensures removed <==> exists i :: 0 <= i < |old(rows)| && where(old(rows)[i])
    {
      var n := HardDeleteRecords(where);
      removed := n > 0;
      if removed {
        var e := Matching(old(rows), where, true)[0];
        assert e in old(rows);
      }
    }

    /**
     * `toggleSoftDelete`: a soft delete looks among live rows only, a restore
     * among all rows; the first match gets `deletedAt` set to now or to null.
     * A row without that column is an error.
     */
    method ToggleSoftDelete(where: Entity -> bool, isDelete: bool, now: int) returns (r: Result<Option<Entity>, Thrown>)
      modifies this
      ensures old(FirstIndex(rows, where, !isDelete)).None? ==> r == Success(None) && rows == old(rows)
      ensures old(FirstIndex(rows, where, !isDelete)).Some? ==>
                var i := old(FirstIndex(rows, where, !isDelete)).value;
                if DeletedAt in old(rows)[i] then
                  r == Success(Some(old(rows)[i][DeletedAt := StampFor(isDelete, now)])) && rows == old(rows)[i := r.value.value]
                else
                  r == Failure(NoSoftDeletion(target)) && rows == old(rows)
      ensures r.Success? && r.value.Some? ==>
                r.value.value in rows && DeletedAt in r.value.value && r.value.value[DeletedAt] == StampFor(isDelete, now)
    {
      match FirstIndex(rows, where, !isDelete)
      case None =>
        r := Success(None);
      case Some(i) =>
        if DeletedAt in rows[i] {
          var e := rows[i][DeletedAt := StampFor(isDelete, now)];
          rows := rows[i := e];
          assert rows[i] == e;
          r := Success(Some(e));
        } else {
          r := Failure(NoSoftDeletion(target));
        }
    }

    /** `softDeleteRecord`. */
    method SoftDeleteRecord(where: Entity -> bool, now: int) returns (r: Result<Option<Entity>, Thrown>)
      modifies this
      ensures old(FirstIndex(rows, where, false)).None? ==> r == Success(None) && rows == old(rows)
      ensures old(FirstIndex(rows, where, false)).Some? ==>
                var i := old(FirstIndex(rows, where, false)).value;
                if DeletedAt in old(rows)[i] then
                  r == Success(Some(old(rows)[i][DeletedAt := VTime(now)])) && rows == old(rows)[i := r.value.value]
                else
                  r == Failure(NoSoftDeletion(target)) && rows == old(rows)
      ensures r.Success? && r.value.Some? ==> DeletedAt in r.value.value && r.value.value[DeletedAt] == VTime(now) && r.value.value in rows
    {
      r := ToggleSoftDelete(where, true, now);
    }

    /** `restoreRecord`. */
    method RestoreRecord(where: Entity -> bool, now: int) returns (r: Result<Option<Entity>, Thrown>)
      modifies this
      ensures old(FirstIndex(rows, where, true)).None? ==> r == Success(None) && rows == old(rows)
      ensures old(FirstIndex(rows, where, true)).Some? ==>
                var i := old(FirstIndex(rows, where, true)).value;
                if DeletedAt in old(rows)[i] then
                  r == Success(Some(old(rows)[i][DeletedAt := VNull])) && rows == old(rows)[i := r.value.value]
                else
                  r == Failure(NoSoftDeletion(target)) && rows == old(rows)
      ensures r.Success? && r.value.Some? ==> DeletedAt in r.value.value && r.value.value[DeletedAt] == VNull && r.value.value in rows
    {
      r := ToggleSoftDelete(where, false, now);
    }

    /** `softDeleteRecords`: every live matching row gets `deletedAt` set to now. */
    method SoftDeleteRecords(where: Entity -> bool, now: int) returns (r: Result<seq<Entity>, Thrown>)
      modifies this
      ensures var matched := old(Matching(rows, where, false));
        if matched == [] then r == Success([]) && rows == old(rows)
        else if DeletedAt !in matched[0] then r == Failure(NoSoftDeletion(target)) && rows == old(rows)
        else r.Success? && rows == Stamped(old(rows), where, false, VTime(now))
             && |r.value| == |matched|
             && forall k :: 0 <= k < |r.value| ==> r.value[k] == matched[k][DeletedAt := VTime(now)]
      ensures r.Success? ==> forall e :: e in r.value ==> DeletedAt in e && e[DeletedAt] == VTime(now)
    {
      r := ToggleManySoftDelete(where, true, now);
    }

    /** `restoreRecords`: every matching row, soft-deleted or not, gets `deletedAt` set to null. */
    method RestoreRecords(where: Entity -> bool, now: int) returns (r: Result<seq<Entity>, Thrown>)
      modifies this
      ensures var matched := old(Matching(rows, where, true));
        if matched == [] then r == Success([]) && rows == old(rows)
        else if DeletedAt !in matched[0] then r == Failure(NoSoftDeletion(target)) && rows == old(rows)
        else r.Success? && rows == Stamped(old(rows), where, true, VNull)
             && |r.value| == |matched|
             && forall k :: 0 <= k < |r.value| ==> r.value[k] == matched[k][DeletedAt := VNull]
      ensures r.Success? ==> forall e :: e in r.value ==> DeletedAt in e && e[DeletedAt] == VNull
    {
      r := ToggleManySoftDelete(where, false, now);
    }

    /**
     * `toggleManySoftDelete`: every matching row gets the same `deletedAt`;
     * nothing matching gives the empty list, and only the first match is
     * checked for the column.
     */
    method ToggleManySoftDelete(where: Entity -> bool, isDelete: bool, now: int) returns (r: Result<seq<Entity>, Thrown>)
      modifies this
      ensures var matched := old(Matching(rows, where, !isDelete));
        if matched == [] then r == Success([]) && rows == old(rows)
        else if DeletedAt !in matched[0] then r == Failure(NoSoftDeletion(target)) && rows == old(rows)
        else r.Success? && rows == Stamped(old(rows), where, !isDelete, StampFor(isDelete, now))
             && |r.value| == |matched|
             && forall k :: 0 <= k < |r.value| ==> r.value[k] == matched[k][DeletedAt := StampFor(isDelete, now)]
    {
      var matched := Matching(rows, where, !isDelete);
      if matched == [] {
        return Success([]);
      }
      if DeletedAt !in matched[0] {
        return Failure(NoSoftDeletion(target));
      }
      var v := StampFor(isDelete, now);
      var saved := seq(|matched|, k requires 0 <= k < |matched| => matched[k][DeletedAt := v]);
      var out: seq<Entity> := [];
      for i := 0 to |rows|
        invariant |out| == i
        invariant forall k :: 0 <= k < i ==> out[k] == if Selected(rows[k], where, !isDelete) then rows[k][DeletedAt := v] else rows[k]
      {
        out := out + [if Selected(rows[i], where, !isDelete) then rows[i][DeletedAt := v] else rows[i]];
      }
      assert out == Stamped(rows, where, !isDelete, v);
      rows := out;
      r := Success(saved);
    }
  }

  /** After a soft delete the row is hidden from live queries; restoring it brings back the row as it was. */
  lemma SoftDeleteRestoreRoundTrip(e: Entity, now: int)
    requires DeletedAt in e && e[DeletedAt] == VNull
    ensures SoftDeleted(e[DeletedAt := StampFor(true, now)])
    ensures e[DeletedAt := StampFor(true, now)][DeletedAt := StampFor(false, now)] == e
  {
  }

  /** When one live row matches, a second soft delete finds nothing. */
  lemma SecondSoftDeleteFindsNothing(rows: seq<Entity>, where: Entity -> bool, i: nat, now: int)
    requires i < |rows| && DeletedAt in rows[i]
    requires forall j :: 0 <= j < |rows| && j != i ==> !Selected(rows[j], where, false)
    ensures FirstIndex(rows[i := rows[i][DeletedAt := StampFor(true, now)]], where, false).None?
  {
    var rows' := rows[i := rows[i][DeletedAt := StampFor(true, now)]];
    assert forall j :: 0 <= j < |rows'| ==> !Selected(rows'[j], where, false) by {
      forall j | 0 <= j < |rows'| ensures !Selected(rows'[j], where, false) {
        if j == i {
          assert SoftDeleted(rows'[j]);
        }
      }
    }
  }

  /** A soft-deleted row is invisible to `findOne` without `withDeleted` and visible with it. */
  lemma FindOneHidesSoftDeleted(rows: seq<Entity>, where: Entity -> bool)
    requires forall j :: 0 <= j < |rows| ==> SoftDeleted(rows[j])
    ensures FirstIndex(rows, where, false).None?
    ensures FirstIndex(rows, where, true).None? <==> forall j :: 0 <= j < |rows| ==> !where(rows[j])
  {
  }
}
