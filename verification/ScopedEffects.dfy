/**
 What a tenant's operation does to the shared table, row by row: which rows it
 reads, changes, removes and adds.
 */
module ScopedEffects {
  import opened Prelude
  import opened TenantScope

  /** The row is the tenant's own, and meets the caller's condition. */
  predicate Mine<T>(tenant: string, w: Where<T>, row: Row<T>) {
    row.tenantId == tenant && w.matches(row)
  }

  ghost predicate Increasing(places: seq<nat>) {
    forall j, k :: 0 <= j < k < |places| ==> places[j] < places[k]
  }

  ghost predicate StandAt<T>(got: seq<Row<T>>, rows: seq<Row<T>>, places: seq<nat>) {
    |got| == |places| && forall j :: 0 <= j < |places| ==> places[j] < |rows| && got[j] == rows[places[j]]
  }

  ghost predicate Complete<T>(rows: seq<Row<T>>, tenant: string, w: Where<T>, mine: bool, places: seq<nat>) {
    forall i: nat :: i < |rows| && Mine(tenant, w, rows[i]) == mine ==> i in places
  }

  /** `got` lists, in order, exactly the rows that are `mine` (or are not); `places` is
      where they stood. */
  ghost predicate SiftedAt<T>(got: seq<Row<T>>, rows: seq<Row<T>>, tenant: string, w: Where<T>, mine: bool,
                              places: seq<nat>) {
    && StandAt(got, rows, places) && Increasing(places)
    && (forall row :: row in got ==> Mine(tenant, w, row) == mine)
    && Complete(rows, tenant, w, mine, places)
  }

  ghost predicate Sifted<T>(got: seq<Row<T>>, rows: seq<Row<T>>, tenant: string, w: Where<T>, mine: bool) {
    exists places: seq<nat> :: SiftedAt(got, rows, tenant, w, mine, places)
  }

  /** The first row an operation hits. */
  ghost predicate FirstAt<T>(tenant: string, w: Where<T>, rows: seq<Row<T>>, i: nat) {
    i < |rows| && Mine(tenant, w, rows[i]) && forall j :: 0 <= j < i ==> !Mine(tenant, w, rows[j])
  }

  function Keyed<T>(tenant: string, w: Where<T>): Where<T> {
    w.(tenantId := Some(tenant))
  }

  function Shifted(places: seq<nat>): (r: seq<nat>)
    ensures |r| == |places| && forall j :: 0 <= j < |places| ==> r[j] == places[j] + 1
  {
    seq(|places|, j requires 0 <= j < |places| => places[j] + 1)
  }

  lemma CompleteShifted<T>(rows: seq<Row<T>>, tenant: string, w: Where<T>, mine: bool, places: seq<nat>, all: seq<nat>)
    requires rows != [] && Complete(rows[1..], tenant, w, mine, places)
    requires all == if Mine(tenant, w, rows[0]) == mine then [0] + Shifted(places) else Shifted(places)
    ensures Complete(rows, tenant, w, mine, all)
  {
    forall i: nat | i < |rows| && Mine(tenant, w, rows[i]) == mine ensures i in all {
      if i > 0 {
        assert rows[1..][i - 1] == rows[i];
        var j :| 0 <= j < |places| && places[j] == i - 1;
        assert Shifted(places)[j] == i;
      } else {
        assert all[0] == 0;
      }
    }
  }

  lemma IncreasingShifted(places: seq<nat>)
    requires Increasing(places)
    ensures Increasing(Shifted(places)) && Increasing([0] + Shifted(places))
  {
  }

  lemma StandShifted<T>(got: seq<Row<T>>, rows: seq<Row<T>>, places: seq<nat>)
    requires rows != [] && StandAt(got, rows[1..], places)
    ensures StandAt(got, rows, Shifted(places)) && StandAt([rows[0]] + got, rows, [0] + Shifted(places))
  {
  }

  /** One more row in front. */
  lemma SiftedStep<T>(got: seq<Row<T>>, rows: seq<Row<T>>, tenant: string, w: Where<T>, mine: bool)
    requires rows != [] && Sifted(got, rows[1..], tenant, w, mine)
    ensures Sifted(if Mine(tenant, w, rows[0]) == mine then [rows[0]] + got else got, rows, tenant, w, mine)
  {
    hide Complete, Increasing, StandAt, Mine;
    var places: seq<nat> :| SiftedAt(got, rows[1..], tenant, w, mine, places);
    IncreasingShifted(places);
    StandShifted(got, rows, places);
    if Mine(tenant, w, rows[0]) == mine {
      CompleteShifted(rows, tenant, w, mine, places, [0] + Shifted(places));
      assert SiftedAt([rows[0]] + got, rows, tenant, w, mine, [0] + Shifted(places));
    } else {
      CompleteShifted(rows, tenant, w, mine, places, Shifted(places));
      assert SiftedAt(got, rows, tenant, w, mine, Shifted(places));
    }
  }

  lemma {:induction false} SelectSifts<T>(tenant: string, w: Where<T>, rows: seq<Row<T>>)
    ensures Sifted(Select(rows, Keyed(tenant, w)), rows, tenant, w, true)
  {
    if rows == [] {
      assert SiftedAt([], rows, tenant, w, true, []);
    } else {
      SelectSifts(tenant, w, rows[1..]);
      SiftedStep(Select(rows[1..], Keyed(tenant, w)), rows, tenant, w, true);
      assert [] + Select(rows[1..], Keyed(tenant, w)) == Select(rows[1..], Keyed(tenant, w));
    }
  }

  lemma {:induction false} RemoveSifts<T>(tenant: string, w: Where<T>, rows: seq<Row<T>>)
    ensures Sifted(Remove(rows, Keyed(tenant, w), true), rows, tenant, w, false)
  {
    if rows == [] {
      assert SiftedAt([], rows, tenant, w, false, []);
    } else {
      RemoveSifts(tenant, w, rows[1..]);
      SiftedStep(Remove(rows[1..], Keyed(tenant, w), true), rows, tenant, w, false);
    }
  }

  lemma {:induction false} ChangeAll<T>(tenant: string, w: Where<T>, rows: seq<Row<T>>, change: T -> T)
    ensures var changed := Change(rows, Keyed(tenant, w), change, true);
      && |changed| == |rows|
      && forall i :: 0 <= i < |rows| ==>
           changed[i] == if Mine(tenant, w, rows[i]) then rows[i].(body := change(rows[i].body)) else rows[i]
  {
    if rows != [] {
      ChangeAll(tenant, w, rows[1..], change);
    }
  }

  /** What the first hit is, and what changing and removing it leaves. */
  ghost predicate Hit<T>(tenant: string, w: Where<T>, rows: seq<Row<T>>, change: T -> T, i: nat) {
    && FirstAt(tenant, w, rows, i)
    && |Select(rows, Keyed(tenant, w))| > 0 && Select(rows, Keyed(tenant, w))[0] == rows[i]
    && Change(rows, Keyed(tenant, w), change, false) == rows[i := rows[i].(body := change(rows[i].body))]
    && Remove(rows, Keyed(tenant, w), false) == rows[..i] + rows[i + 1..]
  }

  lemma {:induction false} FirstHit<T>(tenant: string, w: Where<T>, rows: seq<Row<T>>, change: T -> T)
    ensures if forall i :: 0 <= i < |rows| ==> !Mine(tenant, w, rows[i]) then Select(rows, Keyed(tenant, w)) == []
            else exists i: nat :: Hit(tenant, w, rows, change, i)
  {
    if rows == [] {
    } else if Mine(tenant, w, rows[0]) {
      assert Hit(tenant, w, rows, change, 0);
    } else {
      var rest := rows[1..];
      FirstHit(tenant, w, rest, change);
      if i: nat :| Hit(tenant, w, rest, change, i) {
        HitBehind(tenant, w, rows, change, i);
      } else {
        assert forall j :: 0 < j < |rows| ==> rows[j] == rest[j - 1];
      }
    }
  }

  lemma HitBehind<T>(tenant: string, w: Where<T>, rows: seq<Row<T>>, change: T -> T, i: nat)
    requires rows != [] && !Mine(tenant, w, rows[0]) && Hit(tenant, w, rows[1..], change, i)
    ensures Hit(tenant, w, rows, change, i + 1)
  {
    var rest := rows[1..];
    var row := rest[i].(body := change(rest[i].body));
    forall j | 0 <= j < i + 1 ensures !Mine(tenant, w, rows[j]) {
      assert j > 0 ==> rows[j] == rest[j - 1];
    }
    assert [rows[0]] + rest[i := row] == rows[i + 1 := row];
    assert [rows[0]] + (rest[..i] + rest[i + 1..]) == rows[..i + 1] + rows[i + 2..];
    assert [] + Select(rest, Keyed(tenant, w)) == Select(rest, Keyed(tenant, w));
  }

  /** Reading: a tenant is shown exactly its own rows that meet its condition, in the
      order of the table; nothing changes. */
  lemma ScopedReads<T>(tenant: string, w: Where<T>, rows: seq<Row<T>>, orThrow: bool, fold: seq<Row<T>> -> int)
    requires tenant != ""
    ensures var listed := ScopedExec(Some(tenant), FindMany(w), rows);
      && listed.outcome.Several? && listed.rows == rows
      && Sifted(listed.outcome.rows, rows, tenant, w, true)
      && ScopedExec(Some(tenant), Aggregate(w, fold), rows) == Result(Number(fold(listed.outcome.rows)), rows)
      && ScopedExec(Some(tenant), Find(w, orThrow), rows)
           == Result(if |listed.outcome.rows| > 0 then One(listed.outcome.rows[0])
                     else if orThrow then RecordNotFound else Absent, rows)
  {
    hide Sifted, Select;
    SelectSifts(tenant, w, rows);
  }

  /** Writing many: all of the tenant's rows that meet the condition, and no other row,
      are changed or removed, and the answer is their number. */
  lemma ScopedWritesMany<T>(tenant: string, w: Where<T>, rows: seq<Row<T>>, change: T -> T)
    requires tenant != ""
    ensures var updated := ScopedExec(Some(tenant), UpdateMany(w, change), rows);
      var deleted := ScopedExec(Some(tenant), DeleteMany(w), rows);
      var listed := ScopedExec(Some(tenant), FindMany(w), rows).outcome;
      && listed.Several? && updated.outcome == deleted.outcome == Number(|listed.rows|)
      && |updated.rows| == |rows|
      && (forall i :: 0 <= i < |rows| ==>
            updated.rows[i] == if Mine(tenant, w, rows[i]) then rows[i].(body := change(rows[i].body)) else rows[i])
      && Sifted(deleted.rows, rows, tenant, w, false)
  {
    hide Sifted;
    RemoveSifts(tenant, w, rows);
    ChangeAll(tenant, w, rows, change);
  }

  /** Writing one row: without a row of the tenant that meets the condition nothing is
      found (an upsert creates one), else the first of them alone is changed or removed. */
  lemma ScopedWritesFirst<T>(tenant: string, w: Where<T>, rows: seq<Row<T>>, change: T -> T, data: Payload<T>)
    requires tenant != ""
    ensures var updated := ScopedExec(Some(tenant), Update(w, change), rows);
      var deleted := ScopedExec(Some(tenant), Delete(w), rows);
      var upserted := ScopedExec(Some(tenant), Upsert(w, data, change), rows);
      if forall i :: 0 <= i < |rows| ==> !Mine(tenant, w, rows[i]) then
        && updated == deleted == Result(RecordNotFound, rows)
        && upserted == ScopedExec(Some(tenant), Create(data), rows)
      else
        exists i: nat :: FirstAt(tenant, w, rows, i)
          && upserted == updated
          && updated == (var row := rows[i].(body := change(rows[i].body)); Result(One(row), rows[i := row]))
          && deleted == Result(One(rows[i]), rows[..i] + rows[i + 1..])
  {
    hide Select, Change, Remove, Insert;
    FirstHit(tenant, w, rows, change);
    if i: nat :| Hit(tenant, w, rows, change, i) {
      assert FirstAt(tenant, w, rows, i);
    }
  }

  function Made<T>(tenant: string, batch: seq<Payload<T>>): seq<Row<T>> {
    seq(|batch|, i requires 0 <= i < |batch| => Row(batch[i].id, tenant, batch[i].body))
  }

  /** The ids of a batch are new to the table and distinct. */
  ghost predicate NewIds<T(!new)>(rows: seq<Row<T>>, batch: seq<Payload<T>>) {
    && (forall i :: 0 <= i < |batch| ==> !HasId(rows, batch[i].id))
    && forall i, j :: 0 <= i < j < |batch| ==> batch[i].id != batch[j].id
  }

  lemma {:induction false} InsertAll<T(!new)>(tenant: string, rows: seq<Row<T>>, batch: seq<Payload<T>>)
    ensures InsertMany(rows, Stamp(batch, Some(tenant)))
         == if NewIds(rows, batch) then Result(Number(|batch|), rows + Made(tenant, batch))
            else Result(UniqueViolation, rows)
    decreases |batch|
  {
    var stamped := Stamp(batch, Some(tenant));
    if batch == [] {
      assert rows + Made(tenant, batch) == rows;
    } else {
      var rest := batch[1..];
      assert stamped[1..] == Stamp(rest, Some(tenant));
      if !HasId(rows, batch[0].id) {
        var row := Row(batch[0].id, tenant, batch[0].body);
        InsertAll(tenant, rows + [row], rest);
        assert Made(tenant, batch) == [row] + Made(tenant, rest);
        Associative(rows, [row], Made(tenant, rest));
        NewIdsStep(rows, row, batch);
      }
    }
  }

  lemma NewIdsStep<T(!new)>(rows: seq<Row<T>>, row: Row<T>, batch: seq<Payload<T>>)
    requires batch != [] && row.id == batch[0].id && !HasId(rows, row.id)
    ensures NewIds(rows, batch) <==> NewIds(rows + [row], batch[1..])
  {
    var rest, more := batch[1..], rows + [row];
    forall id ensures HasId(more, id) <==> HasId(rows, id) || id == row.id {
      if HasId(rows, id) {
        var i :| 0 <= i < |rows| && rows[i].id == id;
        assert more[i].id == id;
      }
      assert more[|rows|] == row;
    }
    if NewIds(more, rest) {
      forall i | 0 <= i < |batch| ensures !HasId(rows, batch[i].id) {
        assert i > 0 ==> batch[i] == rest[i - 1];
      }
      forall i, j | 0 <= i < j < |batch| ensures batch[i].id != batch[j].id {
        assert batch[j] == rest[j - 1] && (i > 0 ==> batch[i] == rest[i - 1]);
      }
    }
  }

  /** Creating: a row of the tenant is added for every payload, whatever tenant it
      names, exactly when all ids are new and distinct; else nothing is. */
  lemma ScopedCreates<T(!new)>(tenant: string, rows: seq<Row<T>>, batch: seq<Payload<T>>, data: Payload<T>)
    requires tenant != ""
    ensures ScopedExec(Some(tenant), CreateMany(batch), rows)
         == if NewIds(rows, batch) then Result(Number(|batch|), rows + Made(tenant, batch))
            else Result(UniqueViolation, rows)
    ensures ScopedExec(Some(tenant), Create(data), rows)
         == (var row := Row(data.id, tenant, data.body);
             if HasId(rows, data.id) then Result(UniqueViolation, rows) else Result(One(row), rows + [row]))
  {
    InsertAll(tenant, rows, batch);
  }
}
