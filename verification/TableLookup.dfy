/** Looking rows up by tenant and id, and what each change of the table does to that. */
module TableLookup {
  import opened Prelude
  import opened TenantScope
  import opened Tickets

  /** The row a tenant reaches by id: the first of its own with that id. */
  function RowOf<T>(rows: seq<Row<T>>, tenant: string, id: string): Option<Row<T>> {
    if rows == [] then None
    else if rows[0].tenantId == tenant && rows[0].id == id then Some(rows[0])
    else RowOf(rows[1..], tenant, id)
  }

  function Keyed<T>(tenant: string, id: string): Where<T> {
    ById<T>(id).(tenantId := Some(tenant))
  }

  lemma KeyedHits<T>(tenant: string, id: string, row: Row<T>)
    ensures Keyed<T>(tenant, id).Hits(row) <==> row.tenantId == tenant && row.id == id
  {
  }

  lemma {:induction false} SelectIsRowOf<T(!new)>(rows: seq<Row<T>>, tenant: string, id: string)
    ensures var hits := Select(rows, Keyed<T>(tenant, id));
      if RowOf(rows, tenant, id).Some? then hits != [] && hits[0] == RowOf(rows, tenant, id).value else hits == []
    ensures RowOf(rows, tenant, id).Some? ==>
      HasId(rows, id) && RowOf(rows, tenant, id).value.tenantId == tenant && RowOf(rows, tenant, id).value.id == id
  {
    if rows != [] {
      KeyedHits(tenant, id, rows[0]);
      SelectIsRowOf(rows[1..], tenant, id);
      if RowOf(rows[1..], tenant, id).Some? {
        var i :| 0 <= i < |rows[1..]| && rows[1..][i].id == id;
        assert rows[i + 1].id == id;
      }
      assert rows[0].id == id ==> HasId(rows, id);
    }
  }

  lemma {:induction false} ChangeRow<T(!new)>(rows: seq<Row<T>>, t: string, k: string, change: T -> T, tenant: string,
                                              id: string)
    ensures var row := RowOf(rows, tenant, id);
      RowOf(Change(rows, Keyed<T>(t, k), change, false), tenant, id)
        == if row.Some? && t == tenant && k == id then Some(row.value.(body := change(row.value.body))) else row
  {
    if rows != [] {
      KeyedHits(t, k, rows[0]);
      ChangeRow(rows[1..], t, k, change, tenant, id);
      var head := rows[0].(body := change(rows[0].body));
      assert ([head] + rows[1..])[1..] == rows[1..];
      var rest := Change(rows[1..], Keyed<T>(t, k), change, false);
      assert ([rows[0]] + rest)[1..] == rest;
    }
  }

  lemma {:induction false} AppendRow<T(!new)>(rows: seq<Row<T>>, row: Row<T>, tenant: string, id: string)
    ensures RowOf(rows + [row], tenant, id)
         == if RowOf(rows, tenant, id).None? && row.tenantId == tenant && row.id == id then Some(row)
             else RowOf(rows, tenant, id)
  {
    if rows == [] {
      assert [] + [row] == [row] && [row][1..] == [];
    } else {
      HeadOfSum(rows, [row]);
      AppendRow(rows[1..], row, tenant, id);
    }
  }

  /** Ids are primary keys of the table. */
  ghost predicate UniqueKeys<T(!new)>(rows: seq<Row<T>>) {
    forall i, j :: 0 <= i < j < |rows| ==> rows[i].id != rows[j].id
  }

  lemma {:induction false} RemoveRow<T(!new)>(rows: seq<Row<T>>, t: string, k: string, tenant: string, id: string)
    requires UniqueKeys(rows)
    ensures RowOf(Remove(rows, Keyed<T>(t, k), false), tenant, id)
         == if t == tenant && k == id then None else RowOf(rows, tenant, id)
  {
    if rows != [] {
      var rest := rows[1..];
      KeyedHits(t, k, rows[0]);
      assert forall i :: 0 <= i < |rest| ==> rest[i] == rows[i + 1];
      RemoveRow(rest, t, k, tenant, id);
      SelectIsRowOf(rest, t, k);
      var removed := Remove(rest, Keyed<T>(t, k), false);
      assert ([rows[0]] + removed)[1..] == removed;
      if rows[0].id == k {
        assert !HasId(rest, k);
      }
    }
  }
}
