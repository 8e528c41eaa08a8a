/** The backend's database layer (backend/sql_utils.py): the `devices` table with
    columns name (primary key), ip, r, g, b, power. Every sqlite error is raised
    to the caller; a failed statement leaves the table unchanged. */
module BackendSql {
  import opened Types

  /** The row a device dict is stored as. */
  function ToRow(d: DeviceRecord): Row
  {
    Row(d.ip, d.rgb, d.power)
  }

  /** The dict a fetched row is turned into: name, ip, rgb as the tuple (r, g, b), power. */
  function ToRecord(name: string, row: Row): (d: DeviceRecord)
    ensures d.name == name && ToRow(d) == row
  {
    DeviceRecord(name, row.ip, row.rgb, row.power)
  }

  /** The column change of `update_device_ip_sql`: SET ip = ?. */
  function SetIp(ip: string): Row -> Row
  {
    (row: Row) => row.(ip := ip)
  }

  /** The column change of `set_device_status_sql`: SET r = ?, g = ?, b = ?, power = ?. */
  function SetStatus(rgb: Rgb, power: int): Row -> Row
  {
    (row: Row) => row.(rgb := rgb, power := power)
  }

  /** The dicts a status read returns for the selected rows, in row order. */
  function StatusList(t: TableState<Row>, name: Option<string>): (s: seq<DeviceRecord>)
    requires WellFormed(t)
    ensures |s| == |Selected(t, name)|
    ensures forall i :: 0 <= i < |s| ==>
              s[i].name == Selected(t, name)[i] && s[i].name in t.rows && ToRow(s[i]) == t.rows[s[i].name]
  {
    var sel := Selected(t, name);
    seq(|sel|, i requires 0 <= i < |sel| => ToRecord(sel[i], t.rows[sel[i]]))
  }

  /** create_devices_table: CREATE TABLE IF NOT EXISTS. */
  method CreateDevicesTable(db: Table<Row>)
    requires db.Valid()
    modifies db
    ensures db.Valid() && db.View() == CreateIfNotExists(old(db.View()))
  {
    db.Store(CreateIfNotExists(db.View()));
  }

  /** create_device_sql: INSERT the row (name, ip, rgb[0], rgb[1], rgb[2], power). */
  method CreateDevice(db: Table<Row>, d: DeviceRecord) returns (res: Outcome<()>)
    requires db.Valid()
    modifies db
    ensures db.Valid()
    ensures res == Status(InsertRow(old(db.View()), d.name, ToRow(d)))
    ensures db.View() == Commit(old(db.View()), InsertRow(old(db.View()), d.name, ToRow(d)))
  {
    var r := InsertRow(db.View(), d.name, ToRow(d));
    if r.Returned? {
      db.Store(r.value);
    }
    res := Status(r);
  }

  /** update_device_ip_sql: UPDATE devices SET ip = ? WHERE name = ?. */
  method UpdateDeviceIp(db: Table<Row>, name: string, ip: string) returns (res: Outcome<()>)
    requires db.Valid()
    modifies db
    ensures db.Valid()
    ensures res == Status(UpdateRow(old(db.View()), name, SetIp(ip)))
    ensures db.View() == Commit(old(db.View()), UpdateRow(old(db.View()), name, SetIp(ip)))
  {
    var r := UpdateRow(db.View(), name, SetIp(ip));
    if r.Returned? {
      db.Store(r.value);
    }
    res := Status(r);
  }

  /** set_device_status_sql: UPDATE devices SET r, g, b, power WHERE name = ?. */
  method SetDeviceStatus(db: Table<Row>, name: string, rgb: Rgb, power: int) returns (res: Outcome<()>)
    requires db.Valid()
    modifies db
    ensures db.Valid()
    ensures res == Status(UpdateRow(old(db.View()), name, SetStatus(rgb, power)))
    ensures db.View() == Commit(old(db.View()), UpdateRow(old(db.View()), name, SetStatus(rgb, power)))
  {
    var r := UpdateRow(db.View(), name, SetStatus(rgb, power));
    if r.Returned? {
      db.Store(r.value);
    }
    res := Status(r);
  }

  /** get_device_status_sql: fetch the selected rows and append one dict per row. */
  method GetDeviceStatus(db: Table<Row>, name: Option<string>) returns (res: Outcome<seq<DeviceRecord>>)
    requires db.Valid()
    ensures !db.created ==> res == Raised(OperationalError)
    ensures db.created ==> res == Returned(StatusList(db.View(), name))
  {
    if !db.created {
      return Raised(OperationalError);
    }
    var status := Selected(db.View(), name);
    var statusList: seq<DeviceRecord> := [];
    for i := 0 to |status|
      invariant |statusList| == i
      invariant forall j :: 0 <= j < i ==> statusList[j] == ToRecord(status[j], db.rows[status[j]])
    {
      var row := db.rows[status[i]];
      statusList := statusList + [DeviceRecord(status[i], row.ip, row.rgb, row.power)];
    }
    assert statusList == StatusList(db.View(), name);
    res := Returned(statusList);
  }

  /** get_device_list_sql: the names of all rows. `SELECT name` is answered from the
      primary-key index, so the names come in ascending key order. */
  function GetDeviceList(t: TableState<Row>): (r: Outcome<seq<string>>)
    requires WellFormed(t)
    ensures r.Raised? <==> !t.created
    ensures r.Raised? ==> r.exc == OperationalError
    ensures r.Returned? ==> && Ascending(r.value)
                            && |r.value| == |t.rows|
                            && (forall n :: n in r.value <==> n in t.rows)
                            && (forall i, j :: 0 <= i < j < |r.value| ==> r.value[i] != r.value[j])
  {
    if !t.created then Raised(OperationalError)
    else
      RowCount(t);
      var names := KeyOrder(t.order);
      AscendingDistinct(names);
      Returned(names)
  }

  // ---------------------------------------------------------------------
  // Properties of the table operations

  /** The name list and the full status read list the same devices, one entry each. */
  lemma DeviceListMatchesStatus(t: TableState<Row>)
    requires WellFormed(t) && t.created
    ensures |GetDeviceList(t).value| == |StatusList(t, None)|
    ensures forall i :: 0 <= i < |StatusList(t, None)| ==> StatusList(t, None)[i].name in GetDeviceList(t).value
    ensures forall n :: n in GetDeviceList(t).value ==>
              exists i :: 0 <= i < |StatusList(t, None)| && StatusList(t, None)[i].name == n
  {
    var status := StatusList(t, None);
    forall n | n in GetDeviceList(t).value
      ensures exists i :: 0 <= i < |status| && status[i].name == n
    {
      var i :| 0 <= i < |t.order| && t.order[i] == n;
      assert status[i].name == n;
    }
  }

  /** A status read by name yields at most one dict; none exactly for an unknown name. */
  lemma StatusByName(t: TableState<Row>, name: string)
    requires WellFormed(t)
    ensures name !in t.rows ==> StatusList(t, Some(name)) == []
    ensures name in t.rows ==> StatusList(t, Some(name)) == [ToRecord(name, t.rows[name])]
  {
  }

  /** After a successful insert of `d`, reading `d.name` gives back `d`, and the full
      read gains exactly `d` at the end. */
  lemma {:induction false} CreateRoundTrip(t: TableState<Row>, d: DeviceRecord)
    requires WellFormed(t) && t.created && d.name !in t.rows
    ensures InsertRow(t, d.name, ToRow(d)).Returned?
    ensures StatusList(InsertRow(t, d.name, ToRow(d)).value, Some(d.name)) == [d]
    ensures StatusList(InsertRow(t, d.name, ToRow(d)).value, None) == StatusList(t, None) + [d]
  {
    var u := InsertRow(t, d.name, ToRow(d)).value;
    var before, after := StatusList(t, None), StatusList(u, None);
    assert |after| == |before| + 1;
    forall i | 0 <= i < |before| ensures after[i] == before[i] {
      assert u.order[i] == t.order[i];
      assert t.order[i] in t.rows;
    }
    assert after[|before|] == d;
  }

  /** A duplicate insert raises and leaves the table as it was. */
  lemma CreateDuplicate(t: TableState<Row>, d: DeviceRecord)
    requires WellFormed(t) && d.name in t.rows
    ensures Commit(t, InsertRow(t, d.name, ToRow(d))) == t
    ensures InsertRow(t, d.name, ToRow(d)).Raised?
  {
  }

  /** update_device_ip_sql changes the ip of the named row and nothing else. */
  lemma {:induction false} UpdateIpOnlyIp(t: TableState<Row>, name: string, ip: string)
    requires WellFormed(t) && t.created
    ensures var u := UpdateRow(t, name, SetIp(ip)).value;
      && |StatusList(u, None)| == |StatusList(t, None)|
      && forall i :: 0 <= i < |StatusList(t, None)| ==>
           var (was, now) := (StatusList(t, None)[i], StatusList(u, None)[i]);
           now == if was.name == name then was.(ip := ip) else was
  {
    var u := UpdateRow(t, name, SetIp(ip)).value;
    forall i | 0 <= i < |StatusList(t, None)|
      ensures StatusList(u, None)[i] == if t.order[i] == name then StatusList(t, None)[i].(ip := ip) else StatusList(t, None)[i]
    {
      assert t.order[i] in t.rows;
    }
  }

  /** set_device_status_sql changes r, g, b and power of the named row; name and ip
      of that row and every other row stay as they were. */
  lemma {:induction false} SetStatusOnlyColour(t: TableState<Row>, name: string, rgb: Rgb, power: int)
    requires WellFormed(t) && t.created
    ensures var u := UpdateRow(t, name, SetStatus(rgb, power)).value;
      && |StatusList(u, None)| == |StatusList(t, None)|
      && forall i :: 0 <= i < |StatusList(t, None)| ==>
           var (was, now) := (StatusList(t, None)[i], StatusList(u, None)[i]);
           now == if was.name == name then was.(rgb := rgb, power := power) else was
  {
    var u := UpdateRow(t, name, SetStatus(rgb, power)).value;
    forall i | 0 <= i < |StatusList(t, None)|
      ensures StatusList(u, None)[i] == if t.order[i] == name then StatusList(t, None)[i].(rgb := rgb, power := power) else StatusList(t, None)[i]
    {
      assert t.order[i] in t.rows;
    }
  }

  /** The last status write to a row is what a later read sees. */
  lemma LastStatusWriteWins(t: TableState<Row>, name: string, a: Rgb, pa: int, b: Rgb, pb: int)
    requires WellFormed(t) && t.created
    ensures UpdateRow(UpdateRow(t, name, SetStatus(a, pa)).value, name, SetStatus(b, pb))
         == UpdateRow(t, name, SetStatus(b, pb))
  {
    if name in t.rows {
      var row := t.rows[name];
      var once := UpdateRow(t, name, SetStatus(a, pa)).value;
      assert once.rows[name] == row.(rgb := a, power := pa);
      assert SetStatus(b, pb)(once.rows[name]) == SetStatus(b, pb)(row);
      assert once.rows[name := SetStatus(b, pb)(once.rows[name])] == t.rows[name := SetStatus(b, pb)(row)];
    }
  }
}
