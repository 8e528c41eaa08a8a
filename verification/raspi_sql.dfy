/** The older database layer (raspi/sql_utils.py): the `devices` table with columns
    name (primary key), ip, r, g, b and no power. Every sqlite3.Error is caught and
    printed; a write that fails leaves the table unchanged, and a read that fails
    returns None. An IndexError is not an sqlite3.Error and escapes. */
module RaspiSql {
  import opened Types

  /** The row a device dict {'name', 'ip', 'r', 'g', 'b'} is stored as. */
  function ToColorRow(d: ColorRecord): ColorRow
  {
    ColorRow(d.ip, d.rgb)
  }

  /** The column change of `update_device_ip_sql`: SET ip = ?. */
  function SetIp(ip: string): ColorRow -> ColorRow
  {
    (row: ColorRow) => row.(ip := ip)
  }

  /** The column change of `set_device_status_sql`: SET r = ?, g = ?, b = ?. */
  function SetColour(rgb: Rgb): ColorRow -> ColorRow
  {
    (row: ColorRow) => row.(rgb := rgb)
  }

  /** The sqlite3.Error an `except` clause catches and prints, if the statement raised one. */
  function Caught<T>(r: Outcome<T>): (e: Option<Exc>)
    ensures e.Some? <==> r.Raised?
  {
    if r.Raised? then Some(r.exc) else None
  }

  /** create_devices_table: CREATE TABLE IF NOT EXISTS. */
  method CreateDevicesTable(db: Table<ColorRow>)
    requires db.Valid()
    modifies db
    ensures db.Valid() && db.View() == CreateIfNotExists(old(db.View()))
  {
    db.Store(CreateIfNotExists(db.View()));
  }

  /** create_device_sql: INSERT (name, ip, r, g, b); an error is caught and printed. */
  method CreateDevice(db: Table<ColorRow>, d: ColorRecord) returns (printed: Option<Exc>)
    requires db.Valid()
    modifies db
    ensures db.Valid()
    ensures printed == Caught(InsertRow(old(db.View()), d.name, ToColorRow(d)))
    ensures db.View() == Commit(old(db.View()), InsertRow(old(db.View()), d.name, ToColorRow(d)))
  {
    var r := InsertRow(db.View(), d.name, ToColorRow(d));
    if r.Returned? {
      db.Store(r.value);
    }
    printed := Caught(r);
  }

  /** update_device_ip_sql: UPDATE devices SET ip = ? WHERE name = ?; errors caught. */
  method UpdateDeviceIp(db: Table<ColorRow>, name: string, ip: string) returns (printed: Option<Exc>)
    requires db.Valid()
    modifies db
    ensures db.Valid()
    ensures printed == Caught(UpdateRow(old(db.View()), name, SetIp(ip)))
    ensures db.View() == Commit(old(db.View()), UpdateRow(old(db.View()), name, SetIp(ip)))
  {
    var r := UpdateRow(db.View(), name, SetIp(ip));
    if r.Returned? {
      db.Store(r.value);
    }
    printed := Caught(r);
  }

  /** set_device_status_sql: UPDATE devices SET r, g, b WHERE name = ?; errors caught. */
  method SetDeviceStatus(db: Table<ColorRow>, name: string, rgb: Rgb) returns (printed: Option<Exc>)
    requires db.Valid()
    modifies db
    ensures db.Valid()
    ensures printed == Caught(UpdateRow(old(db.View()), name, SetColour(rgb)))
    ensures db.View() == Commit(old(db.View()), UpdateRow(old(db.View()), name, SetColour(rgb)))
  {
    var r := UpdateRow(db.View(), name, SetColour(rgb));
    if r.Returned? {
      db.Store(r.value);
    }
    printed := Caught(r);
  }

  /** get_device_status_sql: the dict {ip, r, g, b} of the first fetched row. Without
      a table the error is caught and the function returns None; for an unknown name
      `status[0]` raises IndexError, which the handler does not catch. */
  function GetDeviceStatus(t: TableState<ColorRow>, name: string): (r: Outcome<Option<ColorRow>>)
    requires WellFormed(t)
    ensures r == Returned(None) <==> !t.created
    ensures r.Raised? <==> t.created && name !in t.rows
    ensures r.Raised? ==> r.exc == IndexError
    ensures r.Returned? && r.value.Some? ==> name in t.rows && r.value.value == t.rows[name]
  {
    if !t.created then Returned(None)
    else
      var status := Selected(t, Some(name));
      if |status| == 0 then Raised(IndexError)
      else Returned(Some(t.rows[status[0]]))
  }

  /** get_device_list_sql: the names of all rows, answered from the primary-key index
      and so in ascending key order; None when the error was caught. */
  function GetDeviceList(t: TableState<ColorRow>): (r: Option<seq<string>>)
    requires WellFormed(t)
    ensures r.None? <==> !t.created
    ensures r.Some? ==> && Ascending(r.value)
                        && |r.value| == |t.rows|
                        && (forall n :: n in r.value <==> n in t.rows)
                        && (forall i, j :: 0 <= i < j < |r.value| ==> r.value[i] != r.value[j])
  {
    if !t.created then None
    else
      RowCount(t);
      var names := KeyOrder(t.order);
      AscendingDistinct(names);
      Some(names)
  }

  // ---------------------------------------------------------------------
  // Properties of the table operations

  /** After a successful insert, the status read of the new name returns its ip and
      colour, and every other name reads as before. */
  lemma CreateThenRead(t: TableState<ColorRow>, d: ColorRecord, other: string)
    requires WellFormed(t) && t.created && d.name !in t.rows
    ensures var u := Commit(t, InsertRow(t, d.name, ToColorRow(d)));
      && GetDeviceStatus(u, d.name) == Returned(Some(ColorRow(d.ip, d.rgb)))
      && (other != d.name ==> GetDeviceStatus(u, other) == GetDeviceStatus(t, other))
  {
  }

  /** A duplicate insert is caught as an IntegrityError and changes nothing. */
  lemma DuplicateCaught(t: TableState<ColorRow>, d: ColorRecord)
    requires WellFormed(t) && t.created && d.name in t.rows
    ensures Caught(InsertRow(t, d.name, ToColorRow(d))) == Some(IntegrityError)
    ensures Commit(t, InsertRow(t, d.name, ToColorRow(d))) == t
  {
  }

  /** A colour write is what the next read of that device returns, with its ip
      untouched; other devices read as before. */
  lemma ColourWriteThenRead(t: TableState<ColorRow>, name: string, rgb: Rgb, other: string)
    requires WellFormed(t) && t.created && name in t.rows
    ensures var u := Commit(t, UpdateRow(t, name, SetColour(rgb)));
      && GetDeviceStatus(u, name) == Returned(Some(ColorRow(t.rows[name].ip, rgb)))
      && (other != name ==> GetDeviceStatus(u, other) == GetDeviceStatus(t, other))
  {
  }

  /** An ip write is what the next read of that device returns, with its colour
      untouched; other devices read as before. */
  lemma IpWriteThenRead(t: TableState<ColorRow>, name: string, ip: string, other: string)
    requires WellFormed(t) && t.created && name in t.rows
    ensures var u := Commit(t, UpdateRow(t, name, SetIp(ip)));
      && GetDeviceStatus(u, name) == Returned(Some(ColorRow(ip, t.rows[name].rgb)))
      && (other != name ==> GetDeviceStatus(u, other) == GetDeviceStatus(t, other))
  {
  }

  /** Writes to an unknown name change nothing, and reading it still raises. */
  lemma UnknownNameWrites(t: TableState<ColorRow>, name: string, ip: string, rgb: Rgb)
    requires WellFormed(t) && t.created && name !in t.rows
    ensures Commit(t, UpdateRow(t, name, SetIp(ip))) == t
    ensures Commit(t, UpdateRow(t, name, SetColour(rgb))) == t
    ensures GetDeviceStatus(t, name) == Raised(IndexError)
  {
  }

  /** After a successful insert, the device list is the old list with the new name
      slotted in at its place in key order. */
  lemma ListAfterCreate(t: TableState<ColorRow>, d: ColorRecord)
    requires WellFormed(t) && t.created && d.name !in t.rows
    ensures var before := GetDeviceList(t).value;
      d.name !in before && GetDeviceList(Commit(t, InsertRow(t, d.name, ToColorRow(d)))).value == InsertName(d.name, before)
  {
    var before := GetDeviceList(t).value;
    var after := GetDeviceList(Commit(t, InsertRow(t, d.name, ToColorRow(d)))).value;
    AscendingUnique(after, InsertName(d.name, before));
  }
}
