/** Values shared by both revisions of the LED controller: device records,
    the exceptions the Python code can raise, transport results, and the
    sqlite `devices` table (`name text PRIMARY KEY`) with the semantics of
    INSERT and UPDATE ... WHERE name = ? on it. */
module Types {

  /** One colour, as three channel values. The source never range-checks them. */
  datatype Rgb = Rgb(r: int, g: int, b: int)

  /** A row of the backend's table: columns ip, r, g, b, power (name is the key). */
  datatype Row = Row(ip: string, rgb: Rgb, power: int)

  /** A row of the raspi table (no power column); also a raspi `devices_dict` entry
      {'ip', 'r', 'g', 'b'} and the dict returned by the raspi status read. */
  datatype ColorRow = ColorRow(ip: string, rgb: Rgb)

  /** The backend's device dict {'name', 'ip', 'rgb': (r, g, b), 'power'}. */
  datatype DeviceRecord = DeviceRecord(name: string, ip: string, rgb: Rgb, power: int)

  /** The raspi's device dict {'name', 'ip', 'r', 'g', 'b'}. */
  datatype ColorRecord = ColorRecord(name: string, ip: string, rgb: Rgb)

  /** Python exceptions that reach the modelled code. */
  datatype Exc =
    | IntegrityError      // sqlite3: PRIMARY KEY violated
    | OperationalError    // sqlite3: no such table
    | IndexError          // `status[0]` / `device_info[i]` on a short list
    | KeyError            // `devices_dict[name]` for an unknown name
    | ConnectionError     // requests.exceptions.ConnectionError
    | RequestError        // any other requests exception (e.g. InvalidURL for an empty ip)

  /** A call either returns a value or raises. */
  datatype Outcome<+T> = Returned(value: T) | Raised(exc: Exc)

  datatype Option<+T> = None | Some(value: T)

  /** What one HTTP PUT to a device ends with. */
  datatype Transport = Ok | ConnErr | OtherErr

  /** The exception a failed PUT raises. */
  function TransportExc(o: Transport): (e: Exc)
    requires o != Ok
    ensures e == ConnectionError <==> o == ConnErr
  {
    if o == ConnErr then ConnectionError else RequestError
  }

  /** HTTP replies of the two registration/status handlers. */
  datatype Reply = DeviceAlreadyExists | DeviceCreated | StatusChanged

  /** The LED endpoint of a device at `ip`. */
  function Url(ip: string): string
  {
    "http://" + ip + ":80/leds"
  }

  /** Distinct addresses give distinct endpoints, so a send is addressed to one device ip. */
  lemma UrlInjective(a: string, b: string)
    requires Url(a) == Url(b)
    ensures a == b
  {
    var n := |"http://"|;
    assert |a| == |b|;
    assert Url(a)[n..n + |a|] == a;
    assert Url(b)[n..n + |b|] == b;
  }

  // ---------------------------------------------------------------------
  // The `devices` table as a value

  /** Snapshot of the table: whether CREATE TABLE has run, the rows by primary key,
      and the row order a SELECT without ORDER BY returns (insertion order). */
  datatype TableState<R> = TableState(created: bool, rows: map<string, R>, order: seq<string>)

  /** The primary-key invariant: `order` lists every key exactly once; no table, no rows. */
  predicate WellFormed<R>(t: TableState<R>)
  {
    && (forall i, j :: 0 <= i < j < |t.order| ==> t.order[i] != t.order[j])
    && (forall k :: k in t.rows ==> k in t.order)
    && (forall i :: 0 <= i < |t.order| ==> t.order[i] in t.rows)
    && (!t.created ==> t.rows == map[])
  }

  /** A duplicate-free listing of exactly the keys of a set has one entry per key. */
  lemma {:induction false} ListingCount(s: seq<string>, keys: set<string>)
    requires forall i, j :: 0 <= i < j < |s| ==> s[i] != s[j]
    requires forall k :: k in keys ==> k in s
    requires forall i :: 0 <= i < |s| ==> s[i] in keys
    ensures |s| == |keys|
  {
    if s == [] {
      assert keys == {};
    } else {
      var last := s[|s| - 1];
      var init := s[..|s| - 1];
      forall k | k in keys - {last} ensures k in init {
        assert k in s;
        var i :| 0 <= i < |s| && s[i] == k;
        assert i != |s| - 1;
        assert init[i] == k;
      }
      forall i | 0 <= i < |init| ensures init[i] in keys - {last} {
        assert init[i] == s[i] && s[i] != s[|s| - 1];
      }
      ListingCount(init, keys - {last});
    }
  }

  /** A well-formed table lists each row once: as many names as rows. */
  lemma RowCount<R>(t: TableState<R>)
    requires WellFormed(t)
    ensures |t.order| == |t.rows|
  {
    ListingCount(t.order, t.rows.Keys);
  }

  /** The empty database file before CREATE TABLE. */
  function NoTable<R>(): (t: TableState<R>)
    ensures WellFormed(t) && !t.created
  {
    TableState(false, map[], [])
  }

  /** CREATE TABLE IF NOT EXISTS: creates an empty table once, never touches rows. */
  function CreateIfNotExists<R>(t: TableState<R>): (u: TableState<R>)
    requires WellFormed(t)
    ensures WellFormed(u) && u.created
    ensures u.rows == t.rows && u.order == t.order
  {
    t.(created := true)
  }

  /** INSERT of a row under `name`: fails without a table or on a duplicate key. */
  function InsertRow<R>(t: TableState<R>, name: string, row: R): (r: Outcome<TableState<R>>)
    requires WellFormed(t)
    ensures !t.created ==> r == Raised(OperationalError)
    ensures t.created && name in t.rows ==> r == Raised(IntegrityError)
    ensures r.Returned? <==> t.created && name !in t.rows
    ensures r.Returned? ==> && WellFormed(r.value) && r.value.created
                            && r.value.rows.Keys == t.rows.Keys + {name}
                            && r.value.rows[name] == row
                            && (forall k :: k in t.rows ==> r.value.rows[k] == t.rows[k])
                            && r.value.order == t.order + [name]
  {
    if !t.created then Raised(OperationalError)
    else if name in t.rows then Raised(IntegrityError)
    else Returned(TableState(true, t.rows[name := row], t.order + [name]))
  }

  /** UPDATE ... SET <columns> WHERE name = ?: `change` rewrites the listed columns of
      the matching row; no matching row is not an error. */
  function UpdateRow<R>(t: TableState<R>, name: string, change: R -> R): (r: Outcome<TableState<R>>)
    requires WellFormed(t)
    ensures r.Raised? <==> !t.created
    ensures r.Raised? ==> r.exc == OperationalError
    ensures r.Returned? ==> && WellFormed(r.value) && r.value.created
                            && r.value.order == t.order && r.value.rows.Keys == t.rows.Keys
                            && (forall k :: k in t.rows && k != name ==> r.value.rows[k] == t.rows[k])
                            && (name in t.rows ==> r.value.rows[name] == change(t.rows[name]))
  {
    if !t.created then Raised(OperationalError)
    else if name in t.rows then Returned(t.(rows := t.rows[name := change(t.rows[name])]))
    else Returned(t)
  }

  /** Creating the table a second time changes nothing. */
  lemma CreateIdempotent<R>(t: TableState<R>)
    requires WellFormed(t)
    ensures CreateIfNotExists(CreateIfNotExists(t)) == CreateIfNotExists(t)
    ensures t.created ==> CreateIfNotExists(t) == t
  {
  }

  /** The table after a statement: a failed statement leaves it as it was. */
  function Commit<R>(t: TableState<R>, r: Outcome<TableState<R>>): TableState<R>
  {
    if r.Returned? then r.value else t
  }

  /** A statement's own result: nothing, or the exception it raised. */
  function Status<T>(r: Outcome<T>): Outcome<()>
  {
    if r.Returned? then Returned(()) else Raised(r.exc)
  }

  /** A call that returns nothing, then yields `v`: an exception passes through. */
  function Then<T>(r: Outcome<()>, v: T): (u: Outcome<T>)
    ensures u.Returned? <==> r.Returned?
    ensures u.Returned? ==> u.value == v
    ensures u.Raised? ==> u.exc == r.exc
  {
    if r.Returned? then Returned(v) else Raised(r.exc)
  }

  /** The keys a `SELECT ... WHERE name = ?` returns, or a plain SELECT when `name` is None. */
  function Selected<R>(t: TableState<R>, name: Option<string>): (s: seq<string>)
    requires WellFormed(t)
    ensures forall i :: 0 <= i < |s| ==> s[i] in t.rows
    ensures name.None? ==> s == t.order
    ensures name.Some? ==> |s| <= 1 && (|s| == 1 <==> name.value in t.rows)
    ensures name.Some? && |s| == 1 ==> s[0] == name.value
  {
    match name
    case None => t.order
    case Some(n) => if n in t.rows then [n] else []
  }

  // ---------------------------------------------------------------------
  // Key order: `SELECT name FROM devices` is answered from the primary-key index

  /** Strict order of the BINARY collation: bytewise on UTF-8, which is lexicographic
      order on code points, a proper prefix coming first. */
  predicate Below(a: string, b: string)
    decreases |a|
  {
    |b| > 0 && (|a| == 0 || a[0] < b[0] || (a[0] == b[0] && Below(a[1..], b[1..])))
  }

  lemma {:induction false} BelowIrreflexive(a: string)
    ensures !Below(a, a)
    decreases |a|
  {
    if |a| > 0 {
      BelowIrreflexive(a[1..]);
    }
  }

  lemma {:induction false} BelowTransitive(a: string, b: string, c: string)
    requires Below(a, b) && Below(b, c)
    ensures Below(a, c)
    decreases |a|
  {
    if |a| > 0 && a[0] == b[0] && b[0] == c[0] {
      BelowTransitive(a[1..], b[1..], c[1..]);
    }
  }

  /** Any two distinct names are ordered one way or the other. */
  lemma {:induction false} BelowTotal(a: string, b: string)
    requires a != b
    ensures Below(a, b) || Below(b, a)
    decreases |a|
  {
    if |a| > 0 && |b| > 0 && a[0] == b[0] {
      assert a == [a[0]] + a[1..] && b == [b[0]] + b[1..];
      BelowTotal(a[1..], b[1..]);
    }
  }

  /** Strictly ascending in key order (hence without duplicates). */
  predicate Ascending(s: seq<string>)
  {
    forall i, j :: 0 <= i < j < |s| ==> Below(s[i], s[j])
  }

  lemma AscendingDistinct(s: seq<string>)
    requires Ascending(s)
    ensures forall i, j :: 0 <= i < j < |s| ==> s[i] != s[j]
  {
    forall i, j | 0 <= i < j < |s| ensures s[i] != s[j] {
      BelowIrreflexive(s[i]);
    }
  }

  /** A name below every entry of an ascending list can lead it. */
  lemma PrependAscending(y: string, r: seq<string>)
    requires Ascending(r)
    requires forall n :: n in r ==> Below(y, n)
    ensures Ascending([y] + r)
  {
    forall i, j | 0 <= i < j < |[y] + r| ensures Below(([y] + r)[i], ([y] + r)[j]) {
      assert ([y] + r)[j] == r[j - 1];
      if i > 0 {
        assert ([y] + r)[i] == r[i - 1];
      }
    }
  }

  /** Inserts a new name into an ascending list at its place in key order. */
  function InsertName(x: string, s: seq<string>): (r: seq<string>)
    requires Ascending(s) && x !in s
    ensures Ascending(r) && |r| == |s| + 1
    ensures forall n :: n in r <==> n == x || n in s
  {
    if s == [] then [x]
    else if Below(x, s[0]) then
      BelowHead(x, s);
      PrependAscending(x, s);
      [x] + s
    else
      var rest := InsertName(x, s[1..]);
      BelowTotal(x, s[0]);
      TailBelow(s, x);
      PrependAscending(s[0], rest);
      [s[0]] + rest
  }

  lemma BelowHead(x: string, s: seq<string>)
    requires Ascending(s) && s != [] && Below(x, s[0])
    ensures forall n :: n in s ==> Below(x, n)
  {
    forall k | 0 < k < |s| ensures Below(x, s[k]) {
      BelowTransitive(x, s[0], s[k]);
    }
  }

  lemma TailBelow(s: seq<string>, x: string)
    requires Ascending(s) && s != [] && Below(s[0], x)
    ensures forall n :: n in s[1..] || n == x ==> Below(s[0], n)
  {
  }

  /** The rows of a SELECT answered from the primary-key index: the keys in key order. */
  function KeyOrder(s: seq<string>): (r: seq<string>)
    requires forall i, j :: 0 <= i < j < |s| ==> s[i] != s[j]
    ensures Ascending(r) && |r| == |s|
    ensures forall n :: n in r <==> n in s
  {
    if s == [] then []
    else
      DistinctTail(s);
      InsertName(s[0], KeyOrder(s[1..]))
  }

  lemma DistinctTail(s: seq<string>)
    requires forall i, j :: 0 <= i < j < |s| ==> s[i] != s[j]
    requires s != []
    ensures s[0] !in s[1..]
    ensures forall i, j :: 0 <= i < j < |s[1..]| ==> s[1..][i] != s[1..][j]
  {
  }

  lemma HeadIn(s: seq<string>)
    requires s != []
    ensures s[0] in s
  {
  }

  /** Key order is determined by the set of names alone: two ascending lists with the
      same names are equal. */
  lemma {:induction false} AscendingUnique(a: seq<string>, b: seq<string>)
    requires Ascending(a) && Ascending(b)
    requires forall n :: n in a <==> n in b
    ensures a == b
    decreases |a|
  {
    if a != [] && b != [] {
      assert a[0] == b[0] by {
        if a[0] != b[0] {
          HeadIn(a);
          HeadIn(b);
          var i :| 0 <= i < |b| && b[i] == a[0];
          var j :| 0 <= j < |a| && a[j] == b[0];
          assert Below(b[0], b[i]) && Below(a[0], a[j]);
          BelowTransitive(a[0], b[0], a[0]);
          BelowIrreflexive(a[0]);
          assert false;
        }
      }
      forall n ensures n in a[1..] <==> n in b[1..] {
        AscendingDistinct(a);
        AscendingDistinct(b);
        if n in a[1..] {
          var i :| 0 <= i < |a[1..]| && a[1..][i] == n;
          assert n != a[0];
        }
        if n in b[1..] {
          var i :| 0 <= i < |b[1..]| && b[1..][i] == n;
          assert n != b[0];
        }
        if n != a[0] && n in a {
          var i :| 0 <= i < |a| && a[i] == n;
          assert a[1..][i - 1] == n;
        }
        if n != b[0] && n in b {
          var i :| 0 <= i < |b| && b[i] == n;
          assert b[1..][i - 1] == n;
        }
      }
      AscendingUnique(a[1..], b[1..]);
    } else if a != [] {
      HeadIn(a);
      assert false;
    } else if b != [] {
      HeadIn(b);
      assert false;
    }
  }

  // ---------------------------------------------------------------------
  // The `devices` table as an object the database operations update in place

  class Table<R> {
    var created: bool
    var rows: map<string, R>
    var order: seq<string>

    function View(): TableState<R>
      reads this
    {
      TableState(created, rows, order)
    }

    ghost predicate Valid()
      reads this
    {
      WellFormed(View())
    }

    /** A database file without the `devices` table. */
    constructor ()
      ensures Valid() && View() == NoTable()
    {
      created, rows, order := false, map[], [];
    }

    /** Stores the table a successful statement produced. */
    method Store(t: TableState<R>)
      requires WellFormed(t)
      modifies this
      ensures Valid() && View() == t
    {
      created, rows, order := t.created, t.rows, t.order;
    }
  }
}
