/** The backend server (backend/backend.py): registration and status handlers over
    the database, and the coordinator that pushes the state of every device to its
    LED endpoint and broadcasts the whole table to viewers.

    The coordinator is one flag, `running` (`state_update_running`): `UpdateLeds`
    opens a window and spawns one deferred task unless a window is already open;
    the task (`SendLedStateUpdate`) runs `SetDeviceStatus` and then closes the
    window. `pending` counts spawned tasks that have not fired yet. */
module Backend {
  import opened Types
  import opened BackendSql

  /** What a propagation run does, in order. */
  datatype Event =
    | Send(url: string, payload: map<string, int>, outcome: Transport)  // one PUT to a device
    | Broadcast(devices: seq<DeviceRecord>)                             // one 'stateUpdate' emit

  /** The events of a run and the exception that ended it, if any. */
  datatype Run = Run(events: seq<Event>, raised: Option<Exc>)

  /** The coordinator: the window flag and the number of spawned, unfired tasks. */
  datatype Flag = Flag(running: bool, pending: nat)

  const Colours: seq<string> := ["r", "g", "b"]

  /** Channel `j` of a colour, as `rgb[j]` reads the tuple. */
  function Channel(c: Rgb, j: nat): int
    requires j < 3
  {
    if j == 0 then c.r else if j == 1 then c.g else c.b
  }

  /** The body sent to a device: {r, g, b, power} from its status dict. */
  function PayloadOf(d: DeviceRecord): map<string, int>
  {
    map["r" := d.rgb.r, "g" := d.rgb.g, "b" := d.rgb.b, "power" := d.power]
  }

  /** The PUT of `d`'s state to its LED endpoint, with the transport result `o`. */
  function SendTo(d: DeviceRecord, o: Transport): Event
  {
    Send(Url(d.ip), PayloadOf(d), o)
  }

  /** Runs `prefix` before `r`. */
  function Prepend(prefix: seq<Event>, r: Run): Run
  {
    Run(prefix + r.events, r.raised)
  }

  /** The per-device loop of `set_device_status` from iteration `i` on: `n` is the
      length of the device list, `info` the status dicts, `net(i)` the result of the
      i-th PUT. A ConnectionError is swallowed; any other transport error ends the
      run; a missing `device_info[i]` raises IndexError before sending. */
  function Sweep(n: nat, info: seq<DeviceRecord>, net: nat -> Transport, i: nat): (r: Run)
    decreases n - i
    ensures forall k :: 0 <= k < |r.events| ==> r.events[k].Send?
    ensures i <= n ==> |r.events| <= n - i
    ensures r.raised.Some? ==> r.raised.value in {IndexError, RequestError}
  {
    if i >= n then Run([], None)
    else if i >= |info| then Run([], Some(IndexError))
    else
      var e := SendTo(info[i], net(i));
      if net(i) == OtherErr then Run([e], Some(RequestError))
      else Prepend([e], Sweep(n, info, net, i + 1))
  }

  /** `set_device_status(name)` on the table as it is when it runs: the working set is
      every device (None) or the named one; after the loop, the whole table is
      broadcast once. */
  function Propagation(t: TableState<Row>, name: Option<string>, net: nat -> Transport): (r: Run)
    requires WellFormed(t)
    ensures r.raised.None? ==> && |r.events| >= 1
                               && r.events[|r.events| - 1] == Broadcast(StatusList(t, None))
                               && forall k :: 0 <= k < |r.events| - 1 ==> r.events[k].Send?
    ensures r.raised.Some? ==> forall k :: 0 <= k < |r.events| ==> r.events[k].Send?
    ensures !t.created ==> r == Run([], Some(OperationalError))
  {
    if !t.created then Run([], Some(OperationalError))
    else
      var devices := if name.None? then GetDeviceList(t).value else [name.value];
      var l := Sweep(|devices|, StatusList(t, name), net, 0);
      if l.raised.Some? then l else Prepend(l.events, Run([Broadcast(StatusList(t, None))], None))
  }

  // ---------------------------------------------------------------------
  // The coordinator flag

  predicate Consistent(f: Flag)
  {
    f.pending <= 1 && (f.pending == 1 ==> f.running)
  }

  /** `update_leds`: a check-and-set with no yield point; the result says whether a
      task was spawned. */
  function AfterRequest(f: Flag): (r: (Flag, bool))
    ensures r.0.running
    ensures r.1 <==> !f.running
    ensures Consistent(f) ==> Consistent(r.0)
    ensures !r.1 ==> r.0 == f
  {
    if f.running then (f, false) else (Flag(true, f.pending + 1), true)
  }

  /** The deferred task finishing: the flag is cleared only when the run returned
      normally; an exception leaves it set. */
  function AfterFire(f: Flag, raised: bool): (g: Flag)
    requires f.pending > 0
    ensures g.pending == f.pending - 1
    ensures g.running <==> raised && f.running
    ensures Consistent(f) ==> Consistent(g)
  {
    Flag(if raised then f.running else false, f.pending - 1)
  }

  /** `n` successive `update_leds` calls with no task firing in between: the final
      flag and the number of tasks spawned. */
  function Requests(f: Flag, n: nat): (Flag, nat)
    decreases n
  {
    if n == 0 then (f, 0)
    else
      var (g, spawned) := AfterRequest(f);
      var (h, k) := Requests(g, n - 1);
      (h, k + if spawned then 1 else 0)
  }

  /** While a window is open, every request is absorbed: nothing is spawned and the
      flag is unchanged. */
  lemma {:induction false} AbsorbedWhileOpen(f: Flag, n: nat)
    requires f.running
    ensures Requests(f, n) == (f, 0)
  {
    if n > 0 {
      AbsorbedWhileOpen(f, n - 1);
    }
  }

  /** Debounce coalescing: from a closed window, any burst of n >= 1 requests opens
      the window once and spawns exactly one task. */
  lemma BurstSpawnsOnce(f: Flag, n: nat)
    requires Consistent(f) && !f.running && n >= 1
    ensures Requests(f, n) == (Flag(true, 1), 1)
  {
    assert f.pending == 0;
    AbsorbedWhileOpen(Flag(true, 1), n - 1);
  }

  /** After the task returns normally, the next burst opens a new window. */
  lemma ReopensAfterFire(f: Flag, n: nat)
    requires Consistent(f) && f.pending == 1 && n >= 1
    ensures Requests(AfterFire(f, false), n) == (Flag(true, 1), 1)
  {
    BurstSpawnsOnce(AfterFire(f, false), n);
  }

  /** After the task raised, the flag stays set with no task left: no later request
      ever spawns one again. */
  lemma StuckAfterRaise(f: Flag, n: nat)
    requires Consistent(f) && f.pending == 1
    ensures AfterFire(f, true) == Flag(true, 0)
    ensures Requests(AfterFire(f, true), n) == (Flag(true, 0), 0)
  {
    AbsorbedWhileOpen(AfterFire(f, true), n);
  }

  // ---------------------------------------------------------------------
  // Properties of a propagation run

  /** A run on an existing table is the per-device loop over the working set, then
      the broadcast if the loop did not raise. */
  lemma PropagationBySweep(t: TableState<Row>, name: Option<string>, net: nat -> Transport, n: nat)
    requires WellFormed(t) && t.created
    requires n == if name.None? then |t.order| else 1
    ensures var l := Sweep(n, StatusList(t, name), net, 0);
      Propagation(t, name, net) == if l.raised.Some? then l else Prepend(l.events, Run([Broadcast(StatusList(t, None))], None))
  {
    RowCount(t);
  }

  /** One iteration of the per-device loop that sends. */
  lemma SweepStep(n: nat, info: seq<DeviceRecord>, net: nat -> Transport, i: nat)
    requires i < n && i < |info|
    ensures net(i) == OtherErr ==> Sweep(n, info, net, i) == Run([SendTo(info[i], net(i))], Some(RequestError))
    ensures net(i) != OtherErr ==> Sweep(n, info, net, i) == Prepend([SendTo(info[i], net(i))], Sweep(n, info, net, i + 1))
    ensures forall prefix: seq<Event> :: net(i) != OtherErr ==>
              Prepend(prefix, Sweep(n, info, net, i)) == Prepend(prefix + [SendTo(info[i], net(i))], Sweep(n, info, net, i + 1))
  {
  }

  /** The PUTs of iterations i..n-1 of the per-device loop, one per device, in order. */
  function Sends(info: seq<DeviceRecord>, net: nat -> Transport, i: nat, n: nat): (s: seq<Event>)
    requires i <= n <= |info|
    ensures |s| == n - i
    ensures forall k :: 0 <= k < n - i ==> s[k] == SendTo(info[i + k], net(i + k))
  {
    seq(n - i, k requires 0 <= k < n - i => SendTo(info[i + k], net(i + k)))
  }

  /** With no transport error other than a ConnectionError in iterations i..n-1, every
      device from i on is sent its payload, one PUT each, in order. */
  lemma {:induction false} SweepReachesAll(n: nat, info: seq<DeviceRecord>, net: nat -> Transport, i: nat)
    requires i <= n <= |info|
    requires forall j :: i <= j < n ==> net(j) != OtherErr
    ensures Sweep(n, info, net, i) == Run(Sends(info, net, i, n), None)
    decreases n - i
  {
    if i < n {
      SweepReachesAll(n, info, net, i + 1);
      assert Sends(info, net, i, n) == [SendTo(info[i], net(i))] + Sends(info, net, i + 1, n);
    }
  }

  /** The first transport error other than a ConnectionError, at iteration k, ends the
      run right after that PUT, with no later sends. */
  lemma {:induction false} SweepStopsAt(n: nat, info: seq<DeviceRecord>, net: nat -> Transport, i: nat, k: nat)
    requires i <= k < n && k < |info| && net(k) == OtherErr
    requires forall j :: i <= j < k ==> net(j) != OtherErr
    ensures Sweep(n, info, net, i) == Run(Sends(info, net, i, k + 1), Some(RequestError))
    decreases k - i
  {
    if i < k {
      SweepStopsAt(n, info, net, i + 1, k);
      assert Sends(info, net, i, k + 1) == [SendTo(info[i], net(i))] + Sends(info, net, i + 1, k + 1);
    } else {
      assert Sends(info, net, i, k + 1) == [SendTo(info[i], net(i))];
    }
  }

  /** With no transport error other than a ConnectionError, the full run is one PUT
      per status dict, in table order, then the broadcast. */
  lemma FullSweepShape(t: TableState<Row>, net: nat -> Transport)
    requires WellFormed(t) && t.created
    requires forall j :: 0 <= j < |t.order| ==> net(j) != OtherErr
    ensures var info := StatusList(t, None);
      Propagation(t, None, net) == Run(Sends(info, net, 0, |info|) + [Broadcast(info)], None)
  {
    var info := StatusList(t, None);
    PropagationBySweep(t, None, net, |t.order|);
    SweepReachesAll(|info|, info, net, 0);
  }

  /** Per-device failure isolation: when every PUT either succeeds or fails with a
      ConnectionError, the full sweep sends every row's payload to its endpoint, in
      table order, and then broadcasts the whole table once. */
  lemma FullSweep(t: TableState<Row>, net: nat -> Transport)
    requires WellFormed(t) && t.created
    requires forall j :: 0 <= j < |t.order| ==> net(j) != OtherErr
    ensures var r := Propagation(t, None, net);
      && r.raised == None
      && |r.events| == |t.rows| + 1
      && (forall j :: 0 <= j < |t.order| ==>
            var row := t.rows[t.order[j]];
            r.events[j] == Send(Url(row.ip), map["r" := row.rgb.r, "g" := row.rgb.g, "b" := row.rgb.b, "power" := row.power], net(j)))
      && r.events[|t.rows|] == Broadcast(StatusList(t, None))
  {
    RowCount(t);
    FullSweepShape(t, net);
    var info := StatusList(t, None);
    var r := Propagation(t, None, net);
    forall j | 0 <= j < |t.order|
      ensures r.events[j] == SendTo(ToRecord(t.order[j], t.rows[t.order[j]]), net(j))
    {
      assert info[j] == ToRecord(t.order[j], t.rows[t.order[j]]);
    }
  }

  /** A transport error other than a ConnectionError at the k-th device (all earlier
      PUTs having returned or hit a ConnectionError) ends the run: k + 1 PUTs, no
      broadcast, and the exception escapes. */
  lemma SweepAborts(t: TableState<Row>, net: nat -> Transport, k: nat)
    requires WellFormed(t) && t.created
    requires k < |t.order| && net(k) == OtherErr
    requires forall j :: 0 <= j < k ==> net(j) != OtherErr
    ensures var r := Propagation(t, None, net);
      && r.raised == Some(RequestError)
      && |r.events| == k + 1
      && forall j :: 0 <= j < |r.events| ==> r.events[j] == SendTo(StatusList(t, None)[j], net(j))
  {
    SweepStopsAt(|t.order|, StatusList(t, None), net, 0, k);
  }

  /** An empty registry: no PUT at all, and still one broadcast (of the empty table),
      since the `devices is None` guard never holds for a list. */
  lemma EmptyRegistry(t: TableState<Row>, net: nat -> Transport)
    requires WellFormed(t) && t.created && t.rows == map[]
    ensures Propagation(t, None, net) == Run([Broadcast([])], None)
  {
    RowCount(t);
  }

  /** A run for one named device: one PUT then the full broadcast when it exists; an
      IndexError before any PUT when it does not. */
  lemma NamedRun(t: TableState<Row>, name: string, net: nat -> Transport)
    requires WellFormed(t) && t.created
    ensures name !in t.rows ==> Propagation(t, Some(name), net) == Run([], Some(IndexError))
    ensures name in t.rows ==>
      var e := SendTo(ToRecord(name, t.rows[name]), net(0));
      Propagation(t, Some(name), net)
        == if net(0) == OtherErr then Run([e], Some(RequestError))
           else Run([e, Broadcast(StatusList(t, None))], None)
  {
  }

  /** Fresh read: when a device's status is written twice before the task fires, the
      run is exactly the one for the second write alone. */
  lemma LastWriteWins(t: TableState<Row>, name: string, a: Rgb, pa: int, b: Rgb, pb: int, net: nat -> Transport)
    requires WellFormed(t) && t.created
    ensures var once := UpdateRow(t, name, SetStatus(a, pa)).value;
      Propagation(UpdateRow(once, name, SetStatus(b, pb)).value, None, net)
        == Propagation(UpdateRow(t, name, SetStatus(b, pb)).value, None, net)
  {
    LastStatusWriteWins(t, name, a, pa, b, pb);
  }

  /** The PUT to the k-th device after a status write to it carries the written colour
      and power, at the device's unchanged ip. */
  lemma PushCarriesWrite(t: TableState<Row>, k: nat, b: Rgb, pb: int, net: nat -> Transport)
    requires WellFormed(t) && t.created && k < |t.order|
    requires forall j :: 0 <= j < |t.order| ==> net(j) != OtherErr
    ensures var name := t.order[k];
      var r := Propagation(UpdateRow(t, name, SetStatus(b, pb)).value, None, net);
      && r.raised == None
      && k < |r.events|
      && r.events[k] == Send(Url(t.rows[name].ip), map["r" := b.r, "g" := b.g, "b" := b.b, "power" := pb], net(k))
  {
    var name := t.order[k];
    var u := UpdateRow(t, name, SetStatus(b, pb)).value;
    assert u.order == t.order;
    var row := u.rows[name];
    assert row == t.rows[name].(rgb := b, power := pb);
    FullSweep(u, net);
    assert Propagation(u, None, net).events[k]
        == Send(Url(row.ip), map["r" := row.rgb.r, "g" := row.rgb.g, "b" := row.rgb.b, "power" := row.power], net(k));
  }

  /** Two status writes to the k-th device, then a full run with no transport error
      other than ConnectionError: the run ends normally and its k-th PUT carries the
      second write. */
  lemma TwoWritesThenRun(t: TableState<Row>, k: nat, a: Rgb, pa: int, b: Rgb, pb: int, net: nat -> Transport)
    requires WellFormed(t) && t.created && k < |t.order|
    requires forall j :: 0 <= j < |t.order| ==> net(j) != OtherErr
    ensures var name := t.order[k];
      var twice := UpdateRow(UpdateRow(t, name, SetStatus(a, pa)).value, name, SetStatus(b, pb)).value;
      var r := Propagation(twice, None, net);
      && r.raised == None
      && k < |r.events|
      && r.events[k] == Send(Url(t.rows[name].ip), map["r" := b.r, "g" := b.g, "b" := b.b, "power" := pb], net(k))
  {
    var name := t.order[k];
    var once := UpdateRow(t, name, SetStatus(a, pa)).value;
    LastStatusWriteWins(t, name, a, pa, b, pb);
    assert UpdateRow(once, name, SetStatus(b, pb)).value == UpdateRow(t, name, SetStatus(b, pb)).value;
    PushCarriesWrite(t, k, b, pb, net);
  }

  // ---------------------------------------------------------------------
  // The server process

  class Server {
    const db: Table<Row>
    var running: bool
    var pending: nat

    function Coordinator(): Flag
      reads this
    {
      Flag(running, pending)
    }

    ghost predicate Valid()
      reads this, db
    {
      db.Valid() && Consistent(Coordinator())
    }

    /** Process start: `state_update_running = False`, no task spawned. */
    constructor (db: Table<Row>)
      requires db.Valid()
      ensures Valid() && this.db == db && Coordinator() == Flag(false, 0)
    {
      this.db := db;
      running, pending := false, 0;
    }

    /** `set_up_database`, run before the first request. */
    method SetUpDatabase()
      requires Valid()
      modifies db
      ensures Valid() && db.View() == CreateIfNotExists(old(db.View()))
    {
      CreateDevicesTable(db);
    }

    /** POST /devices: a known name gets its ip updated; a new name gets a record with
        colour (0, 0, 0) and power 0. */
    method RegisterDevice(name: string, ip: string) returns (res: Outcome<Reply>)
      requires Valid()
      modifies db
      ensures Valid()
      ensures (res, db.View()) == Register(old(db.View()), name, ip)
    {
      var deviceList := GetDeviceList(db.View());
      if deviceList.Raised? {
        return Raised(deviceList.exc);
      }
      if name in deviceList.value {
        var r := UpdateDeviceIp(db, name, ip);
        res := Then(r, DeviceAlreadyExists);
      } else {
        var r := CreateDevice(db, DeviceRecord(name, ip, Rgb(0, 0, 0), 0));
        res := Then(r, DeviceCreated);
      }
    }

    /** GET /devices/<name>: the first dict of the status read by name. */
    method DeviceStatusGet(name: string) returns (res: Outcome<DeviceRecord>)
      requires Valid()
      ensures !db.created ==> res == Raised(OperationalError)
      ensures db.created && name !in db.rows ==> res == Raised(IndexError)
      ensures db.created && name in db.rows ==> res.Returned? && res.value.name == name
                                                && ToRow(res.value) == db.rows[name]
    {
      var status := BackendSql.GetDeviceStatus(db, Some(name));
      if status.Raised? {
        return Raised(status.exc);
      }
      if |status.value| == 0 {
        return Raised(IndexError);
      }
      res := Returned(status.value[0]);
    }

    /** PUT /devices/<name>: write rgb and power, then ask for a propagation. */
    method DeviceStatusPut(name: string, rgb: Rgb, power: int) returns (res: Outcome<Reply>, spawned: bool)
      requires Valid()
      modifies this, db
      ensures Valid()
      ensures db.View() == Commit(old(db.View()), UpdateRow(old(db.View()), name, SetStatus(rgb, power)))
      ensures !old(db.created) ==> res == Raised(OperationalError) && !spawned && Coordinator() == old(Coordinator())
      ensures old(db.created) ==> res == Returned(StatusChanged) && (Coordinator(), spawned) == AfterRequest(old(Coordinator()))
    {
      var r := BackendSql.SetDeviceStatus(db, name, rgb, power);
      if r.Raised? {
        return Raised(r.exc), false;
      }
      spawned := UpdateLeds();
      res := Returned(StatusChanged);
    }

    /** `update_leds`: open a window and spawn the deferred task, unless one is open. */
    method UpdateLeds() returns (spawned: bool)
      requires Valid()
      modifies this
      ensures Valid()
      ensures (Coordinator(), spawned) == AfterRequest(old(Coordinator()))
    {
      if running {
        return false;
      }
      running := true;
      pending := pending + 1;
      spawned := true;
    }

    /** `_send_led_state_update` firing after its delay: one full propagation over the
        table as it is now, then the flag is cleared unless the run raised. */
    method SendLedStateUpdate(net: nat -> Transport) returns (run: Run)
      requires Valid() && pending == 1
      modifies this
      ensures Valid()
      ensures run == Propagation(db.View(), None, net)
      ensures Coordinator() == AfterFire(old(Coordinator()), run.raised.Some?)
    {
      pending := pending - 1;
      run := SetDeviceStatus(None, net);
      if run.raised.None? {
        running := false;
      }
    }

    /** `set_device_status`: reads the device list and status dicts when it runs, PUTs
        each device's payload to its endpoint (ConnectionError swallowed), then
        broadcasts the whole table. */
    method SetDeviceStatus(name: Option<string>, net: nat -> Transport) returns (run: Run)
      requires db.Valid()
      ensures run == Propagation(db.View(), name, net)
    {
      var devices: seq<string>;
      if name.None? {
        var list := GetDeviceList(db.View());
        if list.Raised? {
          return Run([], Some(list.exc));
        }
        devices := list.value;
      } else {
        devices := [name.value];
      }
      var deviceInfo := BackendSql.GetDeviceStatus(db, name);
      if deviceInfo.Raised? {
        return Run([], Some(deviceInfo.exc));
      }
      // `devices` is a list here, so the `devices is None` guard of the source never holds.
      PropagationBySweep(db.View(), name, net, |devices|);
      var pushed := PushToDevices(|devices|, deviceInfo.value, net);
      if pushed.raised.Some? {
        return pushed;
      }
      var all := BackendSql.GetDeviceStatus(db, None);
      run := Run(pushed.events + [Broadcast(all.value)], None);
    }
  }

  /** The per-device loop of `set_device_status`: for i < n, PUT the payload of
      `info[i]` to its endpoint; a ConnectionError is logged and the loop goes on. */
  method PushToDevices(n: nat, info: seq<DeviceRecord>, net: nat -> Transport) returns (run: Run)
    ensures run == Sweep(n, info, net, 0)
  {
    var events: seq<Event> := [];
    var i := 0;
    while i < n
      invariant 0 <= i <= n
      invariant Sweep(n, info, net, 0) == Prepend(events, Sweep(n, info, net, i))
    {
      if i >= |info| {
        return Run(events, Some(IndexError));
      }
      var url := Url(info[i].ip);
      var statusDict := BuildPayload(info[i]);
      var outcome := net(i);
      SweepStep(n, info, net, i);
      events := events + [Send(url, statusDict, outcome)];
      if outcome == OtherErr {
        return Run(events, Some(RequestError));
      }
      i := i + 1;
    }
    run := Run(events, None);
  }

  /** Two PUTs to the same device within one window: the first spawns the deferred
      task, the second is absorbed, and the table holds the second write only. */
  method TwoPuts(s: Server, name: string, a: Rgb, pa: int, b: Rgb, pb: int) returns (first: bool, second: bool)
    requires s.Valid() && s.db.created && !s.running
    modifies s, s.db
    ensures s.Valid() && first && !second && s.Coordinator() == Flag(true, 1)
    ensures s.db.View() == UpdateRow(old(s.db.View()), name, SetStatus(b, pb)).value
  {
    ghost var t := s.db.View();
    var res1, res2;
    res1, first := s.DeviceStatusPut(name, a, pa);
    res2, second := s.DeviceStatusPut(name, b, pb);
    LastStatusWriteWins(t, name, a, pa, b, pb);
  }

  /** Two PUTs to the same device within one window, then the deferred task fires:
      the first PUT spawns the task, the second is absorbed, and the single run is the
      one for the second write alone (PushCarriesWrite says what it sends). With no
      transport error other than ConnectionError, the run ends normally and closes
      the window. */
  method BurstThenFire(s: Server, name: string, a: Rgb, pa: int, b: Rgb, pb: int, net: nat -> Transport)
    returns (first: bool, second: bool, run: Run)
    requires s.Valid() && s.db.created && !s.running
    requires forall j :: 0 <= j < |s.db.order| ==> net(j) != OtherErr
    modifies s, s.db
    ensures first && !second
    ensures run == Propagation(UpdateRow(old(s.db.View()), name, SetStatus(b, pb)).value, None, net)
    ensures run.raised == None && !s.running && s.pending == 0
  {
    ghost var u := UpdateRow(s.db.View(), name, SetStatus(b, pb)).value;
    FullSweep(u, net);
    first, second := TwoPuts(s, name, a, pa, b, pb);
    run := s.SendLedStateUpdate(net);
  }

  /** POST /devices as a function of the table before the request. */
  function Register(t: TableState<Row>, name: string, ip: string): (Outcome<Reply>, TableState<Row>)
    requires WellFormed(t)
  {
    match GetDeviceList(t)
    case Raised(e) => (Raised(e), t)
    case Returned(deviceList) =>
      if name in deviceList then
        var r := UpdateRow(t, name, SetIp(ip));
        (Then(Status(r), DeviceAlreadyExists), Commit(t, r))
      else
        var r := InsertRow(t, name, ToRow(DeviceRecord(name, ip, Rgb(0, 0, 0), 0)));
        (Then(Status(r), DeviceCreated), Commit(t, r))
  }

  /** Re-registering a known name replies "device already exists" and changes only
      that device's ip: no record is created, no other column or row changes. */
  lemma RegisterKnown(t: TableState<Row>, name: string, ip: string)
    requires WellFormed(t) && t.created && name in t.rows
    ensures var (reply, u) := Register(t, name, ip);
      && reply == Returned(DeviceAlreadyExists)
      && u.order == t.order && u.rows.Keys == t.rows.Keys
      && u.rows[name] == t.rows[name].(ip := ip)
      && forall k :: k in t.rows && k != name ==> u.rows[k] == t.rows[k]
  {
  }

  /** Registering a new name creates exactly one record: the given ip, colour (0, 0, 0)
      and power 0, appended to the full status read. */
  lemma RegisterNew(t: TableState<Row>, name: string, ip: string)
    requires WellFormed(t) && t.created && name !in t.rows
    ensures var (reply, u) := Register(t, name, ip);
      && reply == Returned(DeviceCreated)
      && StatusList(u, None) == StatusList(t, None) + [DeviceRecord(name, ip, Rgb(0, 0, 0), 0)]
  {
    CreateRoundTrip(t, DeviceRecord(name, ip, Rgb(0, 0, 0), 0));
  }

  /** The status dict of one device: a loop over r, g, b, then power. */
  method BuildPayload(d: DeviceRecord) returns (statusDict: map<string, int>)
    ensures statusDict.Keys == {"r", "g", "b", "power"}
    ensures statusDict["r"] == d.rgb.r && statusDict["g"] == d.rgb.g && statusDict["b"] == d.rgb.b
    ensures statusDict["power"] == d.power
    ensures statusDict == PayloadOf(d)
  {
    statusDict := map[];
    for j := 0 to 3
      invariant forall c :: c in statusDict <==> c in Colours[..j]
      invariant forall k :: 0 <= k < j ==> statusDict[Colours[k]] == Channel(d.rgb, k)
    {
      statusDict := statusDict[Colours[j] := Channel(d.rgb, j)];
    }
    statusDict := statusDict["power" := d.power];
    assert Colours[..3] == ["r", "g", "b"];
    assert statusDict.Keys == {"r", "g", "b", "power"};
  }
}
