# smart-led: a Dafny model of the LED registry and propagation core

smart-led controls Wi-Fi LED strips. Each strip registers with a server under a
name and an ip address. A web frontend then sets colour and power per device,
and the server pushes the state to the strip's HTTP endpoint `http://<ip>:80/leds`.
The repository holds two revisions of the server:

- **backend** (`backend/backend.py`, `backend/sql_utils.py`): devices live in a
  sqlite `devices` table with columns name (primary key), ip, r, g, b and power,
  and every sqlite error propagates. A status PUT writes the table and asks for a
  propagation. A global flag, `state_update_running`, debounces these requests
  into one deferred task. When that task fires, it reads the whole table, PUTs
  `{r, g, b, power}` to every device (a `ConnectionError` is swallowed per
  device), and then broadcasts the whole table to viewers once.
- **raspi** (`raspi/app.py`, `raspi/sql_utils.py`): devices live in an in-memory
  dict. A status PUT merges only the r/g/b keys it carries and sends exactly those
  keys to the device. Its sqlite layer has no power column, catches and prints
  every `sqlite3.Error`, and returns a single dict from a status read.

The model has five modules, one file each:

- `types.dfy` (`Types`) holds the shared records and the Python exceptions that
  matter (`Exc`, `Outcome`). It also holds the `devices` table as a value
  (`TableState`), with the semantics of INSERT and of UPDATE ... WHERE name = ?,
  and the table as an object updated in place (`Table`).
- `backend_sql.dfy` (`BackendSql`) and `raspi_sql.dfy` (`RaspiSql`) model the
  table operations of the two revisions. Each method is proved against the
  table-value functions.
- `backend.dfy` (`Backend`) models the backend server as the class `Server`: the
  database, the `running` flag and the count of spawned, unfired tasks. It also
  holds the coordinator as a state machine (`AfterRequest`, `AfterFire`,
  `Requests`) and a propagation run as a function of the table it reads
  (`Propagation`, `Sweep`). A run is a sequence of `Send` and `Broadcast` events
  plus the exception that ended it, if any.
- `raspi_app.dfy` (`RaspiApp`) models the raspi server as the class `App` over
  its `devices` map.

The model abstracts the outside world as follows:

- The result of the i-th HTTP PUT of a run is an input, `net(i)`, one of `Ok`,
  `ConnErr` or `OtherErr`.
- `SELECT *` without ORDER BY scans the table and returns rows in insertion order.
  `SELECT name` is answered from the primary-key index, so it returns the names
  in ascending key order (`Below`, the BINARY collation).
- A missing table is the sqlite error that is modelled; it surfaces as
  `OperationalError`.

## Model

| member | source | states |
|---|---|---|
| Types.UrlInjective | backend/backend.py:196-197 | distinct ips give distinct endpoint URLs, so each PUT is addressed to exactly one ip |
| Types.TransportExc | backend/backend.py:207-212 | a failed PUT raises ConnectionError exactly when the transport failure is a connection failure |
| Types.RowCount | backend/sql_utils.py:37-38 | with name as primary key, the SELECT order lists each row exactly once: as many names as rows |
| Types.NoTable | backend/sql_utils.py:33-34 | a fresh database file has no `devices` table and no rows |
| Types.CreateIfNotExists | backend/sql_utils.py:37-49 | CREATE TABLE IF NOT EXISTS leaves a table that exists, with rows and order exactly as before |
| Types.CreateIdempotent | backend/sql_utils.py:37-49 | creating the table twice is the same as once; on an existing table it changes nothing |
| Types.InsertRow | backend/sql_utils.py:71-76 | INSERT raises OperationalError without a table and IntegrityError on a duplicate name; otherwise it adds exactly the new row, last in order, and keeps every other row |
| Types.UpdateRow | backend/sql_utils.py:89-94 | UPDATE ... WHERE name = ? raises only without a table; it rewrites the matching row by the given column change, keeps all other rows and the order, and changes nothing for an unknown name |
| Types.Selected | backend/sql_utils.py:135-145 | SELECT by name returns at most one row, exactly when the name is present; a plain SELECT returns every row, in table order |
| Types.Then | backend/backend.py:63-78 | a handler that calls a statement returns its reply iff the statement did not raise, and otherwise passes the exception on |
| Types.BelowIrreflexive | backend/sql_utils.py:38 | no name sorts before itself in key order |
| Types.BelowTransitive | backend/sql_utils.py:38 | key order is transitive |
| Types.BelowTotal | backend/sql_utils.py:38 | any two distinct names are ordered one way or the other |
| Types.AscendingDistinct | backend/sql_utils.py:38 | a list ascending in key order has no duplicates |
| Types.InsertName | backend/sql_utils.py:168-171 | inserting a new name into an ascending list keeps it ascending and adds exactly that name |
| Types.KeyOrder | backend/sql_utils.py:168-171 | the primary-key index lists a set of distinct names ascending, one entry per name, exactly those names |
| Types.AscendingUnique | backend/sql_utils.py:168-171 | two ascending lists with the same names are equal, so the index order depends only on the set of names |
| Types.Table.constructor | backend/sql_utils.py:33-34 | a new database has no `devices` table |
| Types.Table.Store | backend/sql_utils.py:49 | a committed statement leaves the table in exactly the resulting state |
| BackendSql.ToRecord | backend/sql_utils.py:148-155 | the dict of a fetched row carries the row's name, and its ip, rgb tuple and power are those of the stored row |
| BackendSql.StatusList | backend/sql_utils.py:145-157 | the status read returns one dict per selected row, in row order, each equal to its stored row |
| BackendSql.CreateDevicesTable | backend/sql_utils.py:23-49 | the table afterwards is CREATE TABLE IF NOT EXISTS of the table before |
| BackendSql.CreateDevice | backend/sql_utils.py:52-76 | inserts the row (name, ip, rgb, power); an error is raised and the table is left unchanged |
| BackendSql.UpdateDeviceIp | backend/sql_utils.py:79-94 | runs UPDATE SET ip on the named row; an error is raised and the table is left unchanged |
| BackendSql.SetDeviceStatus | backend/sql_utils.py:97-121 | runs UPDATE SET r, g, b, power on the named row; an error is raised and the table is left unchanged |
| BackendSql.GetDeviceStatus | backend/sql_utils.py:124-157 | the append loop returns exactly the status list of the selected rows; OperationalError without a table |
| BackendSql.GetDeviceList | backend/sql_utils.py:160-175 | the names of all rows in ascending key order: one entry per row, no duplicates, every name present; OperationalError without a table |
| BackendSql.DeviceListMatchesStatus | backend/sql_utils.py:141-175 | the name list and the full status read have the same length and list the same devices |
| BackendSql.StatusByName | backend/sql_utils.py:135-157 | a status read by name returns at most one dict, the empty list exactly for an unknown name |
| BackendSql.CreateRoundTrip | backend/sql_utils.py:64-69 | after inserting d, the read by d's name returns exactly [d], and the full read gains exactly d at the end |
| BackendSql.CreateDuplicate | backend/sql_utils.py:37-38 | inserting an existing name raises and leaves the table unchanged |
| BackendSql.UpdateIpOnlyIp | backend/sql_utils.py:79-94 | after update_device_ip_sql, the named row differs only in ip, and every other row and column reads as before |
| BackendSql.SetStatusOnlyColour | backend/sql_utils.py:97-121 | after set_device_status_sql, the named row differs only in r, g, b and power; name, ip and other rows read as before |
| BackendSql.LastStatusWriteWins | backend/sql_utils.py:97-121 | two status writes to the same row leave the table the second write alone leaves |
| Backend.BuildPayload | backend/backend.py:200-204 | the loop over r, g, b and then power builds a dict with exactly the keys r, g, b, power holding the device's channels and power |
| Backend.Sweep | backend/backend.py:195-212 | the per-device loop only sends, at most one PUT per device, and can end only with IndexError or a non-connection transport error |
| Backend.PushToDevices | backend/backend.py:195-212 | the imperative per-device loop produces exactly the sends and the exception of Sweep |
| Backend.Propagation | backend/backend.py:175-216 | a run that returns normally ends with exactly one broadcast of the whole table after only sends; a run that raises has only sends; without a table it raises OperationalError before any send |
| Backend.AfterRequest | backend/backend.py:145-154 | update_leds always leaves the flag set; it spawns iff the flag was clear; when it does not spawn, nothing changes |
| Backend.AfterFire | backend/backend.py:167-172 | when the task finishes, the flag is clear if the run returned normally and stays set if it raised |
| Backend.AbsorbedWhileOpen | backend/backend.py:148-149 | while the flag is set, any number of update_leds calls spawns nothing and leaves the flag set |
| Backend.BurstSpawnsOnce | backend/backend.py:148-154 | from a clear flag, any burst of n >= 1 update_leds calls sets the flag and spawns exactly one task |
| Backend.ReopensAfterFire | backend/backend.py:170-172 | after the task returned normally, the next burst again spawns exactly one task |
| Backend.StuckAfterRaise | backend/backend.py:168-172 | after the task raised, the flag stays set with no task pending, and no later request ever spawns one |
| Backend.PropagationBySweep | backend/backend.py:183-216 | a run on an existing table is the per-device loop over the working set, followed by the broadcast if the loop did not raise |
| Backend.SweepStep | backend/backend.py:195-212 | one loop iteration sends the device's payload to its URL; only a non-connection error stops the loop |
| Backend.Sends | backend/backend.py:195-210 | iterations i..n-1 of the loop send, in order, one PUT per device with its payload to its URL |
| Backend.SweepReachesAll | backend/backend.py:207-212 | when no PUT fails other than by ConnectionError, every device from i on is sent its payload, in order, one PUT each |
| Backend.SweepStopsAt | backend/backend.py:207-212 | the first non-connection error, at device k, ends the loop right after that PUT, raising RequestError |
| Backend.FullSweepShape | backend/backend.py:183-216 | with only successes or connection failures, the run is one PUT per status dict in table order, then the broadcast |
| Backend.FullSweep | backend/backend.py:190-216 | per-device isolation: with only successes or connection failures, every row's {r, g, b, power} is PUT to its own URL in table order, then the whole table is broadcast exactly once |
| Backend.SweepAborts | backend/backend.py:207-212 | a non-connection error at device k ends the run after k + 1 PUTs, with no broadcast, and RequestError escapes |
| Backend.EmptyRegistry | backend/backend.py:189-192 | with an empty registry there is no PUT and still exactly one broadcast of the empty table, since the `devices is None` guard never holds |
| Backend.NamedRun | backend/backend.py:183-187 | a run for one name sends one PUT and then the full broadcast when the name exists, and raises IndexError before any PUT when it does not |
| Backend.LastWriteWins | backend/backend.py:157-168 | a run that fires after two status writes to a device is the run for the second write alone |
| Backend.PushCarriesWrite | backend/backend.py:183-204 | after a status write to the k-th device, the run returns normally and its k-th PUT carries the written colour and power to the device's unchanged ip |
| Backend.TwoWritesThenRun | backend/backend.py:157-187 | after two writes to the k-th device, the run that fires returns normally and its k-th PUT carries the second write |
| Backend.RegisterKnown | backend/backend.py:63-67 | re-registering a known name replies "device already exists", creates no record and changes only that device's ip |
| Backend.RegisterNew | backend/backend.py:69-78 | registering a new name replies "device created" and appends exactly one record with the given ip, rgb (0, 0, 0) and power 0 |
| Backend.Server.constructor | backend/backend.py:24-25 | process start: the flag is clear and no task is pending |
| Backend.Server.SetUpDatabase | backend/backend.py:40-46 | runs CREATE TABLE IF NOT EXISTS on the server's database |
| Backend.Server.RegisterDevice | backend/backend.py:58-79 | the reply and the new table are those of Register on the table before the request |
| Backend.Server.DeviceStatusGet | backend/backend.py:94-96 | returns the record of the named device; IndexError for an unknown name; OperationalError without a table |
| Backend.Server.DeviceStatusPut | backend/backend.py:98-111 | writes rgb and power to the named row and then runs update_leds; without a table it raises before update_leds |
| Backend.Server.UpdateLeds | backend/backend.py:133-154 | the coordinator moves as AfterRequest says, and the method reports whether it spawned |
| Backend.Server.SendLedStateUpdate | backend/backend.py:157-172 | the fired task is one propagation over the table as it is now, then the flag moves as AfterFire says |
| Backend.Server.SetDeviceStatus | backend/backend.py:175-216 | the imperative run (list, status read, per-device loop, broadcast read) produces exactly Propagation of the current table |
| Backend.TwoPuts | backend/backend.py:98-154 | two status PUTs to one device from a clear flag: the first spawns, the second is absorbed, and the table holds the second write |
| Backend.BurstThenFire | backend/backend.py:98-172 | two PUTs in one window and then the fired task: one spawn, and a run equal to the run for the second write, which returns normally and clears the flag |
| RaspiSql.Caught | raspi/sql_utils.py:78-79 | an sqlite error is caught and printed exactly when the statement raised |
| RaspiSql.CreateDevicesTable | raspi/sql_utils.py:20-49 | the table afterwards is CREATE TABLE IF NOT EXISTS of the table before |
| RaspiSql.CreateDevice | raspi/sql_utils.py:52-83 | inserts (name, ip, r, g, b); an error is caught and printed, and the table is left unchanged |
| RaspiSql.UpdateDeviceIp | raspi/sql_utils.py:86-111 | runs UPDATE SET ip on the named row; an error is caught and printed, and the table is left unchanged |
| RaspiSql.SetDeviceStatus | raspi/sql_utils.py:114-147 | runs UPDATE SET r, g, b on the named row; an error is caught and printed, and the table is left unchanged |
| RaspiSql.GetDeviceStatus | raspi/sql_utils.py:150-180 | without a table the caught error makes it return None; for an unknown name IndexError escapes; otherwise it returns the named row's ip and colour |
| RaspiSql.GetDeviceList | raspi/sql_utils.py:183-209 | the names of all rows in ascending key order, one per row; None when the error was caught |
| RaspiSql.CreateThenRead | raspi/sql_utils.py:52-83 | after a successful insert the new name reads back its ip and colour, and every other name reads as before |
| RaspiSql.DuplicateCaught | raspi/sql_utils.py:78-79 | a duplicate insert is caught as IntegrityError and changes nothing |
| RaspiSql.ColourWriteThenRead | raspi/sql_utils.py:114-147 | a colour write is what the next read of that device returns, with its ip untouched; other devices read as before |
| RaspiSql.IpWriteThenRead | raspi/sql_utils.py:86-111 | an ip write is what the next read of that device returns, with its colour untouched; other devices read as before |
| RaspiSql.UnknownNameWrites | raspi/sql_utils.py:163-178 | writes to an unknown name change nothing, and reading that name raises IndexError |
| RaspiSql.ListAfterCreate | raspi/sql_utils.py:183-202 | after a successful insert the device list is the old list with the new name slotted in at its place in key order |
| RaspiApp.Provided | raspi/app.py:50-54 | the status dict holds exactly the keys among r, g, b present in the request, with the request's values |
| RaspiApp.ColoursOf | raspi/app.py:50-54 | the loop over r, g, b copies exactly the colour keys present in the request, with their values |
| RaspiApp.MergeOnlyProvided | raspi/app.py:55 | the merge keeps the ip; each channel takes the provided value and keeps the old one otherwise |
| RaspiApp.MergeIdempotent | raspi/app.py:55 | repeating the same merge changes nothing more, and merging an empty status dict changes nothing |
| RaspiApp.App.constructor | raspi/app.py:9-10 | the device dict starts empty |
| RaspiApp.App.RegisterDevice | raspi/app.py:22-33 | a new name gets exactly {ip, r: 0, g: 0, b: 0}; a known name leaves the dict completely unchanged, ip included |
| RaspiApp.App.DeviceStatusGet | raspi/app.py:46-47 | returns the named entry; KeyError exactly for an unregistered name |
| RaspiApp.App.DeviceStatusPut | raspi/app.py:49-59 | KeyError with nothing changed and nothing sent for an unknown name; otherwise only that entry changes, by the merge, the provided keys are PUT to its URL, and a failed PUT raises after the merge |
| RaspiApp.App.SetDeviceStatus | raspi/app.py:62-73 | PUTs exactly the given status dict to the device's URL; a failed PUT raises; KeyError for an unknown name |

## Left out

- Flask routing, JSON parsing, `jsonify`/`Response` bodies and status codes, CORS and process start-up: handlers take already-parsed arguments and return a reply tag.
- The GET branch of `/devices` in both servers returns the device list (or the dict) unchanged. It is covered by `GetDeviceList` and by `App.devices`, not by a separate member.
- eventlet `monkey_patch`, `spawn` and `sleep(0.5)`: the deferred task is an explicit `SendLedStateUpdate` call, and no real time or green-thread scheduling is modelled. The check-and-set in `update_leds` has no yield point, so it is atomic here.
- The requests `Session`, its `Retry(total=1)` adapter and the 0.3 s timeout: each PUT's result is the input `net(i)`. A reply with an error status is not an exception in requests, so it counts as `Ok`. With the retry adapter, a refused connection or a timeout ends as a ConnectionError (`ConnErr`). An exception that escapes the loop (`OtherErr`) is, for example, InvalidURL for a device registered with an empty ip.
- SocketIO `emit`, the `connect` and `getState` handlers: a broadcast is a `Broadcast` event carrying the status list.
- sqlite connection management and connection failures (`_create_db_connection` returning None), SQL text, and transactions beyond "a failed statement leaves the table unchanged". A missing table is the only sqlite error source modelled.
- Row order: sqlite promises no order without ORDER BY. The model follows the query plans sqlite picks for this schema. `SELECT *` scans the table in rowid order, which is insertion order since rows are never deleted. `SELECT name` is answered from the covering primary-key index, in ascending key order.
- Value types: colour channels and power are unbounded integers with no range checks, as in the source. JSON values of other types, and missing keys in request JSON or in device dicts, are not modelled.
- Backend.Server.SetDeviceStatus: the `devices is None` guard is dead code, since the device list is always a list. The loop variable `d` is unused; only the length of the device list matters. So the model iterates over the list's length.
- Backend.BurstThenFire: states the run as the run for the second write alone; the k-th PUT's payload follows from PushCarriesWrite rather than being repeated in its own contract.
- Backend.Server.SendLedStateUpdate: the fired task runs atomically. In the source, `eventlet.monkey_patch()` makes each `http.put` yield to other green threads, and the flag stays set until the task ends. A status PUT handled during the sweep therefore writes the table and is absorbed by `update_leds`. The device info was already read, so no PUT carries that write; only the final broadcast shows it, and no new window opens until a later request. LastWriteWins, TwoWritesThenRun and BurstThenFire hold only for writes that land before the task fires.
- Logging and `print` calls.
- frontend/src/main.js is not part of this model; it holds no logic of the registry or the propagation.
