# xiaomi_ble session layer, modelled in Dafny

This project models the core of `xiaomi_ble`. That core is a BLE session layer over the bluepy stack (`ble.py`, class `Device`) and a temperature/humidity sensor built on it (`xiaomi.py`).

- A `Device` is either disconnected (no peripheral) or connected to one link.
- It is used inside a `with` block that holds a lock shared by every device.
- A `Device` can read and write attribute handles.
- It can wait for one notification after writing the enable value `01 00`.
- The sensor opens one scoped session, reads the battery handle `0x0018`, and waits for a notification after enabling handle `0x0010`.
- The sensor cuts the notification payload at fixed offsets (`data[2:6]`, `data[9:13]`) into temperature and humidity.

## Structure

- `base.dfy` (`Base`): `Option`, `Result`, `byte`, `Bytes`, and the Python exceptions the core raises or lets through (`Exc`).
- `bluepy.dfy` (`Bluepy`): the bluepy stack as an abstract environment.
  - Every call is appended to a trace (`Call`).
  - The answer to a call is an arbitrary function of the trace that ends with that call (`Env`).
  - So the model covers any stack that connects or refuses, reads, raises, delivers a notification or times out.
  - Class `Stack` holds the trace and answers each call.
- `ble.dfy` (`Ble`): the `Device` state machine in two forms.
  - Each operation is a pure step function over a `World`: the device's peripheral, the shared lock flag, and the stack trace. The lemmas reason about these functions.
  - Class `Radio` holds the class-wide lock flag.
  - Class `Device` has methods that change the objects step by step. Each method's `ensures` ties the state and result it produces to its step function.
- `xiaomi.dfy` (`Xiaomi`): the fixed-offset parser, battery decoding, `_read_data` as `ReadDataStep`, class `Sensor`, and the lemmas about a whole read.

Outside the bluepy collaborator, nothing is abstracted except Python's `float()`. It is a parameter `Converter = Bytes -> Option<real>`, where `None` stands for the `ValueError` it raises.

Two points of the model's reading of the code:

- The notification handler runs inside bluepy's `waitForNotifications`, so whatever the handler raises is raised by that call. A `BTLEException` from the handler becomes `False`, like one from the wait itself. Any other exception escapes `wait_for_notification`, including the `ValueError` of a payload that does not parse. `WaitStep` states both cases, and `SessionBody` and `ReadDataResult` carry the `ValueError` up to the caller of `_read_data`. The model's handler returns the pair it would assign, and the sensor assigns both fields right after the wait returns, before `__exit__`.
- `wait_for_notification` returns Python `True` or `False`. The model returns `Ok(Some(pair))` for `True` (the pair is the handler's effect) and `Ok(None)` for `False`.

The three read-only properties `battery`, `temperature` and `humidity` are accessor functions (`Xiaomi.Sensor.Battery`, `Temperature`, `Humidity`) of the sensor's current reading.

### Behaviours worth knowing

- **Lock order on exit.** `__exit__` releases the lock first and disconnects afterwards (ble.py:79-80). So a disconnect that raises leaves the lock free while the device still holds its link (`ExitFreesLockBeforeDisconnect`).
- **Wait timeout.** `_read_data` ignores what `wait_for_notification` returns (xiaomi.py:38-39). A timeout is a normal return with unchanged temperature and humidity (`ReadDataTimeout`).
- **Stack errors during the wait.** Any `BTLEException` raised during the wait becomes `False` (ble.py:119-121). It never reaches the caller.
- **Parser.** The only parser cuts the payload at fixed offsets (xiaomi.py:12-13). It does not look for the `T=` and `H=` markers.
- **Battery range.** The `battery` docstring says "0-100" (xiaomi.py:43). The code stores the raw byte, 0-255 (`BatteryNotClamped`). A response of more than one byte raises `TypeError` from `ord()`.

## Model

| member | source | states |
|---|---|---|
| `Ble.ReleaseStep` | ble.py:79 | releasing always leaves the lock free; it succeeds exactly when the lock was held, otherwise `RuntimeError`; peripheral and trace unchanged |
| `Ble.ConnectStep` | ble.py:82-85 | one connect call with the device's MAC and address type; on success the stack's link is installed, on an exception the previous peripheral stays and the exception is returned |
| `Ble.DisconnectStep` | ble.py:87-93 | on a disconnected device: no stack call, no change, no error; otherwise exactly one disconnect call on the link; the link is dropped only when that call returns; the lock is untouched |
| `Ble.EnterStep` | ble.py:69-76 | exactly one connect call; success leaves the lock held and the device connected to the stack's link; a failing connect leaves the lock free, the peripheral as before, and propagates the stack's exception |
| `Ble.ExitStep` | ble.py:78-80 | the lock is free afterwards on every path; a held lock leads to one disconnect call (if connected), whose result is `__exit__`'s; a free lock raises `RuntimeError` and skips the disconnect; success implies disconnected |
| `Ble.ReadHandleStep` | ble.py:95-97 | connected: one read call on the device's link and exactly the stack's bytes or exception; disconnected: `AttributeError` and no call |
| `Ble.WriteHandleStep` | ble.py:99-101 | connected: one write call with the given handle and value unchanged and `withResponse` true, returning the stack's answer; disconnected: `AttributeError` |
| `Ble.WaitStep` | ble.py:103-121 | the first call is the write of `01 00` to the handle; an exception from it propagates with no wait; otherwise one wait call with the device's timeout follows; `True` exactly when a notification arrived and the handler accepted it; a quiet wait, or a `BTLEException` raised by the wait or by the handler, gives `False`; any other exception of the wait or the handler is the result |
| `Ble.DisconnectIdempotent` | ble.py:87-93 | after a disconnect that returned, a second one makes no call and changes nothing |
| `Ble.ConnectThenDisconnect` | ble.py:82-93 | a successful connect followed by disconnect makes exactly the calls connect, disconnect(new link); a disconnect that returns leaves the device disconnected |
| `Ble.EnterThenExit` | ble.py:69-93 | an entered and exited session leaves the lock free, adds exactly one disconnect, of the opened link, to the trace, and is disconnected unless that disconnect raised |
| `Ble.ExitFreesLockBeforeDisconnect` | ble.py:78-80 | when the disconnect raises, `__exit__` still ends with the lock free and the link still installed |
| `Ble.WaitWritesEnableFirst` | ble.py:116-118 | the wait call of `wait_for_notification` comes right after a write of exactly `[0x01, 0x00]` to the same handle, with the device's timeout |
| `Ble.Radio.constructor` | ble.py:60 | the class-wide lock starts free |
| `Ble.Radio.Acquire` | ble.py:70 | acquiring a free lock holds it |
| `Ble.Radio.Release` | ble.py:74 | the lock is free afterwards; releasing a free lock raises `RuntimeError` |
| `Ble.Device.constructor` | ble.py:62-67 | stores MAC, timeout (default 30) and address type (default public); a new device is disconnected |
| `Ble.Device.Connect` | ble.py:82-85 | the device's new peripheral, lock and stack trace are those of `ConnectStep` |
| `Ble.Device.Disconnect` | ble.py:87-93 | the new state and result are those of `DisconnectStep` |
| `Ble.Device.Enter` | ble.py:69-76 | the new state and result are those of `EnterStep` |
| `Ble.Device.Exit` | ble.py:78-80 | the new state and result are those of `ExitStep` |
| `Ble.Device.ReadHandle` | ble.py:95-97 | the new trace and result are those of `ReadHandleStep` |
| `Ble.Device.WriteHandle` | ble.py:99-101 | the new trace and result are those of `WriteHandleStep` |
| `Ble.Device.WaitForNotification` | ble.py:103-121 | the new trace and result are those of `WaitStep` |
| `Xiaomi.Slice` | xiaomi.py:12-13 | Python slicing `s[lo:hi]`: both bounds cut back to the length; element `i` is `s[lo + i]` |
| `Xiaomi.ParseData` | xiaomi.py:10-14 | succeeds exactly when both `data[2:6]` and `data[9:13]` convert; the result is the pair of those numbers; otherwise `ValueError` |
| `Xiaomi.ParseExample` | xiaomi.py:12-13 | for the payload `T=23.5 H=41.0` the two texts are `23.5` and `41.0` |
| `Xiaomi.ShortPayloadRejected` | xiaomi.py:13 | a payload of at most 9 bytes has an empty humidity text and is rejected with `ValueError` |
| `Xiaomi.DataHandler` | xiaomi.py:28-31 | the handler succeeds exactly when both texts convert, and then yields the pair of converted numbers; its only error is `ValueError` |
| `Xiaomi.BoundHandler` | xiaomi.py:28-31 | the bound method passed to the device, for every handle and payload, has the effect of parsing the payload |
| `Xiaomi.HandlerIgnoresHandle` | xiaomi.py:28-31 | the handler's effect is the same whichever handle it is called with |
| `Xiaomi.DecodeBattery` | xiaomi.py:36-37 | an empty response keeps the current level; one byte becomes the level; more bytes raise `TypeError` |
| `Xiaomi.BatteryNotClamped` | xiaomi.py:43 | a response byte of 200 yields battery 200, outside the documented 0-100 |
| `Xiaomi.SessionBody` | xiaomi.py:35-39 | on a connected device the body makes the first one, two or three of: battery read, enable write, wait; peripheral and lock unchanged; temperature and humidity are both unchanged or both the parsed pair of the delivered notification; a failed battery read or an answer of more than one byte ends the body before the write and the wait, with the read's exception or `TypeError`; a body that stops after the write fails with the write's exception; after the wait the body fails exactly when the wait raised something other than a `BTLEException` (that exception) or the notification did not parse (`ValueError`); a disconnected device gives `AttributeError` and no call |
| `Xiaomi.ReadDataStep` | xiaomi.py:33-39 | a read always ends with the shared lock free |
| `Xiaomi.ReadDataResult` | xiaomi.py:33-39 | once connected, the read's calls and readings are the body's followed by one disconnect, and its result is the disconnect's exception if that raised, the body's result otherwise |
| `Xiaomi.ReadDataCalls` | xiaomi.py:33-39 | a refused connect is the only call and changes nothing else; otherwise the calls are connect, battery read of 0x0018, enable write on 0x0010, wait, in that order, followed by exactly one disconnect of the opened link; a read that stops before the wait fails |
| `Xiaomi.ReadDataDisconnectsOnce` | xiaomi.py:34 | a read issues exactly one disconnect if its connect succeeded and none otherwise |
| `Xiaomi.ReadDataReleases` | xiaomi.py:34 | every outcome, failures included, has the lock free; a link survives only when the final disconnect raised, and the read then fails |
| `Xiaomi.ReadDataFields` | xiaomi.py:28-39 | temperature and humidity become the parsed pair exactly when the wait delivered a notification that parses; otherwise both keep their values |
| `Xiaomi.ReadDataBattery` | xiaomi.py:35-37 | the battery becomes the single byte the battery read answered; an empty answer, a failed read or no read leaves it unchanged |
| `Xiaomi.ReadDataTimeout` | xiaomi.py:38-39 | a wait that times out or raises a `BTLEException` is no error: the read fails only if the disconnect does, and temperature and humidity keep their values |
| `Xiaomi.ScenarioReading` | xiaomi.py:33-39 | battery answer `0x32` and notification `T=21.3 H=55.2` give battery 50, temperature 21.3, humidity 55.2, no error, five calls ending with the disconnect |
| `Xiaomi.ScenarioTimeout` | xiaomi.py:38-39 | the same device with a wait that times out returns without error, keeps the default temperature and humidity, and disconnects exactly once |
| `Xiaomi.Sensor.Init` | xiaomi.py:20-25 | a new sensor stores MAC and timeout and starts at temperature 0.0, humidity 0.0, battery 0 |
| `Xiaomi.Sensor.Create` | xiaomi.py:20-26 | constructing a sensor is the defaults followed by one read; it yields a fresh sensor, holding its arguments and that read's readings, exactly when the read succeeds, and otherwise raises the read's exception |
| `Xiaomi.Sensor.Battery` | xiaomi.py:41-44 | the battery level of the sensor's current reading |
| `Xiaomi.Sensor.Temperature` | xiaomi.py:46-49 | the temperature of the sensor's current reading |
| `Xiaomi.Sensor.Humidity` | xiaomi.py:51-54 | the humidity of the sensor's current reading |
| `Xiaomi.Sensor.ReadData` | xiaomi.py:33-39 | the sensor's readings, the lock and the stack trace afterwards are those of `ReadDataStep` from a fresh, disconnected device |
| `Xiaomi.Sensor.Session` | xiaomi.py:35-39 | the readings, device state and result of the `with` body are those of `SessionBody` |

## Left out

- `scan_for_devices` and `_discovery_handler` (ble.py:21-41) are not modelled: they do radio scanning and logging only.
- Logging calls are not modelled: they have no effect on behaviour.
- Threads are not modelled. The shared `threading.Lock` is a held/free flag. Acquiring a held lock would block until another thread releases it, so `Radio.Acquire`, `Device.Enter` and `EnterStep` require the lock to be free. Mutual exclusion between threads is not modelled.
- Python floats are modelled as `real`, and `float()` is the abstract `Converter`. It may accept or reject any text, so NaN, infinities and rounding are not represented.
- bluepy internals are not modelled: link establishment, attribute encoding, event pumping and real timing. The stack is the abstract `Env`, and a Python exception raised by the stack is an `Exc` value in its answer.
- `withDelegate` (ble.py:112-114) is not a recorded stack call. The model passes the handler to the wait directly. The delegate staying installed on the peripheral after the wait has no effect in the core, so it is not modelled.
- `Ble.Device.WriteHandle` and `Ble.WriteHandleStep`: success returns no value. The model drops the response that `writeCharacteristic` returns, because the core never uses it.
- Address types are limited to the two constants `ADDR_TYPE_PUBLIC` and `ADDR_TYPE_RANDOM`. Any other value the Python signature would accept is not modelled.
