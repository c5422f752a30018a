/**
 * xiaomi.py: the temperature/humidity sensor. One scoped `Device` session
 * reads the battery handle, then waits for one notification whose payload
 * is cut at fixed offsets into the temperature and humidity texts.
 */
module Xiaomi {
  import opened Base
  import opened Bluepy
  import opened Ble

  /** `_HANDLE_SENSOR_DATA`: where notifications are switched on. */
  const HandleSensorData: Handle := 0x0010
  /** `_HANDLE_BATTERY_LEVEL`: read for the battery level. */
  const HandleBatteryLevel: Handle := 0x0018

  /**
   * Python's `float()` applied to a `bytes` value: the number it denotes,
   * or `None` where it raises `ValueError`. Kept abstract.
   */
  type Converter = Bytes -> Option<real>

  /** The sensor's three readings. */
  datatype Reading = Reading(temperature: real, humidity: real, battery: int)

  /** What `__init__` stores before the first read. */
  const Defaults: Reading := Reading(0.0, 0.0, 0)

  /** The state and readings after a read, and what it returned or raised. */
  datatype ReadOutcome = ReadOutcome(world: World, reading: Reading, result: Result<(), Exc>)

  // ---------------------------------------------------------------------
  // Payload and battery decoding

  /** Python's `s[lo:hi]` for `0 <= lo <= hi`: both ends are cut back to `len(s)`. */
  function Slice(s: Bytes, lo: nat, hi: nat): (r: Bytes)
    requires lo <= hi
    ensures |r| == (if hi <= |s| then hi - lo else if lo <= |s| then |s| - lo else 0)
    ensures forall i :: 0 <= i < |r| ==> r[i] == s[lo + i]
  {
    if |s| <= lo then [] else if |s| <= hi then s[lo..] else s[lo..hi]
  }

  /**
   * `_temp_sensor_parse_data`: the temperature is the number in
   * `data[2:6]`, the humidity the number in `data[9:13]`; if either text is
   * not a number, `float()` raises `ValueError`.
   */
  function ParseData(toFloat: Converter, data: Bytes): (r: Result<(real, real), Exc>)
    ensures r.Ok? <==> toFloat(Slice(data, 2, 6)).Some? && toFloat(Slice(data, 9, 13)).Some?
    ensures r.Ok? ==> r.value == (toFloat(Slice(data, 2, 6)).value, toFloat(Slice(data, 9, 13)).value)
    ensures r.Err? ==> r.error == ValueError
  {
    var temperature := toFloat(Slice(data, 2, 6));
    if temperature.None? then Err(ValueError)
    else
      var humidity := toFloat(Slice(data, 9, 13));
      if humidity.None? then Err(ValueError)
      else Ok((temperature.value, humidity.value))
  }

  /**
   * `_temp_sensor_data_handler`: the effect of one notification, the pair
   * to store as temperature and humidity. The handle is discarded.
   */
  function DataHandler(toFloat: Converter, handle: Handle, data: Bytes): (r: Result<(real, real), Exc>)
    ensures r.Ok? <==> toFloat(Slice(data, 2, 6)).Some? && toFloat(Slice(data, 9, 13)).Some?
    ensures r.Ok? ==> r.value == (toFloat(Slice(data, 2, 6)).value, toFloat(Slice(data, 9, 13)).value)
    ensures r.Err? ==> r.error == ValueError
  {
    ParseData(toFloat, data)
  }

  /** The bound method `self._temp_sensor_data_handler`, as passed to the device. */
  function BoundHandler(toFloat: Converter): (f: (Handle, Bytes) -> Result<(real, real), Exc>)
    ensures forall handle, data :: f(handle, data) == ParseData(toFloat, data)
  {
    (handle, data) => DataHandler(toFloat, handle, data)
  }

  /**
   * `if battery_data: self._battery = int(ord(battery_data))`: an empty
   * answer keeps the current level, one byte becomes the level (never
   * clamped to 0..100), and `ord()` of more bytes raises `TypeError`.
   */
  function DecodeBattery(data: Bytes, current: int): (r: Result<int, Exc>)
    ensures |data| == 0 ==> r == Ok(current)
    ensures |data| == 1 ==> r == Ok(data[0] as int)
    ensures |data| > 1 ==> r == Err(TypeError)
  {
    if |data| == 0 then Ok(current)
    else if |data| == 1 then Ok(data[0] as int)
    else Err(TypeError)
  }

  /** The level is the raw byte: the documented 0..100 range is not enforced. */
  lemma BatteryNotClamped()
    ensures DecodeBattery([0xC8], 0) == Ok(200)
  {
  }

  // ---------------------------------------------------------------------
  // The read

  /** The calls a session body makes, in order, on `link`. */
  function BodyCalls(cfg: Config, link: Link): seq<Call>
  {
    [ReadCall(link, HandleBatteryLevel),
     WriteCall(link, HandleSensorData, DataModeListen, true),
     WaitCall(link, cfg.timeout)]
  }

  /**
   * The body of the `with` block in `_read_data`. On a connected device
   * it makes a prefix of `BodyCalls` (the battery read always first) and
   * stops at the first exception, which is its result. Temperature and
   * humidity change together and only through the handler; the battery
   * only through `DecodeBattery`.
   */
  function SessionBody(env: Env, toFloat: Converter, cfg: Config, w: World, rd: Reading): (o: ReadOutcome)
    ensures o.world.peripheral == w.peripheral && o.world.locked == w.locked
    ensures w.peripheral.Some? ==>
      && |w.trace| + 1 <= |o.world.trace| <= |w.trace| + 3
      && o.world.trace == w.trace + BodyCalls(cfg, w.peripheral.value)[..|o.world.trace| - |w.trace|]
    ensures w.peripheral.None? ==> o == ReadOutcome(w, rd, Err(AttributeError))
    ensures w.peripheral.Some? ==>
      var answer := env.read(w.trace + [ReadCall(w.peripheral.value, HandleBatteryLevel)]);
      answer.Err? || |answer.value| > 1 ==> |o.world.trace| == |w.trace| + 1
    ensures w.peripheral.Some? && |o.world.trace| < |w.trace| + 3 ==> o.result.Err?
    ensures w.peripheral.Some? && |o.world.trace| == |w.trace| + 1 ==>
      var answer := env.read(o.world.trace);
      if answer.Err? then o.result == Err(answer.error)
      else |answer.value| > 1 && o.result == Err(TypeError)
    ensures w.peripheral.Some? && |o.world.trace| == |w.trace| + 2 ==>
      env.write(o.world.trace).Err? && o.result == Err(env.write(o.world.trace).error)
    ensures w.peripheral.Some? && |o.world.trace| == |w.trace| + 3 ==>
      var answer := env.wait(o.world.trace);
      && env.write(o.world.trace[..|w.trace| + 2]).Ok?
      && (o.result.Err? <==>
            (answer.Raised? && !answer.exc.BTLEException?)
            || (answer.Notified? && ParseData(toFloat, answer.data).Err?))
      && (answer.Raised? && !answer.exc.BTLEException? ==> o.result == Err(answer.exc))
      && (answer.Notified? && ParseData(toFloat, answer.data).Err? ==> o.result == Err(ValueError))
    ensures (o.reading.temperature, o.reading.humidity) == (rd.temperature, rd.humidity)
      || (|o.world.trace| == |w.trace| + 3
          && env.wait(o.world.trace).Notified?
          && ParseData(toFloat, env.wait(o.world.trace).data) == Ok((o.reading.temperature, o.reading.humidity)))
  {
    var battery := ReadHandleStep(env, w, HandleBatteryLevel);
    if battery.result.Err? then ReadOutcome(battery.world, rd, Err(battery.result.error))
    else match DecodeBattery(battery.result.value, rd.battery)
      case Err(e) => ReadOutcome(battery.world, rd, Err(e))
      case Ok(level) =>
        var charged := rd.(battery := level);
        var waited := WaitStep(env, cfg, battery.world, HandleSensorData, BoundHandler(toFloat));
        match waited.result
        case Err(e) => ReadOutcome(waited.world, charged, Err(e))
        case Ok(None) => ReadOutcome(waited.world, charged, Ok(()))
        case Ok(Some(pair)) =>
          ReadOutcome(waited.world, charged.(temperature := pair.0, humidity := pair.1), Ok(()))
  }

  /**
   * `_read_data`: a fresh `Device(mac, timeout)` entered, the body run, and
   * the device exited on every path once entered. An exception from
   * `__exit__` replaces the body's result; otherwise the body's propagates.
   */
  function ReadDataStep(env: Env, toFloat: Converter, cfg: Config, trace: seq<Call>, rd: Reading): (o: ReadOutcome)
    ensures !o.world.locked
  {
    var entered := EnterStep(env, cfg, World(None, false, trace));
    if entered.result.Err? then ReadOutcome(entered.world, rd, entered.result)
    else
      var body := SessionBody(env, toFloat, cfg, entered.world, rd);
      var exited := ExitStep(env, body.world);
      ReadOutcome(exited.world, body.reading, if exited.result.Err? then exited.result else body.result)
  }

  /** Every call a read can make, in order, on the link it opens. */
  function ReadCalls(cfg: Config, link: Link): seq<Call>
  {
    [ConnectCall(cfg.mac, cfg.addrType)] + BodyCalls(cfg, link)
  }

  // ---------------------------------------------------------------------
  // Properties

  /** For the documented payload the two texts are `23.5` and `41.0`. */
  lemma ParseExample()
    ensures var payload := Ascii("T=23.5 H=41.0");
      Slice(payload, 2, 6) == Ascii("23.5") && Slice(payload, 9, 13) == Ascii("41.0")
  {
    var payload := Ascii("T=23.5 H=41.0");
    AsciiSlice("T=23.5 H=41.0", 2, 6);
    AsciiSlice("T=23.5 H=41.0", 9, 13);
    assert "T=23.5 H=41.0"[2..6] == "23.5";
    assert "T=23.5 H=41.0"[9..13] == "41.0";
  }

  /**
   * A payload of at most 9 bytes has an empty humidity text, and `float()`
   * of an empty text raises, so such a payload is always rejected.
   */
  lemma ShortPayloadRejected(toFloat: Converter, data: Bytes)
    requires toFloat([]) == None
    requires |data| <= 9
    ensures ParseData(toFloat, data) == Err(ValueError)
  {
  }

  /** The handler's effect does not depend on the handle it is called with. */
  lemma HandlerIgnoresHandle(toFloat: Converter, h1: Handle, h2: Handle, data: Bytes)
    ensures BoundHandler(toFloat)(h1, data) == BoundHandler(toFloat)(h2, data)
  {
  }

  /**
   * The order of the stack calls of one read. A refused connection is the
   * only call; otherwise the read makes a prefix of `ReadCalls` of at least
   * the connect and the battery read, and then exactly one disconnect of
   * the link it opened: the battery handle is read before the data handle
   * is enabled, and the wait comes last. A read cut short before the wait
   * fails.
   */
  lemma {:induction false} ReadDataCalls(env: Env, toFloat: Converter, cfg: Config, trace: seq<Call>, rd: Reading)
    ensures var o := ReadDataStep(env, toFloat, cfg, trace, rd);
      var opening := trace + [ConnectCall(cfg.mac, cfg.addrType)];
      && trace <= o.world.trace
      && (env.connect(opening).Err? ==>
            o == ReadOutcome(World(None, false, opening), rd, Err(env.connect(opening).error)))
      && (env.connect(opening).Ok? ==>
            var added := o.world.trace[|trace|..];
            && 3 <= |added| <= 5
            && added == ReadCalls(cfg, env.connect(opening).value)[..|added| - 1]
                        + [DisconnectCall(env.connect(opening).value)]
            && (|added| < 5 ==> o.result.Err?))
  {
    var o := ReadDataStep(env, toFloat, cfg, trace, rd);
    var opening := trace + [ConnectCall(cfg.mac, cfg.addrType)];
    var entered := EnterStep(env, cfg, World(None, false, trace));
    if env.connect(opening).Ok? {
      var link := env.connect(opening).value;
      var body := SessionBody(env, toFloat, cfg, entered.world, rd);
      var inside := body.world.trace[|opening|..];
      assert body.world.trace == opening + inside;
      assert o.world.trace == opening + inside + [DisconnectCall(link)];
      var added := o.world.trace[|trace|..];
      assert added == [ConnectCall(cfg.mac, cfg.addrType)] + inside + [DisconnectCall(link)];
      assert ReadCalls(cfg, link)[..|added| - 1] == [ConnectCall(cfg.mac, cfg.addrType)] + inside;
    }
  }

  /** A read closes a link exactly once if it opened one, and never otherwise. */
  lemma {:induction false} ReadDataDisconnectsOnce(env: Env, toFloat: Converter, cfg: Config, trace: seq<Call>, rd: Reading)
    ensures var o := ReadDataStep(env, toFloat, cfg, trace, rd);
      Disconnects(o.world.trace) == Disconnects(trace)
        + (if env.connect(trace + [ConnectCall(cfg.mac, cfg.addrType)]).Ok? then 1 else 0)
  {
    var o := ReadDataStep(env, toFloat, cfg, trace, rd);
    var opening := trace + [ConnectCall(cfg.mac, cfg.addrType)];
    ReadDataCalls(env, toFloat, cfg, trace, rd);
    if env.connect(opening).Ok? {
      var link := env.connect(opening).value;
      var added := o.world.trace[|trace|..];
      var made := ReadCalls(cfg, link)[..|added| - 1];
      NoDisconnects(made);
      DisconnectsAppend(made, [DisconnectCall(link)]);
      assert Disconnects([DisconnectCall(link)]) == 1 + Disconnects([DisconnectCall(link)][1..]);
      assert o.world.trace == trace + added;
      DisconnectsAppend(trace, added);
    } else {
      NoDisconnects([ConnectCall(cfg.mac, cfg.addrType)]);
      DisconnectsAppend(trace, [ConnectCall(cfg.mac, cfg.addrType)]);
    }
  }

  /**
   * Every failure reaches the caller with the lock free, and the device
   * keeps a link afterwards only when its disconnect raised.
   */
  lemma ReadDataReleases(env: Env, toFloat: Converter, cfg: Config, trace: seq<Call>, rd: Reading)
    ensures var o := ReadDataStep(env, toFloat, cfg, trace, rd);
      && !o.world.locked
      && (o.world.peripheral.Some? ==>
            && o.result.Err?
            && o.world.trace[|o.world.trace| - 1] == DisconnectCall(o.world.peripheral.value)
            && env.disconnect(o.world.trace).Err?)
  {
  }

  /**
   * Once connected, the read fails with the disconnect's exception when
   * `__exit__` raised, and otherwise with the body's own result.
   */
  lemma ReadDataResult(env: Env, toFloat: Converter, cfg: Config, trace: seq<Call>, rd: Reading)
    ensures var o := ReadDataStep(env, toFloat, cfg, trace, rd);
      var opening := trace + [ConnectCall(cfg.mac, cfg.addrType)];
      var link := env.connect(opening);
      link.Ok? ==>
        var body := SessionBody(env, toFloat, cfg, World(Some(link.value), true, opening), rd);
        && o.world.trace == body.world.trace + [DisconnectCall(link.value)]
        && o.reading == body.reading
        && o.result == (if env.disconnect(o.world.trace).Err? then Err(env.disconnect(o.world.trace).error)
                        else body.result)
  {
  }

  /**
   * Temperature and humidity are set together, to the parsed pair of the
   * notification the wait delivered, or both keep their values (the wait
   * timed out or raised, the handler raised, or an earlier step raised).
   */
  lemma {:induction false} ReadDataFields(env: Env, toFloat: Converter, cfg: Config, trace: seq<Call>, rd: Reading)
    ensures var o := ReadDataStep(env, toFloat, cfg, trace, rd);
      var n := |trace|;
      var delivered := |o.world.trace| == n + 5 && env.wait(o.world.trace[..n + 4]).Notified?;
      if delivered && ParseData(toFloat, env.wait(o.world.trace[..n + 4]).data).Ok? then
        (o.reading.temperature, o.reading.humidity)
        == ParseData(toFloat, env.wait(o.world.trace[..n + 4]).data).value
      else
        o.reading.temperature == rd.temperature && o.reading.humidity == rd.humidity
  {
    var o := ReadDataStep(env, toFloat, cfg, trace, rd);
    var n := |trace|;
    ReadDataCalls(env, toFloat, cfg, trace, rd);
    var entered := EnterStep(env, cfg, World(None, false, trace));
    if entered.result.Ok? {
      var body := SessionBody(env, toFloat, cfg, entered.world, rd);
      assert o.world.trace[..|body.world.trace|] == body.world.trace;
      assert |o.world.trace| == |body.world.trace| + 1;
      if |body.world.trace| == n + 4 {
        assert o.world.trace[..n + 4] == body.world.trace;
      } else {
        SessionBodyStopsEarly(env, toFloat, cfg, entered.world, rd);
      }
    }
  }

  /** A body that made fewer than three calls never ran the handler. */
  lemma SessionBodyStopsEarly(env: Env, toFloat: Converter, cfg: Config, w: World, rd: Reading)
    requires w.peripheral.Some?
    requires |SessionBody(env, toFloat, cfg, w, rd).world.trace| < |w.trace| + 3
    ensures var o := SessionBody(env, toFloat, cfg, w, rd);
      o.reading.temperature == rd.temperature && o.reading.humidity == rd.humidity
  {
  }

  /**
   * The battery is the one byte the battery read answered, whatever its
   * value; an empty answer, or a read that never happened or raised,
   * leaves it as it was.
   */
  lemma {:induction false} ReadDataBattery(env: Env, toFloat: Converter, cfg: Config, trace: seq<Call>, rd: Reading)
    ensures var o := ReadDataStep(env, toFloat, cfg, trace, rd);
      var n := |trace|;
      var answered := |o.world.trace| >= n + 3 && env.read(o.world.trace[..n + 2]).Ok?;
      if answered && |env.read(o.world.trace[..n + 2]).value| == 1 then
        o.reading.battery == env.read(o.world.trace[..n + 2]).value[0] as int
      else
        o.reading.battery == rd.battery
  {
    var o := ReadDataStep(env, toFloat, cfg, trace, rd);
    var n := |trace|;
    ReadDataCalls(env, toFloat, cfg, trace, rd);
    var entered := EnterStep(env, cfg, World(None, false, trace));
    if entered.result.Ok? {
      var body := SessionBody(env, toFloat, cfg, entered.world, rd);
      assert o.world.trace[..|body.world.trace|] == body.world.trace;
      assert o.world.trace[..n + 2] == body.world.trace[..n + 2];
      var battery := ReadHandleStep(env, entered.world, HandleBatteryLevel);
      assert battery.world.trace == body.world.trace[..n + 2];
    }
  }

  /**
   * A wait that times out, or that the stack aborts with a
   * `BTLEException`, is no error: the read then fails only if the
   * disconnect does, and temperature and humidity keep their values.
   */
  lemma {:induction false} ReadDataTimeout(env: Env, toFloat: Converter, cfg: Config, trace: seq<Call>, rd: Reading)
    requires var o := ReadDataStep(env, toFloat, cfg, trace, rd);
      var n := |trace|;
      && |o.world.trace| == n + 5
      && (env.wait(o.world.trace[..n + 4]).Quiet?
          || (env.wait(o.world.trace[..n + 4]).Raised? && env.wait(o.world.trace[..n + 4]).exc.BTLEException?))
    ensures var o := ReadDataStep(env, toFloat, cfg, trace, rd);
      && (o.result.Ok? <==> env.disconnect(o.world.trace).Ok?)
      && o.reading.temperature == rd.temperature && o.reading.humidity == rd.humidity
  {
    var o := ReadDataStep(env, toFloat, cfg, trace, rd);
    var n := |trace|;
    ReadDataCalls(env, toFloat, cfg, trace, rd);
    var entered := EnterStep(env, cfg, World(None, false, trace));
    var body := SessionBody(env, toFloat, cfg, entered.world, rd);
    assert o.world.trace[..|body.world.trace|] == body.world.trace;
    assert o.world.trace[..n + 4] == body.world.trace;
  }

  /**
   * End to end: the battery answers `0x32`, the notification carries
   * `T=21.3 H=55.2`, every other call succeeds: the reading is
   * battery 50, temperature 21.3, humidity 55.2, after five calls.
   */
  lemma ScenarioReading()
    ensures var toFloat := ScenarioFloat();
      var env := ScenarioEnv(Notified(HandleSensorData, Ascii("T=21.3 H=55.2")));
      var cfg := Config("4C:65:A8:00:00:01", 30, Public);
      var o := ReadDataStep(env, toFloat, cfg, [], Defaults);
      && o.result == Ok(())
      && o.reading == Reading(21.3, 55.2, 50)
      && o.world == World(None, false, ReadCalls(cfg, Link(1)) + [DisconnectCall(Link(1))])
  {
    var payload := Ascii("T=21.3 H=55.2");
    AsciiSlice("T=21.3 H=55.2", 2, 6);
    AsciiSlice("T=21.3 H=55.2", 9, 13);
    assert "T=21.3 H=55.2"[2..6] == "21.3";
    assert "T=21.3 H=55.2"[9..13] == "55.2";
    assert Ascii("55.2")[0] != Ascii("21.3")[0];
    assert ScenarioFloat()(Ascii("21.3")) == Some(21.3);
    assert ScenarioFloat()(Ascii("55.2")) == Some(55.2);
    assert ParseData(ScenarioFloat(), payload) == Ok((21.3, 55.2));
  }

  /**
   * End to end: the same device with a wait that times out. The read
   * returns without error, keeps the default temperature and humidity,
   * and disconnects exactly once.
   */
  lemma ScenarioTimeout()
    ensures var env := ScenarioEnv(Quiet);
      var cfg := Config("4C:65:A8:00:00:01", 30, Public);
      var o := ReadDataStep(env, ScenarioFloat(), cfg, [], Defaults);
      && o.result == Ok(())
      && o.reading == Reading(0.0, 0.0, 50)
      && Disconnects(o.world.trace) == 1
  {
    var env := ScenarioEnv(Quiet);
    var cfg := Config("4C:65:A8:00:00:01", 30, Public);
    ReadDataDisconnectsOnce(env, ScenarioFloat(), cfg, [], Defaults);
    assert Disconnects([]) == 0;
  }

  /** A stack where every call succeeds and the battery reads `0x32`. */
  function ScenarioEnv(answer: WaitAnswer): Env
  {
    Env(t => Ok(Link(1)), t => Ok(()), t => Ok([0x32]), t => Ok(()), t => answer)
  }

  /** A `float()` that knows the two numbers of the scenario payload. */
  function ScenarioFloat(): Converter
  {
    b => if b == Ascii("21.3") then Some(21.3) else if b == Ascii("55.2") then Some(55.2) else None
  }

  /** The ASCII encoding of a text. */
  function Ascii(s: string): (b: Bytes)
    requires forall i :: 0 <= i < |s| ==> s[i] as int < 128
    ensures |b| == |s| && forall i :: 0 <= i < |s| ==> b[i] as int == s[i] as int
  {
    seq(|s|, i requires 0 <= i < |s| => s[i] as int as byte)
  }

  lemma AsciiSlice(s: string, lo: nat, hi: nat)
    requires forall i :: 0 <= i < |s| ==> s[i] as int < 128
    requires lo <= hi <= |s|
    ensures Slice(Ascii(s), lo, hi) == Ascii(s[lo..hi])
  {
  }

  lemma {:induction false} NoDisconnects(calls: seq<Call>)
    requires forall i :: 0 <= i < |calls| ==> !calls[i].DisconnectCall?
    ensures Disconnects(calls) == 0
  {
    if calls != [] {
      NoDisconnects(calls[1..]);
    }
  }

  // ---------------------------------------------------------------------
  // The object

  /** `class TemperatureHumiditySensor`. */
  class Sensor {
    const mac: string
    const timeout: int
    const toFloat: Converter
    const radio: Radio
    const stack: Stack
    var temperature: real
    var humidity: real
    var battery: int

    function Current(): Reading
      reads this
    {
      Reading(temperature, humidity, battery)
    }

    /** The assignments of `__init__` before it reads. */
    constructor Init(mac: string, timeout: int, toFloat: Converter, radio: Radio, stack: Stack)
      ensures this.mac == mac && this.timeout == timeout && this.toFloat == toFloat
      ensures this.radio == radio && this.stack == stack
      ensures Current() == Defaults
    {
      this.mac := mac;
      this.timeout := timeout;
      this.toFloat := toFloat;
      this.radio := radio;
      this.stack := stack;
      temperature := 0.0;
      humidity := 0.0;
      battery := 0;
    }

    /**
     * `TemperatureHumiditySensor(mac, timeout)`: the defaults, then one
     * read; an exception from the read leaves the constructor.
     */
    static method Create(mac: string, toFloat: Converter, radio: Radio, stack: Stack, timeout: int := 30)
      returns (r: Result<Sensor, Exc>)
      requires !radio.locked
      modifies radio, stack
      ensures var o := ReadDataStep(stack.env, toFloat, Config(mac, timeout, Public), old(stack.trace), Defaults);
        && radio.locked == o.world.locked
        && stack.trace == o.world.trace
        && (r.Ok? <==> o.result.Ok?)
        && (r.Ok? ==> fresh(r.value) && r.value.Current() == o.reading
                      && r.value.mac == mac && r.value.timeout == timeout && r.value.toFloat == toFloat
                      && r.value.radio == radio && r.value.stack == stack)
        && (r.Err? ==> r.error == o.result.error)
    {
      var sensor := new Sensor.Init(mac, timeout, toFloat, radio, stack);
      var read := sensor.ReadData();
      r := if read.Ok? then Ok(sensor) else Err(read.error);
    }

    /** `_read_data`. */
    method ReadData() returns (r: Result<(), Exc>)
      requires !radio.locked
      modifies this, radio, stack
      ensures var o := ReadDataStep(stack.env, toFloat, Config(mac, timeout, Public), old(stack.trace), old(Current()));
        Current() == o.reading && radio.locked == o.world.locked && stack.trace == o.world.trace && r == o.result
    {
      var device := new Device(mac, radio, stack, timeout);
      r := device.Enter();
      if r.Err? {
        return;
      }
      var body := Session(device);
      var exited := device.Exit();
      r := if exited.Err? then exited else body;
    }

    /** The body of the `with` block in `_read_data`. */
    method Session(device: Device) returns (r: Result<(), Exc>)
      requires device.radio == radio && device.stack == stack
      modifies this, stack
      ensures var o := SessionBody(stack.env, toFloat, device.Cfg(), old(device.State()), old(Current()));
        Current() == o.reading && device.State() == o.world && r == o.result
    {
      var data := device.ReadHandle(HandleBatteryLevel);
      if data.Err? {
        return Err(data.error);
      }
      var level := DecodeBattery(data.value, battery);
      if level.Err? {
        return Err(level.error);
      }
      battery := level.value;
      var waited := device.WaitForNotification(HandleSensorData, BoundHandler(toFloat));
      if waited.Err? {
        return Err(waited.error);
      }
      if waited.value.Some? {
        temperature, humidity := waited.value.value.0, waited.value.value.1;
      }
      r := Ok(());
    }

    /** The `battery` property. */
    function Battery(): (v: int)
      reads this
      ensures v == Current().battery
    {
      battery
    }

    /** The `temperature` property. */
    function Temperature(): (v: real)
      reads this
      ensures v == Current().temperature
    {
      temperature
    }

    /** The `humidity` property. */
    function Humidity(): (v: real)
      reads this
      ensures v == Current().humidity
    {
      humidity
    }
  }
}
