/**
 * The `Device` session of ble.py: a connection state machine over the
 * bluepy stack, guarded by one lock shared by every device.
 *
 * Each operation is given twice: as a pure step function over a `World`
 * (the device's peripheral, the shared lock flag and the stack's call
 * trace), which the lemmas reason about, and as a method of class `Device`
 * that changes the objects step by step and is proved to agree with it.
 */
module Ble {
  import opened Base
  import opened Bluepy

  /** `_DATA_MODE_LISTEN`: written to a handle to switch notifications on. */
  const DataModeListen: Bytes := [0x01, 0x00]

  /** What the constructor stores: MAC address, wait timeout in seconds, address type. */
  datatype Config = Config(mac: string, timeout: int, addrType: AddrType)

  /** The state one device operation can see or change. */
  datatype World = World(peripheral: Option<Link>, locked: bool, trace: seq<Call>)

  /** The state after an operation, and what it returned or raised. */
  datatype Step<+T> = Step(world: World, result: Result<T, Exc>)

  /** The calls in a trace that close a link. */
  function Disconnects(calls: seq<Call>): nat
  {
    if calls == [] then 0
    else (if calls[0].DisconnectCall? then 1 else 0) + Disconnects(calls[1..])
  }

  lemma {:induction false} DisconnectsAppend(a: seq<Call>, b: seq<Call>)
    ensures Disconnects(a + b) == Disconnects(a) + Disconnects(b)
  {
    if a != [] {
      assert (a + b)[1..] == a[1..] + b;
      DisconnectsAppend(a[1..], b);
    } else {
      assert a + b == b;
    }
  }

  // ---------------------------------------------------------------------
  // Step functions

  /** `Lock.release()`: frees the lock; releasing a free lock raises. */
  function ReleaseStep(w: World): (r: Step<()>)
    ensures !r.world.locked
    ensures r.world.peripheral == w.peripheral && r.world.trace == w.trace
    ensures r.result.Ok? <==> w.locked
    ensures r.result.Err? ==> r.result.error == RuntimeError
  {
    Step(w.(locked := false), if w.locked then Ok(()) else Err(RuntimeError))
  }

  /**
   * `connect`: asks the stack for a peripheral and installs it. When the
   * stack raises, the assignment never happens and the old peripheral stays.
   */
  function ConnectStep(env: Env, cfg: Config, w: World): (r: Step<()>)
    ensures r.world.trace == w.trace + [ConnectCall(cfg.mac, cfg.addrType)]
    ensures r.world.locked == w.locked
    ensures r.result.Ok? <==> env.connect(r.world.trace).Ok?
    ensures r.result.Ok? ==> r.world.peripheral == Some(env.connect(r.world.trace).value)
    ensures r.result.Err? ==>
      r.world.peripheral == w.peripheral && r.result.error == env.connect(r.world.trace).error
  {
    var trace := w.trace + [ConnectCall(cfg.mac, cfg.addrType)];
    match env.connect(trace)
    case Ok(link) => Step(w.(peripheral := Some(link), trace := trace), Ok(()))
    case Err(e) => Step(w.(trace := trace), Err(e))
  }

  /**
   * `disconnect`: nothing at all on a disconnected device; otherwise one
   * disconnect call on the link, and the device forgets the link only when
   * that call returns.
   */
  function DisconnectStep(env: Env, w: World): (r: Step<()>)
    ensures w.peripheral.None? ==> r == Step(w, Ok(()))
    ensures w.peripheral.Some? ==> r.world.trace == w.trace + [DisconnectCall(w.peripheral.value)]
    ensures w.peripheral.Some? ==> (r.result.Ok? <==> env.disconnect(r.world.trace).Ok?)
    ensures r.result.Ok? ==> r.world.peripheral == None
    ensures r.result.Err? ==>
      r.world.peripheral == w.peripheral && r.result.error == env.disconnect(r.world.trace).error
    ensures r.world.locked == w.locked
  {
    match w.peripheral
    case None => Step(w, Ok(()))
    case Some(link) =>
      var trace := w.trace + [DisconnectCall(link)];
      match env.disconnect(trace)
      case Ok(_) => Step(w.(peripheral := None, trace := trace), Ok(()))
      case Err(e) => Step(w.(trace := trace), Err(e))
  }

  /**
   * `__enter__`: takes the shared lock, then connects; if connecting raises,
   * the lock is given back and the same exception propagates.
   */
  function EnterStep(env: Env, cfg: Config, w: World): (r: Step<()>)
    requires !w.locked
    ensures r.world.trace == w.trace + [ConnectCall(cfg.mac, cfg.addrType)]
    ensures r.result.Ok? <==> env.connect(r.world.trace).Ok?
    ensures r.result.Ok? ==>
      r.world.locked && r.world.peripheral == Some(env.connect(r.world.trace).value)
    ensures r.result.Err? ==>
      !r.world.locked && r.world.peripheral == w.peripheral
      && r.result.error == env.connect(r.world.trace).error
  {
    var connected := ConnectStep(env, cfg, w.(locked := true));
    if connected.result.Ok? then connected
    else Step(ReleaseStep(connected.world).world, connected.result)
  }

  /**
   * `__exit__`: gives the lock back first and only then disconnects, so the
   * lock is free afterwards whatever the disconnect does. A release that
   * raises (the lock was not held) skips the disconnect.
   */
  function ExitStep(env: Env, w: World): (r: Step<()>)
    ensures !r.world.locked
    ensures !w.locked ==> r == Step(w, Err(RuntimeError))
    ensures w.locked ==>
      r.world.trace == w.trace + (if w.peripheral.Some? then [DisconnectCall(w.peripheral.value)] else [])
    ensures w.locked ==> r.result == DisconnectStep(env, w).result
    ensures r.result.Ok? ==> w.locked && r.world.peripheral == None
    ensures r.result.Err? && w.locked ==> r.world.peripheral == w.peripheral
  {
    var released := ReleaseStep(w);
    if released.result.Err? then released else DisconnectStep(env, released.world)
  }

  /** `read_handle`: the stack's bytes for `handle`, unchanged. */
  function ReadHandleStep(env: Env, w: World, handle: Handle): (r: Step<Bytes>)
    ensures r.world.peripheral == w.peripheral && r.world.locked == w.locked
    ensures w.peripheral.None? ==> r == Step(w, Err(AttributeError))
    ensures w.peripheral.Some? ==>
      r.world.trace == w.trace + [ReadCall(w.peripheral.value, handle)]
      && r.result == env.read(r.world.trace)
  {
    match w.peripheral
    case None => Step(w, Err(AttributeError))
    case Some(link) =>
      var trace := w.trace + [ReadCall(link, handle)];
      Step(w.(trace := trace), env.read(trace))
  }

  /** `write_handle`: forwards handle and value unchanged, always asking for a response. */
  function WriteHandleStep(env: Env, w: World, handle: Handle, value: Bytes): (r: Step<()>)
    ensures r.world.peripheral == w.peripheral && r.world.locked == w.locked
    ensures w.peripheral.None? ==> r == Step(w, Err(AttributeError))
    ensures w.peripheral.Some? ==>
      r.world.trace == w.trace + [WriteCall(w.peripheral.value, handle, value, true)]
      && r.result == env.write(r.world.trace)
  {
    match w.peripheral
    case None => Step(w, Err(AttributeError))
    case Some(link) =>
      var trace := w.trace + [WriteCall(link, handle, value, true)];
      Step(w.(trace := trace), env.write(trace))
  }

  /**
   * `wait_for_notification`: installs `handler` as the delegate, writes
   * `DataModeListen` to `handle`, then waits `cfg.timeout` seconds. The
   * result `Ok(Some(e))` is Python's `True` with `e` the effect the handler
   * computed from the notification; `Ok(None)` is `False`. The handler
   * runs inside `waitForNotifications`, so a `BTLEException` raised by the
   * wait or by the handler becomes `False`, and any other exception either
   * of them raises propagates. An exception from the enable write is not
   * caught, and no wait follows it.
   */
  function WaitStep<E>(env: Env, cfg: Config, w: World, handle: Handle,
                       handler: (Handle, Bytes) -> Result<E, Exc>): (r: Step<Option<E>>)
    ensures r.world.peripheral == w.peripheral && r.world.locked == w.locked
    ensures w.peripheral.None? ==> r == Step(w, Err(AttributeError))
    ensures w.peripheral.Some? ==>
      var enable := w.trace + [WriteCall(w.peripheral.value, handle, DataModeListen, true)];
      && enable <= r.world.trace
      && (env.write(enable).Err? ==> r == Step(w.(trace := enable), Err(env.write(enable).error)))
      && (env.write(enable).Ok? ==>
            && r.world.trace == enable + [WaitCall(w.peripheral.value, cfg.timeout)]
            && (r.result.Ok? && r.result.value.Some? <==>
                  env.wait(r.world.trace).Notified?
                  && handler(env.wait(r.world.trace).handle, env.wait(r.world.trace).data).Ok?)
            && (r.result.Ok? && r.result.value.Some? ==>
                  r.result.value.value
                  == handler(env.wait(r.world.trace).handle, env.wait(r.world.trace).data).value)
            && (env.wait(r.world.trace).Notified?
                && handler(env.wait(r.world.trace).handle, env.wait(r.world.trace).data).Err? ==>
                  var x := handler(env.wait(r.world.trace).handle, env.wait(r.world.trace).data).error;
                  r.result == (if x.BTLEException? then Ok(None) else Err(x)))
            && (env.wait(r.world.trace).Quiet? ==> r.result == Ok(None))
            && (env.wait(r.world.trace).Raised? ==>
                  r.result == (if env.wait(r.world.trace).exc.BTLEException? then Ok(None)
                               else Err(env.wait(r.world.trace).exc))))
  {
    match w.peripheral
    case None => Step(w, Err(AttributeError))
    case Some(link) =>
      var written := WriteHandleStep(env, w, handle, DataModeListen);
      if written.result.Err? then Step(written.world, Err(written.result.error))
      else
        var trace := written.world.trace + [WaitCall(link, cfg.timeout)];
        var after := written.world.(trace := trace);
        match env.wait(trace)
        case Notified(from, data) =>
          var handled := handler(from, data);
          if handled.Ok? then Step(after, Ok(Some(handled.value)))
          else if handled.error.BTLEException? then Step(after, Ok(None))
          else Step(after, Err(handled.error))
        case Quiet => Step(after, Ok(None))
        case Raised(x) => if x.BTLEException? then Step(after, Ok(None)) else Step(after, Err(x))
  }

  // ---------------------------------------------------------------------
  // Properties relating several operations

  /** A second `disconnect` after one that returned is a no-op without stack calls. */
  lemma DisconnectIdempotent(env: Env, w: World)
    requires DisconnectStep(env, w).result.Ok?
    ensures var once := DisconnectStep(env, w).world;
      DisconnectStep(env, once) == Step(once, Ok(()))
  {
  }

  /**
   * `connect` then `disconnect`, both answered without error, leaves the
   * device disconnected after exactly one disconnect call on the new link.
   */
  lemma ConnectThenDisconnect(env: Env, cfg: Config, w: World)
    requires ConnectStep(env, cfg, w).result.Ok?
    ensures var c := ConnectStep(env, cfg, w);
      var d := DisconnectStep(env, c.world);
      && d.world.trace == w.trace + [ConnectCall(cfg.mac, cfg.addrType),
                                     DisconnectCall(c.world.peripheral.value)]
      && (d.result.Ok? ==> d.world.peripheral == None && d.world.locked == w.locked)
  {
  }

  /**
   * A scoped session with nothing inside: whatever the stack answers, the
   * lock is free again afterwards and at most one disconnect was issued, on
   * the link the stack opened; the device ends disconnected unless the
   * disconnect itself raised.
   */
  lemma {:induction false} EnterThenExit(env: Env, cfg: Config, w: World)
    requires !w.locked
    requires EnterStep(env, cfg, w).result.Ok?
    ensures var e := EnterStep(env, cfg, w);
      var x := ExitStep(env, e.world);
      && !x.world.locked
      && x.world.trace == w.trace + [ConnectCall(cfg.mac, cfg.addrType),
                                     DisconnectCall(e.world.peripheral.value)]
      && Disconnects(x.world.trace) == Disconnects(w.trace) + 1
      && (x.result.Ok? <==> env.disconnect(x.world.trace).Ok?)
      && (x.result.Ok? ==> x.world.peripheral == None)
  {
    var e := EnterStep(env, cfg, w);
    var x := ExitStep(env, e.world);
    var added := [ConnectCall(cfg.mac, cfg.addrType), DisconnectCall(e.world.peripheral.value)];
    assert added[1..] == [added[1]] && added[1..][1..] == [];
    assert Disconnects(added[1..]) == 1 + Disconnects(added[1..][1..]);
    assert x.world.trace == w.trace + added;
    DisconnectsAppend(w.trace, added);
  }

  /**
   * Because `__exit__` releases before it disconnects, a disconnect that
   * raises leaves the lock free while the device still holds its link.
   */
  lemma ExitFreesLockBeforeDisconnect(env: Env, w: World, link: Link)
    requires w.locked && w.peripheral == Some(link)
    requires env.disconnect(w.trace + [DisconnectCall(link)]).Err?
    ensures var x := ExitStep(env, w);
      x.world == World(Some(link), false, w.trace + [DisconnectCall(link)]) && x.result.Err?
  {
  }

  /** The enable write always comes before the wait, and carries exactly `01 00`. */
  lemma WaitWritesEnableFirst<E>(env: Env, cfg: Config, w: World, handle: Handle,
                                 handler: (Handle, Bytes) -> Result<E, Exc>, k: nat)
    requires w.peripheral.Some?
    requires |w.trace| <= k < |WaitStep(env, cfg, w, handle, handler).world.trace|
    requires WaitStep(env, cfg, w, handle, handler).world.trace[k].WaitCall?
    ensures var t := WaitStep(env, cfg, w, handle, handler).world.trace;
      k == |w.trace| + 1
      && t[k - 1] == WriteCall(w.peripheral.value, handle, [0x01, 0x00], true)
      && t[k] == WaitCall(w.peripheral.value, cfg.timeout)
  {
    var t := WaitStep(env, cfg, w, handle, handler).world.trace;
    var enable := w.trace + [WriteCall(w.peripheral.value, handle, DataModeListen, true)];
    assert t[..|enable|] == enable;
    assert t[|w.trace|] == enable[|w.trace|];
  }

  // ---------------------------------------------------------------------
  // The objects

  /** The radio adapter all devices share, with its class-wide `_lock`. */
  class Radio {
    var locked: bool

    /** The class attribute `_lock = Lock()`: a new lock is free. */
    constructor ()
      ensures !locked
    {
      locked := false;
    }

    /** `Lock.acquire()` on a free lock (another holder is not modelled). */
    method Acquire()
      requires !locked
      modifies this
      ensures locked
    {
      locked := true;
    }

    /** `Lock.release()`: a release of a free lock raises `RuntimeError`. */
    method Release() returns (r: Result<(), Exc>)
      modifies this
      ensures !locked
      ensures r.Ok? <==> old(locked)
      ensures r.Err? ==> r.error == RuntimeError
    {
      r := if locked then Ok(()) else Err(RuntimeError);
      locked := false;
    }
  }

  /** `class Device`: one peripheral address, connected or not. */
  class Device {
    const mac: string
    const timeout: int
    const addrType: AddrType
    const radio: Radio
    const stack: Stack
    var peripheral: Option<Link>

    function Cfg(): Config
    {
      Config(mac, timeout, addrType)
    }

    function State(): World
      reads this, radio, stack
    {
      World(peripheral, radio.locked, stack.trace)
    }

    /** `__init__`: stores the configuration; a new device is disconnected. */
    constructor (mac: string, radio: Radio, stack: Stack,
                 timeout: int := 30, addrType: AddrType := Public)
      ensures Cfg() == Config(mac, timeout, addrType)
      ensures this.radio == radio && this.stack == stack
      ensures peripheral == None
    {
      this.mac := mac;
      this.timeout := timeout;
      this.addrType := addrType;
      this.radio := radio;
      this.stack := stack;
      peripheral := None;
    }

    method Connect() returns (r: Result<(), Exc>)
      modifies this, stack
      ensures Step(State(), r) == ConnectStep(stack.env, Cfg(), old(State()))
    {
      var answer := stack.Peripheral(mac, addrType);
      match answer {
        case Ok(link) =>
          peripheral := Some(link);
          r := Ok(());
        case Err(e) =>
          r := Err(e);
      }
    }

    method Disconnect() returns (r: Result<(), Exc>)
      modifies this, stack
      ensures Step(State(), r) == DisconnectStep(stack.env, old(State()))
    {
      if peripheral.None? {
        return Ok(());
      }
      r := stack.Disconnect(peripheral.value);
      match r {
        case Ok(_) =>
          peripheral := None;
          r := Ok(());
        case Err(_) =>
      }
    }

    method Enter() returns (r: Result<(), Exc>)
      requires !radio.locked
      modifies this, radio, stack
      ensures Step(State(), r) == EnterStep(stack.env, Cfg(), old(State()))
    {
      radio.Acquire();
      r := Connect();
      if r.Err? {
        var _ := radio.Release();
      }
    }

    method Exit() returns (r: Result<(), Exc>)
      modifies this, radio, stack
      ensures Step(State(), r) == ExitStep(stack.env, old(State()))
    {
      r := radio.Release();
      if r.Ok? {
        r := Disconnect();
      }
    }

    method ReadHandle(handle: Handle) returns (r: Result<Bytes, Exc>)
      modifies stack
      ensures Step(State(), r) == ReadHandleStep(stack.env, old(State()), handle)
    {
      if peripheral.None? {
        return Err(AttributeError);
      }
      r := stack.ReadCharacteristic(peripheral.value, handle);
    }

    method WriteHandle(handle: Handle, value: Bytes) returns (r: Result<(), Exc>)
      modifies stack
      ensures Step(State(), r) == WriteHandleStep(stack.env, old(State()), handle, value)
    {
      if peripheral.None? {
        return Err(AttributeError);
      }
      r := stack.WriteCharacteristic(peripheral.value, handle, value, true);
    }

    method WaitForNotification<E>(handle: Handle, handler: (Handle, Bytes) -> Result<E, Exc>)
      returns (r: Result<Option<E>, Exc>)
      modifies stack
      ensures Step(State(), r) == WaitStep(stack.env, Cfg(), old(State()), handle, handler)
    {
      if peripheral.None? {
        return Err(AttributeError);
      }
      var link := peripheral.value;
      var written := WriteHandle(handle, DataModeListen);
      if written.Err? {
        return Err(written.error);
      }
      var answer := stack.WaitForNotifications(link, timeout);
      match answer {
        case Notified(from, data) =>
          var handled := handler(from, data);
          r := if handled.Ok? then Ok(Some(handled.value))
               else if handled.error.BTLEException? then Ok(None)
               else Err(handled.error);
        case Quiet =>
          r := Ok(None);
        case Raised(x) =>
          r := if x.BTLEException? then Ok(None) else Err(x);
      }
    }
  }
}
