/**
 * The bluepy host stack as an abstract environment.
 *
 * Every call the core makes into the stack is appended to a trace, and the
 * stack's answer to a call is an arbitrary function of the trace that ends
 * with that call. Any deterministic stack (one that succeeds, fails, times
 * out or delivers a notification depending on everything asked of it so
 * far) is one value of `Env`.
 */
module Bluepy {
  import opened Base

  /** A GATT attribute handle. */
  type Handle = int

  /** `btle.ADDR_TYPE_PUBLIC` and `btle.ADDR_TYPE_RANDOM`. */
  datatype AddrType = Public | Random

  /** An open connection: the `btle.Peripheral` object the stack returns. */
  datatype Link = Link(id: nat)

  /** One request made of the stack. */
  datatype Call =
    | ConnectCall(mac: string, addrType: AddrType)
    | DisconnectCall(link: Link)
    | ReadCall(link: Link, handle: Handle)
    | WriteCall(link: Link, handle: Handle, value: Bytes, withResponse: bool)
    | WaitCall(link: Link, timeout: int)

  /**
   * How `waitForNotifications` ends: a notification was pumped to the
   * installed delegate, the timeout passed with none, or it raised.
   */
  datatype WaitAnswer =
    | Notified(handle: Handle, data: Bytes)
    | Quiet
    | Raised(exc: Exc)

  /** The stack's answer to each kind of call, given the trace ending with that call. */
  datatype Env = Env(
    connect: seq<Call> -> Result<Link, Exc>,
    disconnect: seq<Call> -> Result<(), Exc>,
    read: seq<Call> -> Result<Bytes, Exc>,
    write: seq<Call> -> Result<(), Exc>,
    wait: seq<Call> -> WaitAnswer)

  /** The stack as the core sees it: a fixed behaviour and the calls made so far. */
  class Stack {
    const env: Env
    var trace: seq<Call>

    constructor (env: Env)
      ensures this.env == env && trace == []
    {
      this.env := env;
      trace := [];
    }

    /** `btle.Peripheral(mac, addrType=...)`. */
    method Peripheral(mac: string, addrType: AddrType) returns (r: Result<Link, Exc>)
      modifies this
      ensures trace == old(trace) + [ConnectCall(mac, addrType)]
      ensures r == env.connect(trace)
    {
      trace := trace + [ConnectCall(mac, addrType)];
      r := env.connect(trace);
    }

    /** `Peripheral.disconnect()`. */
    method Disconnect(link: Link) returns (r: Result<(), Exc>)
      modifies this
      ensures trace == old(trace) + [DisconnectCall(link)]
      ensures r == env.disconnect(trace)
    {
      trace := trace + [DisconnectCall(link)];
      r := env.disconnect(trace);
    }

    /** `Peripheral.readCharacteristic(handle)`. */
    method ReadCharacteristic(link: Link, handle: Handle) returns (r: Result<Bytes, Exc>)
      modifies this
      ensures trace == old(trace) + [ReadCall(link, handle)]
      ensures r == env.read(trace)
    {
      trace := trace + [ReadCall(link, handle)];
      r := env.read(trace);
    }

    /** `Peripheral.writeCharacteristic(handle, value, withResponse)`. */
    method WriteCharacteristic(link: Link, handle: Handle, value: Bytes, withResponse: bool)
      returns (r: Result<(), Exc>)
      modifies this
      ensures trace == old(trace) + [WriteCall(link, handle, value, withResponse)]
      ensures r == env.write(trace)
    {
      trace := trace + [WriteCall(link, handle, value, withResponse)];
      r := env.write(trace);
    }

    /** `Peripheral.waitForNotifications(timeout)`. */
    method WaitForNotifications(link: Link, timeout: int) returns (r: WaitAnswer)
      modifies this
      ensures trace == old(trace) + [WaitCall(link, timeout)]
      ensures r == env.wait(trace)
    {
      trace := trace + [WaitCall(link, timeout)];
      r := env.wait(trace);
    }
  }
}
