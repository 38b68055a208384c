/** The collaborators the bridge talks to, reduced to the state the bridge can
    observe: the outbound event channel, the inbound request channel, the
    native PipeWire calls it issues, and the error log. */
module Runtime {
  import opened Base
  import opened Spa

  /** What a sink property change is translated into (sent to the session-bus side). */
  datatype Event = Volume(percent: U32) | Mute(muted: bool)

  /** What the session-bus side asks of the audio server. */
  datatype Request = SetMuted(muted: bool) | SetVolume(volume: real)

  /** Outcome of a non-blocking receive (`try_recv`). */
  datatype TryRecv = Received(request: Request) | Empty | Disconnected

  /** A native call the bridge makes on a bound proxy. */
  datatype NativeCall =
    | Subscribed(proxy: Proxy, ids: seq<U32>)
    | ListenerAdded(proxy: Proxy)
    | ParamSet(proxy: Proxy, paramId: U32, flags: U32, param: Value)

  /** The sending half of the bounded event channel. Capacity and blocking are
      not modelled: a send either delivers or fails because the receiver is gone. */
  class EventSender {
    var receiverAlive: bool
    var delivered: seq<Event>

    constructor (receiverAlive: bool)
      ensures this.receiverAlive == receiverAlive && delivered == []
    {
      this.receiverAlive := receiverAlive;
      delivered := [];
    }

    /** `blocking_send`: delivers when the receiver is alive, fails otherwise. */
    method BlockingSend(event: Event) returns (r: Result<()>)
      modifies this
      ensures receiverAlive == old(receiverAlive)
      ensures r.Ok? == old(receiverAlive)
      ensures r.Err? ==> r.error == EventChannelClosed
      ensures delivered == if old(receiverAlive) then old(delivered) + [event] else old(delivered)
    {
      if receiverAlive {
        delivered := delivered + [event];
        r := Ok(());
      } else {
        r := Err(EventChannelClosed);
      }
    }
  }

  /** The receiving half of the bounded request channel: the messages queued and
      not yet received, and whether any sender is still alive. */
  class RequestReceiver {
    var queue: seq<Request>
    var sendersAlive: bool

    constructor (queue: seq<Request>, sendersAlive: bool)
      ensures this.queue == queue && this.sendersAlive == sendersAlive
    {
      this.queue := queue;
      this.sendersAlive := sendersAlive;
    }

    /** `try_recv`: the oldest queued request; otherwise `Disconnected` when every
        sender is gone and `Empty` when not. */
    method TryRecv() returns (r: TryRecv)
      modifies this
      ensures sendersAlive == old(sendersAlive)
      ensures old(queue) != [] ==> r == Received(old(queue)[0]) && queue == old(queue)[1..]
      ensures old(queue) == [] ==> queue == [] && r == (if old(sendersAlive) then Empty else Disconnected)
    {
      if queue != [] {
        r := Received(queue[0]);
        queue := queue[1..];
      } else if sendersAlive {
        r := Empty;
      } else {
        r := Disconnected;
      }
    }
  }

  /** The PipeWire core as seen from the bridge: every native call issued, in
      order, and the token the next listener handle receives. */
  class Core {
    var calls: seq<NativeCall>
    var nextListener: nat

    constructor ()
      ensures calls == [] && nextListener == 0
    {
      calls := [];
      nextListener := 0;
    }

    method SubscribeParams(proxy: Proxy, ids: seq<U32>)
      modifies this
      ensures calls == old(calls) + [Subscribed(proxy, ids)]
      ensures nextListener == old(nextListener)
    {
      calls := calls + [Subscribed(proxy, ids)];
    }

    /** `add_listener_local()...register()`: a fresh listener handle. */
    method AddListener(proxy: Proxy) returns (listener: ListenerHandle)
      modifies this
      ensures listener == ListenerHandle(old(nextListener))
      ensures nextListener == old(nextListener) + 1
      ensures calls == old(calls) + [ListenerAdded(proxy)]
    {
      listener := ListenerHandle(nextListener);
      nextListener := nextListener + 1;
      calls := calls + [ListenerAdded(proxy)];
    }

    method SetParam(proxy: Proxy, paramId: U32, flags: U32, param: Value)
      modifies this
      ensures calls == old(calls) + [ParamSet(proxy, paramId, flags, param)]
      ensures nextListener == old(nextListener)
    {
      calls := calls + [ParamSet(proxy, paramId, flags, param)];
    }
  }

  /** `log::error!`: the errors reported, in order. */
  class Logger {
    var errors: seq<Error>

    constructor ()
      ensures errors == []
    {
      errors := [];
    }

    method LogError(e: Error)
      modifies this
      ensures errors == old(errors) + [e]
    {
      errors := errors + [e];
    }
  }
}
