/**
 * The connection-status machine of the web client's socket hook
 * (webapp/src/hooks/useWebSocket.ts): how each socket event moves the status,
 * which callbacks fire, the mount gate, and `send`.
 */
module WebSocketHook {

  /** `ConnectionStatus`. */
  datatype ConnectionStatus = Connecting | Connected | ClosedError | ClosedNormal

  /** The close code of a normal closure (section 7.4.1 of RFC 6455). */
  const NormalClosure: int := 1000

  /** An inbound frame: text that `JSON.parse` decodes to a value, or text it rejects. */
  datatype Frame<V> = Json(value: V) | Malformed

  /** The events a socket delivers to the handlers the hook installs on it. */
  datatype SocketEvent<V> = Opened | Message(frame: Frame<V>) | Errored | Closed(code: int)

  /** Which of the optional callbacks the component registered. */
  datatype Callbacks = Callbacks(onOpen: bool, onMessage: bool, onError: bool, onClose: bool)

  /**
   * What the hook does that can be observed besides the status: a callback
   * called, a line on the console, an exception thrown out of a handler, a
   * frame handed to the socket (`Transmit(d)` carries `JSON.stringify(d)`).
   */
  datatype Effect<V> =
    | OpenCallback
    | MessageCallback(value: V)
    | ErrorCallback
    | CloseCallback(code: int)
    | SocketErrorLogged
    | ParseFailure
    | Transmit(data: V)
    | SendWhileClosedLogged

  /** The status after one event. */
  function NextStatus<V>(s: ConnectionStatus, mounted: bool, ev: SocketEvent<V>): (r: ConnectionStatus)
    ensures !mounted ==> r == s
    ensures ev.Message? || ev.Errored? ==> r == s
    ensures mounted && ev.Opened? ==> r == Connected
    ensures mounted && ev.Closed? ==> (r == ClosedNormal <==> ev.code == NormalClosure)
    ensures mounted && ev.Closed? ==> (r == ClosedError <==> ev.code != NormalClosure)
  {
    if !mounted then s
    else match ev
      case Opened => Connected
      case Message(_) => s
      case Errored => s
      case Closed(code) => if code == NormalClosure then ClosedNormal else ClosedError
  }

  /** The effects of one event, in the order the handler performs them. */
  function Reaction<V>(cbs: Callbacks, mounted: bool, ev: SocketEvent<V>): (r: seq<Effect<V>>)
    ensures !mounted ==> r == []
    ensures |r| <= 2
    ensures forall e :: e in r ==> !e.Transmit? && !e.SendWhileClosedLogged?
    ensures OpenCallback in r <==> mounted && ev.Opened? && cbs.onOpen
    ensures mounted && cbs.onMessage && ev.Message? && ev.frame.Json? ==> r == [MessageCallback(ev.frame.value)]
    ensures forall i :: 0 <= i < |r| && r[i].MessageCallback? ==> ev == Message(Json(r[i].value)) && cbs.onMessage
    ensures ParseFailure in r <==> mounted && ev == Message(Malformed) && cbs.onMessage
    ensures ErrorCallback in r <==> mounted && ev.Errored? && cbs.onError
    ensures SocketErrorLogged in r <==> mounted && ev.Errored?
    ensures forall c :: CloseCallback(c) in r <==> mounted && ev == Closed(c) && cbs.onClose
  {
    if !mounted then []
    else match ev
      case Opened => if cbs.onOpen then [OpenCallback] else []
      case Message(f) =>
        if !cbs.onMessage then []
        else (match f
          case Json(v) => [MessageCallback(v)]
          case Malformed => [ParseFailure])
      case Errored => [SocketErrorLogged] + (if cbs.onError then [ErrorCallback] else [])
      case Closed(code) => if cbs.onClose then [CloseCallback(code)] else []
  }

  /** The status after a run of events, all delivered with the same mount flag. */
  function Replay<V>(s: ConnectionStatus, mounted: bool, evs: seq<SocketEvent<V>>): ConnectionStatus
    decreases |evs|
  {
    if evs == [] then s else Replay(NextStatus(s, mounted, evs[0]), mounted, evs[1..])
  }

  /** Once unmounted, no run of events changes the status. */
  lemma {:induction false} UnmountedFrozen<V>(s: ConnectionStatus, evs: seq<SocketEvent<V>>)
    ensures Replay(s, false, evs) == s
    decreases |evs|
  {
    if evs != [] {
      UnmountedFrozen(s, evs[1..]);
    }
  }

  /** Replaying one more event is one more step. */
  lemma {:induction false} ReplaySnoc<V>(s: ConnectionStatus, mounted: bool, evs: seq<SocketEvent<V>>, ev: SocketEvent<V>)
    ensures Replay(s, mounted, evs + [ev]) == NextStatus(Replay(s, mounted, evs), mounted, ev)
    decreases |evs|
  {
    if evs == [] {
      assert evs + [ev] == [ev];
    } else {
      assert (evs + [ev])[1..] == evs[1..] + [ev];
      ReplaySnoc(NextStatus(s, mounted, evs[0]), mounted, evs[1..], ev);
    }
  }

  /**
   * Transitions are not one-directional: while mounted, the last close event
   * decides the status whatever the status was before it.
   */
  lemma LastCloseDecides<V>(s: ConnectionStatus, evs: seq<SocketEvent<V>>, code: int)
    ensures Replay(s, true, evs + [Closed(code)]) == if code == NormalClosure then ClosedNormal else ClosedError
  {
    ReplaySnoc(s, true, evs, Closed(code));
  }

  /** The events that can move the status. */
  function StatusEvents<V>(evs: seq<SocketEvent<V>>): (r: seq<SocketEvent<V>>)
    ensures |r| <= |evs|
    ensures forall e :: e in r ==> e in evs && (e.Opened? || e.Closed?)
    decreases |evs|
  {
    if evs == [] then []
    else (if evs[0].Opened? || evs[0].Closed? then [evs[0]] else []) + StatusEvents(evs[1..])
  }

  /** Error and message events never change the status: dropping them changes nothing. */
  lemma {:induction false} ErrorsAndMessagesInert<V>(s: ConnectionStatus, mounted: bool, evs: seq<SocketEvent<V>>)
    ensures Replay(s, mounted, evs) == Replay(s, mounted, StatusEvents(evs))
    decreases |evs|
  {
    if evs != [] {
      var s' := NextStatus(s, mounted, evs[0]);
      ErrorsAndMessagesInert(s', mounted, evs[1..]);
      var rest := StatusEvents(evs[1..]);
      if evs[0].Opened? || evs[0].Closed? {
        var kept := [evs[0]] + rest;
        assert StatusEvents(evs) == kept;
        assert kept[0] == evs[0] && kept[1..] == rest;
        assert Replay(s, mounted, kept) == Replay(s', mounted, rest);
      } else {
        assert s' == s;
        assert StatusEvents(evs) == [] + rest == rest;
      }
    }
  }

  /**
   * The hook's state for one component instance: the status, the mount flag
   * behind `isMounted`, whether the effect has ever put a socket in `wsRef`
   * (the ref is never cleared), the registered callbacks, and the effects
   * performed so far.
   */
  class SocketHook<V> {
    var status: ConnectionStatus
    var mounted: bool
    var socketCreated: bool
    const callbacks: Callbacks
    var effects: seq<Effect<V>>

    /** The first render: status Connecting, no socket yet. */
    constructor (callbacks: Callbacks)
      ensures status == Connecting && mounted && !socketCreated
      ensures this.callbacks == callbacks && effects == []
    {
      status := Connecting;
      mounted := true;
      socketCreated := false;
      this.callbacks := callbacks;
      effects := [];
    }

    /** The effect runs (on mount or when a dependency changes): a new socket goes into `wsRef`; the status is not reset. */
    method RunEffect()
      modifies this`socketCreated
      ensures socketCreated
    {
      socketCreated := true;
    }

    /** The component unmounts: `isMounted` turns false for good. */
    method Unmount()
      modifies this`mounted
      ensures !mounted
    {
      mounted := false;
    }

    /** The event `ev` reaches the handler the effect installed for it. */
    method Deliver(ev: SocketEvent<V>)
      modifies this`status, this`effects
      ensures status == NextStatus(old(status), mounted, ev)
      ensures effects == old(effects) + Reaction(callbacks, mounted, ev)
      ensures !mounted ==> status == old(status) && effects == old(effects)
    {
      status := NextStatus(status, mounted, ev);
      effects := effects + Reaction(callbacks, mounted, ev);
    }

    /** `onopen`. */
    method OnOpen()
      modifies this`status, this`effects
      ensures mounted ==> status == Connected
      ensures mounted ==> effects == old(effects) + (if callbacks.onOpen then [OpenCallback] else [])
      ensures !mounted ==> status == old(status) && effects == old(effects)
    {
      Deliver(Opened);
    }

    /** `onmessage`: the payload is decoded before the callback sees it. */
    method OnMessage(frame: Frame<V>)
      modifies this`status, this`effects
      ensures status == old(status)
      ensures mounted && callbacks.onMessage && frame.Json? ==> effects == old(effects) + [MessageCallback(frame.value)]
      ensures mounted && callbacks.onMessage && frame.Malformed? ==> effects == old(effects) + [ParseFailure]
      ensures !(mounted && callbacks.onMessage) ==> effects == old(effects)
    {
      Deliver(Message(frame));
    }

    /** `onerror`: logs and forwards, never touches the status. */
    method OnError()
      modifies this`status, this`effects
      ensures status == old(status)
      ensures mounted ==> effects == old(effects) + [SocketErrorLogged] + (if callbacks.onError then [ErrorCallback] else [])
      ensures !mounted ==> effects == old(effects)
    {
      Deliver(Errored);
    }

    /** `onclose`: code 1000 is a normal closure, every other code an error. */
    method OnClose(code: int)
      modifies this`status, this`effects
      ensures mounted ==> status == (if code == NormalClosure then ClosedNormal else ClosedError)
      ensures mounted ==> effects == old(effects) + (if callbacks.onClose then [CloseCallback(code)] else [])
      ensures !mounted ==> status == old(status) && effects == old(effects)
    {
      Deliver(Closed(code));
    }

    /** `send`: hands the serialised data to whatever socket `wsRef` holds, or logs when there is none. */
    method Send(data: V)
      modifies this`effects
      ensures effects == old(effects) + (if socketCreated then [Transmit(data)] else [SendWhileClosedLogged])
    {
      if socketCreated {
        effects := effects + [Transmit(data)];
      } else {
        effects := effects + [SendWhileClosedLogged];
      }
    }
  }

  /**
   * Once the effect has run, `send` no longer logs an error, whatever the
   * status: the ref is never cleared, so the frame is handed to the socket in
   * the ref even after that socket closed.
   */
  method SendAfterClose<V>(cbs: Callbacks, code: int, data: V) returns (sent: seq<Effect<V>>)
    ensures sent == [Transmit(data)]
  {
    var hook := new SocketHook<V>(cbs);
    hook.RunEffect();
    hook.OnClose(code);
    var before := |hook.effects|;
    hook.Send(data);
    sent := hook.effects[before..];
  }

  /** A send before the first effect run is the only way to reach the error path. */
  method SendBeforeSocket<V>(cbs: Callbacks, data: V) returns (sent: seq<Effect<V>>)
    ensures sent == [SendWhileClosedLogged]
  {
    var hook := new SocketHook<V>(cbs);
    hook.Send(data);
    sent := hook.effects;
  }
}
