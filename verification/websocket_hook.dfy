/**
 The connection hook: it owns one WebSocket per url, reports a connection
 status driven only by the socket's lifecycle callbacks, keeps the last
 decoded inbound message, and sends only while the socket is open.

 The socket is abstract: an id and a `readyState`. The browser's callbacks
 arrive as events tagged with the id of the socket that fired them. Decoding
 (`JSON.parse`) and encoding (`JSON.stringify`) are parameters; a frame that
 does not decode is `None`.

 Two step functions are given. `StepAsWritten` runs every callback of every
 socket the hook ever created, as the source does: after the url changes the
 old socket keeps its handlers. `Step` ignores callbacks of any socket other
 than the current one; the rest of the model uses it.
 */
module WebSocketHook {
  import opened Wrappers

  datatype Status = Disconnected | Connected | Error

  /** The WebSocket `readyState` values CONNECTING (0), OPEN (1), CLOSING (2), CLOSED (3). */
  datatype ReadyState = Connecting | Open | Closing | Closed

  datatype Socket = Socket(id: nat, readyState: ReadyState)

  datatype Event<M> =
    | Activate(url: string)                  // the effect keyed on `url`
    | OnOpen(socket: nat)
    | OnError(socket: nat)
    | OnClose(socket: nat)
    | OnMessage(socket: nat, frame: string)
    | Send(message: M)                       // a call of `sendMessage`
    | Unmount                                // the effect's cleanup when the view goes away

  datatype Hook<M> = Hook(
    status: Status,
    lastMessage: Option<M>,
    url: Option<string>,     // the url the effect last ran for
    ws: Option<Socket>,      // the `ws` state: the current socket
    created: nat,            // how many sockets the hook has created
    mounted: bool)

  function Initial<M>(): Hook<M>
  {
    Hook(Disconnected, None, None, None, 0, true)
  }

  predicate IsSocketEvent<M>(ev: Event<M>)
  {
    ev.OnOpen? || ev.OnError? || ev.OnClose? || ev.OnMessage?
  }

  predicate IsLifecycleEvent<M>(ev: Event<M>)
  {
    ev.OnOpen? || ev.OnError? || ev.OnClose?
  }

  predicate IsCurrent<M>(h: Hook<M>, id: nat)
  {
    h.ws.Some? && h.ws.value.id == id
  }

  /** The browser has moved socket `id` to `rs`; only the current socket is tracked. */
  function SetReady(ws: Option<Socket>, id: nat, rs: ReadyState): Option<Socket>
  {
    if ws.Some? && ws.value.id == id then Some(ws.value.(readyState := rs)) else ws
  }

  /** `websocket.close()`: a connecting or open socket starts closing. */
  function CloseSocket(ws: Option<Socket>): (r: Option<Socket>)
    ensures r.Some? <==> ws.Some?
    ensures r.Some? ==> r.value.id == ws.value.id && r.value.readyState in {Closing, Closed}
  {
    match ws
    case None => None
    case Some(s) => Some(if s.readyState.Connecting? || s.readyState.Open? then s.(readyState := Closing) else s)
  }

  /** `sendMessage`: the encoded message goes out only when there is a socket and it is OPEN. */
  function SendMessage<M>(ws: Option<Socket>, message: M, encode: M -> string): (out: Option<string>)
    ensures out.Some? <==> ws.Some? && ws.value.readyState == Open
    ensures out.Some? ==> out.value == encode(message)
  {
    if ws.Some? && ws.value.readyState == Open then Some(encode(message)) else None
  }

  /** One event, with every socket's callbacks writing the hook's state. A state
      update after unmounting is discarded, so an unmounted hook never changes. */
  function StepAsWritten<M>(h: Hook<M>, ev: Event<M>, decode: string -> Option<M>): (r: Hook<M>)
    ensures !h.mounted ==> r == h
    ensures h.mounted && ev.OnOpen? ==> r.status == Connected
    ensures h.mounted && ev.OnError? ==> r.status == Error
    ensures h.mounted && ev.OnClose? ==> r.status == Disconnected
    ensures !IsLifecycleEvent(ev) ==> r.status == h.status
    ensures h.mounted && ev.OnMessage? ==>
      r.lastMessage == (if decode(ev.frame).Some? then decode(ev.frame) else h.lastMessage)
    ensures !ev.OnMessage? ==> r.lastMessage == h.lastMessage
    ensures ev.Send? ==> r == h
    ensures h.mounted && ev.Activate? && h.url != Some(ev.url) ==>
      r.ws == Some(Socket(h.created, Connecting)) && r.url == Some(ev.url) && r.created == h.created + 1
    ensures ev.Activate? && h.url == Some(ev.url) ==> r == h
    ensures h.mounted && ev.Unmount? ==> !r.mounted && r.ws == CloseSocket(h.ws)
  {
    if !h.mounted then h
    else match ev
      case Activate(url) =>
        // cleanup closes the old socket, which drops out of the state; a new one is connecting
        if h.url == Some(url) then h
        else h.(url := Some(url), ws := Some(Socket(h.created, Connecting)), created := h.created + 1)
      case OnOpen(id) => h.(status := Connected, ws := SetReady(h.ws, id, Open))
      // the browser sets CLOSED before it fires `error` and `close`
      case OnError(id) => h.(status := Error, ws := SetReady(h.ws, id, Closed))
      case OnClose(id) => h.(status := Disconnected, ws := SetReady(h.ws, id, Closed))
      case OnMessage(_, frame) =>
        (match decode(frame)
         case Some(v) => h.(lastMessage := Some(v))
         case None => h)   // `JSON.parse` throws before `setLastMessage`
      case Send(_) => h
      case Unmount => h.(ws := CloseSocket(h.ws), mounted := false)
  }

  /** One event, with callbacks of any socket but the current one ignored. */
  function Step<M>(h: Hook<M>, ev: Event<M>, decode: string -> Option<M>): (r: Hook<M>)
    ensures IsSocketEvent(ev) && !IsCurrent(h, ev.socket) ==> r == h
    ensures !IsSocketEvent(ev) || IsCurrent(h, ev.socket) ==> r == StepAsWritten(h, ev, decode)
  {
    if IsSocketEvent(ev) && !IsCurrent(h, ev.socket) then h else StepAsWritten(h, ev, decode)
  }

  /** The message `sendMessage` transmits for an event, if any. */
  function Outgoing<M>(h: Hook<M>, ev: Event<M>, encode: M -> string): Option<string>
  {
    if ev.Send? then SendMessage(h.ws, ev.message, encode) else None
  }

  function RunAsWritten<M>(h: Hook<M>, evs: seq<Event<M>>, decode: string -> Option<M>): Hook<M>
    decreases |evs|
  {
    if |evs| == 0 then h else StepAsWritten(RunAsWritten(h, evs[..|evs| - 1], decode), evs[|evs| - 1], decode)
  }

  function Run<M>(h: Hook<M>, evs: seq<Event<M>>, decode: string -> Option<M>): Hook<M>
    decreases |evs|
  {
    if |evs| == 0 then h else Step(Run(h, evs[..|evs| - 1], decode), evs[|evs| - 1], decode)
  }

  /** The status named by the last open, error or close callback, or `start` if there is none. */
  function StatusAfter<M>(evs: seq<Event<M>>, start: Status): Status
    decreases |evs|
  {
    if |evs| == 0 then start
    else match evs[|evs| - 1]
      case OnOpen(_) => Connected
      case OnError(_) => Error
      case OnClose(_) => Disconnected
      case _ => StatusAfter(evs[..|evs| - 1], start)
  }

  /** The value of the last frame that decodes, or `start` if none does. */
  function MessageAfter<M>(evs: seq<Event<M>>, decode: string -> Option<M>, start: Option<M>): Option<M>
    decreases |evs|
  {
    if |evs| == 0 then start
    else
      var ev := evs[|evs| - 1];
      if ev.OnMessage? && decode(ev.frame).Some? then decode(ev.frame)
      else MessageAfter(evs[..|evs| - 1], decode, start)
  }

  /** The corrected hook's invariant: socket ids are fresh, an open current socket
      shows as connected, and connected is shown only while the current socket
      is connecting or open. */
  predicate Consistent<M>(h: Hook<M>)
  {
    && (h.ws.Some? ==> h.ws.value.id < h.created)
    && (h.mounted && h.ws.Some? && h.ws.value.readyState == Open ==> h.status == Connected)
    && (h.mounted && h.status == Connected ==> h.ws.Some? && h.ws.value.readyState in {Connecting, Open})
  }
}
