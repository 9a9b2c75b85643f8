/**
 * The socket hook: one WebSocket, the hook's state `socket` (the socket
 * once its open event has fired, `null` again after its close event),
 * `roomId`, `username` and the list of chat `messages`, and the three
 * outbound intents. Inbound frames arrive already parsed; outbound frames
 * are recorded, in order, in `sent`.
 */
module Socket {
  import opened Wrappers

  /** `WebSocket.readyState`. */
  datatype ReadyState = Connecting | Open | Closing | Closed

  /** The `payload` object of an inbound frame; an absent or `null` field is `None`. */
  datatype Payload = Payload(roomId: Option<string>, username: Option<string>, message: Option<string>)

  /**
   * What `JSON.parse(event.data)` yields for one inbound frame: a thrown
   * parse error, or an object with its `messageType` and, when present, its
   * `payload`.
   */
  datatype Inbound = Unparseable | Frame(messageType: string, payload: Option<Payload>)

  /** The frames the client sends. */
  datatype Outbound =
    | Chat(username: string, roomId: string, message: string)   // messageType 'chat'
    | CreateRoom(username: string)                              // messageType 'createRoom'
    | Join(username: string, roomId: string)                    // messageType 'join'

  /** The part of the hook's state that inbound frames act on. */
  datatype RoomView = RoomView(roomId: string, username: string, messages: seq<string>)

  /** A frame the dispatcher acts on as a chat line: its payload must be there to read. */
  predicate IsChat(f: Inbound) {
    f.Frame? && f.messageType == "chat" && f.payload.Some?
  }

  predicate IsConnection(f: Inbound) {
    f.Frame? && f.messageType == "connection" && f.payload.Some?
  }

  /** The line a chat frame appends: `payload.message || ''`. */
  function ChatText(f: Inbound): (line: string)
    requires IsChat(f)
  {
    f.payload.value.message.GetOr("")
  }

  /** The room a connection frame assigns: `payload.roomId || ''`. */
  function ConnectionRoom(f: Inbound): (room: string)
    requires IsConnection(f)
  {
    f.payload.value.roomId.GetOr("")
  }

  /**
   * The `onmessage` dispatcher as a total step on the room view, with every
   * frame it cannot use ignored. A `connection` frame adopts the server's
   * room id; a `chat` frame appends one line; everything else leaves the
   * view as it was: a `joined` or `error` frame, an unknown type, a frame
   * that does not parse, and a frame without a payload. For a payload-less
   * `chat` frame this is the intended behaviour rather than the written one,
   * which `ReceiveAsWritten` records.
   */
  function Receive(v: RoomView, f: Inbound): (r: RoomView)
    ensures r.username == v.username
    ensures IsConnection(f) ==> r.roomId == ConnectionRoom(f) && r.messages == v.messages
    ensures IsChat(f) ==> r.roomId == v.roomId && r.messages == v.messages + [ChatText(f)]
    ensures !IsConnection(f) && !IsChat(f) ==> r == v
  {
    match f
    case Unparseable => v
    case Frame(messageType, payload) =>
      if payload.None? then v
      else if messageType == "connection" then v.(roomId := payload.value.roomId.GetOr(""))
      else if messageType == "chat" then v.(messages := v.messages + [payload.value.message.GetOr("")])
      else v
  }

  /** A `chat` frame whose `payload` is absent or `null`. */
  predicate IsPayloadlessChat(f: Inbound) {
    f.Frame? && f.messageType == "chat" && f.payload.None?
  }

  /**
   * The `onmessage` handler as written; `None` is an error that escapes it.
   * A payload-less `connection`, `joined` or `error` frame throws while the
   * handler reads `data.payload`, inside its `try`, and is ignored. A
   * payload-less `chat` frame is different: `data.payload.message` is read
   * inside the updater handed to `setMessages`, and React runs that updater
   * outside the handler's `try` (again while rendering), so the TypeError
   * is never caught and the component tree is torn down.
   */
  function ReceiveAsWritten(v: RoomView, f: Inbound): (r: Option<RoomView>)
    ensures r.None? <==> IsPayloadlessChat(f)
    ensures r.Some? ==> r.value == Receive(v, f)
  {
    match f
    case Unparseable => Some(v)
    case Frame(messageType, payload) =>
      if messageType == "connection" then
        if payload.None? then Some(v) else Some(v.(roomId := payload.value.roomId.GetOr("")))
      else if messageType == "chat" then
        if payload.None? then None else Some(v.(messages := v.messages + [payload.value.message.GetOr("")]))
      else Some(v)
  }

  /**
   * The discrepancy: a `chat` frame without a payload makes the handler as
   * written fail, where the dispatcher that ignores unusable frames leaves
   * the view unchanged.
   */
  lemma PayloadlessChatFaults(v: RoomView)
    ensures ReceiveAsWritten(v, Frame("chat", None)) == None
    ensures Receive(v, Frame("chat", None)) == v
  {
  }

  /** The view after the frames `fs`, delivered and handled in order. */
  function ReceiveAll(v: RoomView, fs: seq<Inbound>): (r: RoomView)
    ensures r.username == v.username
    ensures v.messages <= r.messages
    decreases |fs|
  {
    if fs == [] then v else ReceiveAll(Receive(v, fs[0]), fs[1..])
  }

  /** The chat lines carried by `fs`, in delivery order. */
  function ChatTexts(fs: seq<Inbound>): (lines: seq<string>) {
    if fs == [] then []
    else (if IsChat(fs[0]) then [ChatText(fs[0])] else []) + ChatTexts(fs[1..])
  }

  /** The room id left by the last connection frame of `fs`, or `current` when there is none. */
  function LastRoom(current: string, fs: seq<Inbound>): (room: string)
    decreases |fs|
  {
    if fs == [] then current
    else LastRoom(if IsConnection(fs[0]) then ConnectionRoom(fs[0]) else current, fs[1..])
  }

  /**
   * Messages are append-only and kept in delivery order: after any run of
   * frames the list is the old list followed by exactly the chat lines of
   * the run; the room id is that of the last connection frame, and the
   * username never changes.
   */
  lemma {:induction false} ReceiveAllSpec(v: RoomView, fs: seq<Inbound>)
    ensures ReceiveAll(v, fs).messages == v.messages + ChatTexts(fs)
    ensures ReceiveAll(v, fs).roomId == LastRoom(v.roomId, fs)
    ensures ReceiveAll(v, fs).username == v.username
    decreases |fs|
  {
    if fs != [] {
      var w := Receive(v, fs[0]);
      ReceiveAllSpec(w, fs[1..]);
      assert v.messages + ChatTexts(fs)
          == v.messages + (if IsChat(fs[0]) then [ChatText(fs[0])] else []) + ChatTexts(fs[1..]);
    }
  }

  /** Frames processed one after another compose: a run split in two is handled as a whole. */
  lemma {:induction false} ReceiveAllAppend(v: RoomView, fs: seq<Inbound>, gs: seq<Inbound>)
    ensures ReceiveAll(v, fs + gs) == ReceiveAll(ReceiveAll(v, fs), gs)
    decreases |fs|
  {
    if fs == [] {
      assert fs + gs == gs;
    } else {
      assert (fs + gs)[1..] == fs[1..] + gs;
      ReceiveAllAppend(Receive(v, fs[0]), fs[1..], gs);
    }
  }

  class SocketHook {
    /** The WebSocket's own `readyState`. */
    var readyState: ReadyState
    /** Whether the hook's `socket` state holds the WebSocket (`setSocket(ws)`) or `null`. */
    var held: bool
    var roomId: string
    var username: string
    var messages: seq<string>
    /** Every frame passed to `socket.send`, oldest first. */
    var sent: seq<Outbound>
    /** Whether an error has escaped a state updater, which makes React unmount the tree. */
    var faulted: bool

    function View(): (v: RoomView)
      reads this
    {
      RoomView(roomId, username, messages)
    }

    /** The guard of every intent: `socket && socket.readyState === WebSocket.OPEN`. */
    predicate CanSend()
      reads this
    {
      held && readyState == Open
    }

    /** Mount: a new WebSocket is connecting; the state is `null`, `''`, `''`, `[]`. */
    constructor ()
      ensures readyState == Connecting && !held
      ensures View() == RoomView("", "", []) && sent == [] && !faulted
    {
      readyState := Connecting;
      held := false;
      roomId, username, messages := "", "", [];
      sent := [];
      faulted := false;
    }

    /** `onopen`, which the browser fires only on a connecting socket: it is now open and held. */
    method OnOpen()
      requires readyState == Connecting
      modifies this`readyState, this`held
      ensures readyState == Open && held
    {
      readyState := Open;
      held := true;
    }

    /** `onclose`: the socket is closed and the hook's `socket` is `null` again. */
    method OnClose()
      modifies this`readyState, this`held
      ensures readyState == Closed && !held
    {
      readyState := Closed;
      held := false;
    }

    /** The effect's cleanup, `ws.close()`: a connecting or open socket starts closing. */
    method Teardown()
      modifies this`readyState
      ensures readyState == if old(readyState) in {Connecting, Open} then Closing else old(readyState)
      ensures !CanSend()
    {
      if readyState == Connecting || readyState == Open {
        readyState := Closing;
      }
    }

    /**
     * `onmessage`: one step of `ReceiveAsWritten`. A frame the handler copes
     * with updates the view as `Receive` does; a payload-less `chat` frame
     * leaves the view and records the uncaught fault. The socket and the sent
     * frames are untouched.
     */
    method OnMessage(f: Inbound)
      modifies this`roomId, this`messages, this`faulted
      ensures ReceiveAsWritten(old(View()), f).Some? ==>
                View() == Receive(old(View()), f) && faulted == old(faulted)
      ensures ReceiveAsWritten(old(View()), f).None? ==> View() == old(View()) && faulted
    {
      match f
      case Unparseable =>
      case Frame(messageType, payload) =>
        if messageType == "connection" {
          if payload.Some? {
            roomId := payload.value.roomId.GetOr("");
          }
        } else if messageType == "chat" {
          if payload.Some? {
            messages := messages + [payload.value.message.GetOr("")];
          } else {
            faulted := true;
          }
        }
    }

    /** `sendMessage(message)`: one chat frame with the current name and room, if the socket is open. */
    method SendMessage(message: string)
      modifies this`sent
      ensures sent == if CanSend() then old(sent) + [Chat(username, roomId, message)] else old(sent)
    {
      if CanSend() {
        sent := sent + [Chat(username, roomId, message)];
      }
    }

    /** `createRoom(username)`: adopts the name and asks for a room, if the socket is open. */
    method CreateRoom(name: string)
      modifies this`username, this`sent
      ensures old(CanSend()) ==> username == name && sent == old(sent) + [Outbound.CreateRoom(name)]
      ensures !old(CanSend()) ==> username == old(username) && sent == old(sent)
    {
      if CanSend() {
        username := name;
        sent := sent + [Outbound.CreateRoom(name)];
      }
    }

    /** `joinRoom(username, roomId)`: adopts both and asks to join, if the socket is open. */
    method JoinRoom(name: string, room: string)
      modifies this`username, this`roomId, this`sent
      ensures old(CanSend()) ==> username == name && roomId == room && sent == old(sent) + [Join(name, room)]
      ensures !old(CanSend()) ==> username == old(username) && roomId == old(roomId) && sent == old(sent)
    {
      if CanSend() {
        username := name;
        roomId := room;
        sent := sent + [Join(name, room)];
      }
    }
  }

  /** Before the open event nothing is sent, and after it the first intent is the first frame. */
  method SendBeforeAndAfterOpen(message: string) returns (before: seq<Outbound>, after: seq<Outbound>)
    ensures before == []
    ensures after == [Chat("", "", message)]
  {
    var hook := new SocketHook();
    hook.SendMessage(message);
    before := hook.sent;
    hook.OnOpen();
    hook.SendMessage(message);
    after := hook.sent;
  }
}
