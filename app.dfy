/**
 * The application component: how a chat line is split into sender and
 * content for display, which lines count as the user's own, the composer's
 * `send`, and `handleRoomSubmit`, which turns the form's submission into a
 * socket intent and switches to the room view.
 */
module App {
  import opened Wrappers
  import opened Text
  import Socket
  import opened CreateOrJoin

  datatype ParsedMessage = ParsedMessage(sender: string, content: string)

  /**
   * `parseMessage`: a line without a colon has no sender and is shown whole,
   * untrimmed; otherwise it is cut at its first colon into a trimmed sender
   * and a trimmed content.
   */
  function ParseMessage(msg: string): (r: ParsedMessage)
    ensures ':' !in msg ==> r == ParsedMessage("", msg)
    ensures ':' !in r.sender && Trim(r.sender) == r.sender
  {
    var colonIndex := IndexOf(msg, ':');
    if colonIndex == -1 then ParsedMessage("", msg)
    else
      var sender := Trim(msg[..colonIndex]);
      SenderHasNoColon(msg, colonIndex);
      ParsedMessage(sender, Trim(msg[colonIndex + 1..]))
  }

  /**
   * A line is cut at its first colon: whichever position holds the first
   * colon, the sender is the trimmed text before it and the content the
   * trimmed text after it.
   */
  lemma SplitsAtFirstColon(msg: string, i: int)
    requires FirstAt(msg, ':', i)
    ensures ParseMessage(msg) == ParsedMessage(Trim(msg[..i]), Trim(msg[i + 1..]))
  {
    FirstOccurrenceUnique(msg, ':', i, IndexOf(msg, ':'));
  }

  /** The trimmed text before the first colon holds no colon and trims to itself. */
  lemma SenderHasNoColon(msg: string, k: int)
    requires FirstAt(msg, ':', k)
    ensures ':' !in Trim(msg[..k]) && Trim(Trim(msg[..k])) == Trim(msg[..k])
  {
    TrimInfix(msg[..k]);
    TrimIdempotent(msg[..k]);
  }

  /**
   * Only the first colon splits: the content keeps every later colon, so it
   * holds exactly one colon fewer than the line.
   */
  lemma ContentKeepsLaterColons(msg: string)
    requires ':' in msg
    ensures Occurrences(':', ParseMessage(msg).content) == Occurrences(':', msg) - 1
  {
    var k := IndexOf(msg, ':');
    var after := msg[k + 1..];
    SplitsAtFirstColon(msg, k);
    assert ParseMessage(msg).content == Trim(after);
    ColonIsNotWhitespace();
    TrimKeepsOccurrences(':', after);
    OccurrencesAfterFirst(':', msg, k);
  }

  /**
   * `isOwnMessage`: the parsed sender equals the current username. A line
   * without a colon is own exactly when the username is empty, and no line
   * is ever own for a username that contains a colon or has whitespace at
   * either end.
   */
  function IsOwnMessage(msg: string, username: string): (r: bool)
    ensures ':' !in msg ==> (r <==> username == "")
    ensures r ==> ':' !in username && Trim(username) == username
  {
    ParseMessage(msg).sender == username
  }

  /**
   * What `send` hands to `sendMessage`: nothing when the input is not
   * mounted or holds only whitespace, and otherwise its trimmed text, which
   * is non-empty and already trimmed.
   */
  function Outgoing(input: Option<string>): (r: Option<string>)
    ensures r.None? <==> input.None? || AllWhitespace(input.value)
    ensures r.Some? ==> r.value == Trim(input.value)
    ensures r.Some? ==> r.value != "" && Trim(r.value) == r.value
  {
    match input
    case None => None
    case Some(value) =>
      var text := Trim(value);
      TrimIdempotent(value);
      if text == "" then None else Some(text)
  }

  class ChatApp {
    /** The socket hook this component owns. */
    const socket: Socket.SocketHook
    /** Whether the room view replaces the form. */
    var roomCreated: bool
    /** `inputRef.current?.value`: the composer's text, `None` while it is not mounted. */
    var input: Option<string>

    /** First render: the form is shown, the composer is not mounted, the socket is connecting. */
    constructor ()
      ensures fresh(socket)
      ensures socket.readyState == Socket.Connecting && !socket.held
      ensures socket.View() == Socket.RoomView("", "", []) && socket.sent == [] && !socket.faulted
      ensures !roomCreated && input == None
    {
      socket := new Socket.SocketHook();
      roomCreated := false;
      input := None;
    }

    /**
     * `send`: blank input is ignored and kept; otherwise the trimmed text
     * goes to `sendMessage` (sent only if the socket is open) and the input
     * is emptied.
     */
    method Send()
      modifies this`input, socket`sent
      ensures Outgoing(old(input)).None? ==> input == old(input) && socket.sent == old(socket.sent)
      ensures Outgoing(old(input)).Some? ==>
                && input == Some("")
                && socket.sent == old(socket.sent) +
                     (if socket.CanSend()
                      then [Socket.Chat(socket.username, socket.roomId, Outgoing(old(input)).value)]
                      else [])
    {
      var text := Outgoing(input);
      if text.None? {
        return;
      }
      socket.SendMessage(text.value);
      input := Some("");
    }

    /**
     * `handleRoomSubmit`: create mode asks the socket for a room under the
     * given name, join mode asks to join the given room; either way the room
     * view is shown, even when the socket was not open and nothing was sent.
     */
    method HandleRoomSubmit(submission: Submission)
      modifies this`roomCreated, socket`username, socket`roomId, socket`sent
      ensures roomCreated
      ensures !old(socket.CanSend()) ==>
                socket.View() == old(socket.View()) && socket.sent == old(socket.sent)
      ensures old(socket.CanSend()) && submission.mode == Create ==>
                && socket.View() == old(socket.View()).(username := submission.username)
                && socket.sent == old(socket.sent) + [Socket.CreateRoom(submission.username)]
      ensures old(socket.CanSend()) && submission.mode == Join ==>
                && socket.View() == old(socket.View()).(username := submission.username, roomId := submission.roomId)
                && socket.sent == old(socket.sent) + [Socket.Join(submission.username, submission.roomId)]
    {
      match submission.mode
      case Create =>
        socket.CreateRoom(submission.username);
        roomCreated := true;
      case Join =>
        socket.JoinRoom(submission.username, submission.roomId);
        roomCreated := true;
    }

    /**
     * The form's `onSubmit` prop wired to `handleRoomSubmit`: a submission
     * that passes validation always reaches the socket hook, and since
     * `handleRoomSubmit` never throws the form's error ends cleared.
     */
    method SubmitForm(form: Form, uuid: string)
      modifies form`error, form`loading, this`roomCreated, socket`username, socket`roomId, socket`sent
      ensures MissingRequired(form.username, form.roomId, form.mode) ==>
                && form.error == MissingFieldsError && form.loading == old(form.loading)
                && roomCreated == old(roomCreated)
                && socket.View() == old(socket.View()) && socket.sent == old(socket.sent)
      ensures !MissingRequired(form.username, form.roomId, form.mode) ==>
                && form.error == "" && !form.loading && roomCreated
                && socket.username == (if old(socket.CanSend()) then form.username else old(socket.username))
                && socket.roomId == (if old(socket.CanSend()) && form.mode == Join then form.roomId
                                     else old(socket.roomId))
                && socket.sent == old(socket.sent) +
                     (if !old(socket.CanSend()) then []
                      else if form.mode == Create then [Socket.CreateRoom(form.username)]
                      else [Socket.Join(form.username, form.roomId)])
    {
      var submitted := form.HandleSubmit(uuid, false);
      if submitted.Some? {
        HandleRoomSubmit(submitted.value);
      }
    }
  }

  /**
   * Creating a room on an open socket: the request carries the typed name and
   * no room id (the random one the form picks is not sent), and the room
   * view is shown while the room id is still whatever the server last sent.
   */
  method CreateOnOpenSocket(username: string, uuid: string) returns (sent: seq<Socket.Outbound>, shown: bool, roomId: string)
    ensures username != "" ==> sent == [Socket.CreateRoom(username)] && shown && roomId == ""
    ensures username == "" ==> sent == [] && !shown
  {
    var app := new ChatApp();
    var form := new Form();
    form.username := username;
    form.mode := Create;
    app.socket.OnOpen();
    app.SubmitForm(form, uuid);
    sent, shown, roomId := app.socket.sent, app.roomCreated, app.socket.roomId;
  }
}
