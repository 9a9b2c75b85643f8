# Chat client: a verified model of its state handling

This project models, in Dafny, the logic of a small browser chat client
written in React and TypeScript. It covers four pieces of that client:

- **the session hook** (`src/hooks/useSession.tsx`). It keeps one local-storage
  slot, `chat_session`, holding `{username, roomId, expiresAt}`. A save
  stamps a one-hour expiry. A read keeps a record only while `expiresAt`
  lies strictly after the current time. An expired record or one that does
  not parse is purged.
- **the socket hook** (`src/hooks/useSocket.ts`). It holds one WebSocket and
  the state `socket`, `roomId`, `username` and `messages`. The `onmessage`
  handler dispatches on `messageType`. The three outbound intents
  (`sendMessage`, `createRoom`, `joinRoom`) do nothing unless the socket is
  held and open.
- **the application component** (`src/App.tsx`). This covers
  `parseMessage`, which cuts a chat line at its first colon, and the
  "own message" test. It also covers the composer's `send` and
  `handleRoomSubmit`, which sets the `roomCreated` flag.
- **the join-or-create form** (`src/Components/CreateOrJoin.tsx`). This is
  `handleSubmit`: it validates the fields, picks the room id, and updates the
  `error` and `loading` flags around the call to the submit callback.

Modules, one per file:

| file | module | models |
|---|---|---|
| `wrappers.dfy` | `Wrappers` | `Option`, which stands for `null` and `undefined` |
| `text.dfy` | `Text` | `trim`, `indexOf` and `slice(0, n)` on strings, plus a colon count |
| `session.dfy` | `Session` | `useSession` as the class `SessionHook` |
| `socket.dfy` | `Socket` | `useSocket` as the class `SocketHook`; its frame handler as the functions `ReceiveAsWritten` and `Receive` |
| `form.dfy` | `CreateOrJoin` | the form as the class `Form` |
| `app.dfy` | `App` | `App` as the class `ChatApp`; message parsing as functions |

Each React hook or component becomes a class. Its `useState` slots are the
class's fields. Each handler is a method that runs as one atomic step. The
surroundings are explicit inputs:

- the clock is the parameter `now` (milliseconds);
- `JSON.parse` on the stored session is the datatype `Parsed = Ok(record) | Fail`;
- `JSON.stringify` is `Encode`, which is assumed to give non-empty text that parses back to the record;
- an inbound frame is the already-parsed datatype `Inbound`;
- outbound frames are appended to the field `sent`;
- the random UUID is an arbitrary string `uuid`;
- the submit callback's outcome is the flag `onSubmitThrows`.

The socket's state is two fields. `readyState` is the WebSocket's own state
(`Connecting | Open | Closing | Closed`). `held` says whether the hook's
`socket` state holds the WebSocket (set by `onopen`) or is `null` again (set
by `onclose`). The send guard `socket && socket.readyState === WebSocket.OPEN`
is `CanSend()`.

The code has no rejoin on open, saves no session on a `connection` frame or
a join, clears none on an `error` frame, and puts no timestamp on messages.
`useSocket` never calls `useSession`.

## Model

| member | source | states |
|---|---|---|
| `Text.Trim` | src/App.tsx:80-81 | `trim` never lengthens a string, and its result neither starts nor ends with whitespace. It is empty exactly when the string is all whitespace. |
| `Text.TrimBounds` | src/App.tsx:44 | `trim` keeps a window `s[lo..hi]`. Everything outside the window is whitespace, and the window's first and last characters are not. |
| `Text.TrimInfix` | src/App.tsx:80 | Every character of a trimmed string occurs in the original string. |
| `Text.TrimIdempotent` | src/App.tsx:47 | Trimming twice gives the same result as trimming once. |
| `Text.TrimKeepsOccurrences` | src/App.tsx:81 | Trimming keeps every non-whitespace character, so the count of any such character is unchanged. |
| `Text.IndexOf` | src/App.tsx:76 | `indexOf` returns -1 exactly when the character is absent. Otherwise it returns a position holding the character, with no earlier occurrence. |
| `Text.IndexOfIsFirst` | src/App.tsx:76 | Any position that holds the first occurrence of a character is the position `indexOf` returns. |
| `Text.Prefix` | src/Components/CreateOrJoin.tsx:24 | `slice(0, n)` returns a prefix whose length is the smaller of `n` and the string's length. |
| `Session.Purges` | src/hooks/useSession.tsx:31-43 | A read removes the slot exactly when it holds a non-empty text that does not parse or parses to a record whose `expiresAt` is not after `now`. |
| `Session.Live` | src/hooks/useSession.tsx:33-36 | A read at time `now` accepts a record exactly when the slot parses to a record with `expiresAt > now`. The accepted record is the stored one, unchanged. |
| `Session.SlotAfterRead` | src/hooks/useSession.tsx:30-46 | After a read, the slot is either unchanged or removed. A live record and an empty string are kept. Anything left that parses is live. |
| `Session.SessionHook.constructor` | src/hooks/useSession.tsx:10-11 | On first render `sessionData` is null and `isLoading` is true. |
| `Session.SessionHook.SaveSession` | src/hooks/useSession.tsx:13-21 | After a save the slot and `sessionData` both hold exactly `{username, roomId, now + 3600000}`, whatever was there before. |
| `Session.SessionHook.ClearSession` | src/hooks/useSession.tsx:23-26 | After a clear the slot is absent and `sessionData` is null, whatever the prior state. |
| `Session.SessionHook.LoadSession` | src/hooks/useSession.tsx:29-47 | Returns the live record, or null. A live record becomes `sessionData`. An expired record (equality counts as expired) or an unparsable one is purged and `sessionData` becomes null. An absent or empty slot leaves both unchanged. |
| `Session.SessionHook.CheckSession` | src/hooks/useSession.tsx:49-64 | Applies the same keep-or-purge rule as `LoadSession` and always ends with `isLoading` false. |
| `Session.SaveThenLoad` | src/hooks/useSession.tsx:17 | Round trip: a save at `t` followed by a load at `t'` returns the saved username and room id exactly when `t' < t + 3600000`, whatever was stored before. |
| `Session.ClearTwice` | src/hooks/useSession.tsx:23-26 | Clearing twice leaves the same state as clearing once: nothing stored and no session. |
| `Session.ExpiryIsStrict` | src/hooks/useSession.tsx:34 | A record read at its own `expiresAt` instant is rejected and purged. |
| `Socket.Receive` | src/hooks/useSocket.ts:28-44 | The handler with every unusable frame ignored. A `connection` frame sets `roomId` to `payload.roomId` (or `''` if missing) and keeps the messages. A `chat` frame appends `payload.message` (or `''`) after all earlier messages. Every other frame leaves the view unchanged: `joined`, `error`, unknown types, unparsable frames and frames with no payload. No frame changes `username`. |
| `Socket.ReceiveAsWritten` | src/hooks/useSocket.ts:28-44 | The handler as written fails with an uncaught error exactly on a `chat` frame without a payload. On every other frame it gives the view `Receive` gives. |
| `Socket.PayloadlessChatFaults` | src/hooks/useSocket.ts:35 | The discrepancy: a `chat` frame with no payload crashes the handler as written, while `Receive` leaves the view unchanged. |
| `Socket.ReceiveAll` | src/hooks/useSocket.ts:28-44 | Handling frames in delivery order never changes `username` and only appends to `messages`: the old list is a prefix of the new one. |
| `Socket.ReceiveAllSpec` | src/hooks/useSocket.ts:35 | After any run of frames, `messages` is the old list followed by the run's chat lines in delivery order. `roomId` is that of the last `connection` frame, and `username` is unchanged. |
| `Socket.ReceiveAllAppend` | src/hooks/useSocket.ts:28-44 | Handling two runs of frames one after the other equals handling their concatenation. |
| `Socket.SocketHook.constructor` | src/hooks/useSocket.ts:14-20 | On mount the WebSocket is connecting and not yet held. `roomId` and `username` are `''`, and nothing has been received or sent. |
| `Socket.SocketHook.OnOpen` | src/hooks/useSocket.ts:22-25 | The open event, which only a connecting socket receives, makes the socket open and held. |
| `Socket.SocketHook.OnClose` | src/hooks/useSocket.ts:46-49 | The close event makes the socket closed and the hook's `socket` null. |
| `Socket.SocketHook.Teardown` | src/hooks/useSocket.ts:55 | The cleanup `ws.close()` moves a connecting or open socket to closing. After it no intent can send. |
| `Socket.SocketHook.OnMessage` | src/hooks/useSocket.ts:28-44 | On a frame the handler copes with, `roomId` and `messages` change exactly as `Receive` says. A `chat` frame without a payload leaves them unchanged and sets `faulted`. Nothing else changes. |
| `Socket.SocketHook.SendMessage` | src/hooks/useSocket.ts:58-67 | On a held, open socket it sends one `chat` frame with the current `username`, `roomId` and the message. Otherwise it sends nothing. It never changes state. |
| `Socket.SocketHook.CreateRoom` | src/hooks/useSocket.ts:69-79 | On a held, open socket it sets `username` and sends exactly one `createRoom` frame, leaving `roomId` alone. Otherwise it changes nothing. |
| `Socket.SocketHook.JoinRoom` | src/hooks/useSocket.ts:81-92 | On a held, open socket it sets `username` and `roomId` and sends exactly one `join` frame. Otherwise it changes nothing. |
| `Socket.SendBeforeAndAfterOpen` | src/hooks/useSocket.ts:58-60 | A send before the open event is dropped, not queued. After the open event the same send is the first frame out. |
| `App.ParseMessage` | src/App.tsx:75-83 | A line with no colon gives sender `''` and the whole line as content, untrimmed. In every case the sender contains no colon and is already trimmed. |
| `App.SplitsAtFirstColon` | src/App.tsx:76-82 | A line with a colon is cut at its first colon: the sender is the trimmed text before it and the content is the trimmed text after it. |
| `App.ContentKeepsLaterColons` | src/App.tsx:79-82 | Only the first colon splits: the content holds every later colon, so it has exactly one colon fewer than the line. |
| `App.IsOwnMessage` | src/App.tsx:85-86 | A line with no colon is "own" exactly when the username is empty. No line is ever own for a username that contains a colon or has whitespace at either end. |
| `App.Outgoing` | src/App.tsx:44-47 | `send` passes on nothing when the input is unmounted or blank. Otherwise it passes the input's trimmed text, which is non-empty and already trimmed. |
| `App.ChatApp.constructor` | src/App.tsx:7-9 | The app starts on the form (`roomCreated` false) and owns a fresh, connecting socket hook. |
| `App.ChatApp.Send` | src/App.tsx:43-49 | Blank input changes nothing and sends nothing. Other input goes through `sendMessage` once, as trimmed text, and the input is emptied. |
| `App.ChatApp.HandleRoomSubmit` | src/App.tsx:23-41 | Create mode calls only `createRoom(username)`; join mode calls only `joinRoom(username, roomId)`. Either way `roomCreated` becomes true, even when the socket was not open and nothing changed. |
| `App.ChatApp.SubmitForm` | src/App.tsx:189-193 | The form's `onSubmit` is wired to `handleRoomSubmit`. A submission that passes validation reaches the socket hook and ends with the form's error cleared and `loading` off. A rejected one changes neither the app nor the socket. |
| `App.CreateOnOpenSocket` | src/Components/CreateOrJoin.tsx:24 | Creating a room on an open socket sends only `createRoom` with the typed name. The room id the form generates is never sent, so `roomId` stays `''` until the server answers. An empty name sends nothing. |
| `CreateOrJoin.MissingRequired` | src/Components/CreateOrJoin.tsx:18 | In create mode validation fails exactly when the username is empty; the room id is not required. In join mode it fails when either field is empty. |
| `CreateOrJoin.BlankUsernamePasses` | src/Components/CreateOrJoin.tsx:18 | The emptiness test is untrimmed, so a whitespace-only username passes validation although it trims to `''`. |
| `CreateOrJoin.FinalRoomId` | src/Components/CreateOrJoin.tsx:24 | Create mode submits a prefix of the random id, whose length is the smaller of 6 and the random id's length, and ignores the typed id. Join mode submits the typed id unchanged. |
| `CreateOrJoin.Form.constructor` | src/Components/CreateOrJoin.tsx:9-13 | The form starts with empty fields, in join mode, with no error and not loading. |
| `CreateOrJoin.Form.HandleSubmit` | src/Components/CreateOrJoin.tsx:15-34 | If a required field is missing, `error` is "Please fill in all required fields.", nothing is submitted and `loading` is unchanged. Otherwise the callback receives `{username, finalRoomId, mode}`. Then `error` is cleared, or set to "An error occurred. Please try again." if the callback threw, and `loading` always ends false. |

## Left out

- Rendering is not modelled: JSX, styling, auto-scroll (src/App.tsx:19-21), the per-message clock text (src/App.tsx:120-123) and the uppercased avatar initial (src/App.tsx:105).
- The `Alert` component, the `Room` prototype and the build configuration are not part of this model.
- Console logging and the `onerror` handler (src/hooks/useSocket.ts:51-53) change no state and are left out.
- The WebSocket transport, `localStorage`, `JSON.parse`/`JSON.stringify`, `Date.now` and `crypto.randomUUID` are inputs, not models. The browser's own readyState changes are modelled only where a handler observes them (`OnOpen`, `OnClose`, `Teardown`).
- `Session.Parsed`: a stored text that does not parse, or parses to `null` or another value without an `expiresAt`, is treated as `Fail`. A parsed object with a live `expiresAt` but a missing or non-string `username` or `roomId` (such as `{"expiresAt": 9e15}`) is kept and returned by the code; `SessionRecord` cannot represent it, so such objects are not represented. A record whose `expiresAt` does not convert to a number greater than `now` is purged, and `Fail` gives the same outcome. Field types inside a parsed record are not checked, as in the code.
- `Socket.Payload`: payload fields are optional strings. A field that is present but neither a string nor falsy (a number, say) is not represented.
- React's asynchronous state batching and the interleaving of events are not modelled: each handler is one atomic step on the current state. Closures over stale state are not represented.
- `Text.IsWhitespace` is a fixed set: the ECMAScript WhiteSpace and LineTerminator code points. Unicode category lookups are not modelled.
- `CreateOrJoin.Form` is not shown receiving keystrokes: the `onChange` setters and the mode radio buttons are one-line assignments to its public fields. `mode` is a two-valued datatype because those buttons only ever set `"join"` or `"create"`.
- `Socket.SocketHook.OnMessage`: after an uncaught error React unmounts the whole tree. The model records the fault in `faulted` but does not stop later handlers from running.
- `Text.IndexOf`, `Text.Prefix` and `Text.Trim` count code points, while JavaScript's `indexOf`, `slice` and `substring` count UTF-16 code units. No result differs here, because the colon and the UUID are ASCII.

## Findings

| source | as written | input that shows it | evidently intended | confidence | as-written member | corrected member |
|---|---|---|---|---|---|---|
| src/hooks/useSocket.ts:35 | The `setMessages` updater reads `data.payload.message`. React runs the updater outside the handler's `try`, so a missing payload throws an uncaught TypeError and, with no error boundary, unmounts the app. | the frame `{"messageType":"chat"}` | A `chat` frame without a payload is ignored, like the other payload-less frames. | not executed | `Socket.ReceiveAsWritten`, `Socket.PayloadlessChatFaults` | `Socket.Receive` |
