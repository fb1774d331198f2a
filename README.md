# HedgeDoc real-time client — a Dafny model

This project models the protocol client in `src/hedgedoc/hedgedoc.service.ts`.
The client writes into a live HedgeDoc note by speaking Socket.IO over Engine.IO v3 directly:

- it fetches a session cookie and builds the `Cookie` header;
- it opens the socket, sends `40`, answers the Engine.IO open packet with `2probe` and a `join` event;
- on the first `doc` snapshot `{str, revision}` it sends ot.js operations that replace the note (*override*) or extend it (*append*);
- it then closes the socket and resolves the call.

`overrideNote` and `appendNote` run the same handler code apart from the `doc` branch, so the model has one handler parameterised by `Mode`.

Files and modules:

- `wrappers.dfy` (`Wrappers`): `Option` and `Result`.
- `js_values.dfy` (`JsValues`): the values `JSON.parse` yields, JavaScript truthiness and property access.
- `text_operation.dfy` (`TextOperation`): the ot.js operation encoding.
  A positive count retains, a negative count deletes, a string inserts.
  A reference `Apply` gives it meaning.
- `socket_io.dfy` (`SocketIo`): `decodeSocketIoMessage`.
- `edit_frames.dfy` (`Frames`): the outgoing frames as a datatype and the edit policy for both modes.
  It also holds a server-side `Replay` that checks revision anchoring and the text each mode produces.
- `session.dfy` (`Session`): session bootstrap, the `Cookie` header, and a reading of the header back into entries.
- `connection.dfy` (`Connection`): the message handler.
  - `HandleMessage` and `Step` are the pure specification of one event.
  - `Run` folds a sequence of events.
  - The class `Client` holds the closure state of the source: `operationSent`, `closed`, the outcome and the sent-frame log.
    Its methods `OnOpen`, `OnMessage`, `OnError` and `OnGraceElapsed` run the handlers statement by statement and are proved to follow `Step`.

Inputs that the source reads from its environment are parameters:

- `JSON.parse` is `Config.parse`; `None` means the parse throws.
- `Date.now() - startTime` is the `elapsedMs` of each received message.
- The HTTP response of the session bootstrap is a `Response` value.
- The cookie jar is a sequence of (key, value) pairs.

In these places the code behaves in ways a reader might not expect; the model follows the code:

- The 15 s deadline is checked only when a message arrives (`hedgedoc.service.ts:160`), not by a timer.
  A connection on which nothing arrives never times out.
- The keepalive loop is started with `pingInterval / 1000` (`hedgedoc.service.ts:179`), and `setInterval` reads that number as milliseconds.
  The model records the raw `pingInterval` values in `pingIntervals` and does not call them a period in milliseconds.
- A message that arrives after the deadline rejects the call even if the operation was already sent and the grace timer is pending.

## Model

| member | source | states |
|---|---|---|
| `JsValues.Truthy` | src/hedgedoc/hedgedoc.service.ts:177-200 | a value is truthy exactly when it is not `undefined`, `null`, `false`, `0` or the empty string |
| `JsValues.Prop` | src/hedgedoc/hedgedoc.service.ts:177 | reading the `pingInterval` key gives `undefined` on anything but an object; on an object holding the key it gives that key's value, and `undefined` when the key is absent |
| `TextOperation.ApplyDefined` | src/hedgedoc/hedgedoc.service.ts:219-228 | an ot.js operation applies iff every count is non-zero and retained + deleted equals the document length; the result then has retained + inserted characters |
| `TextOperation.DeleteAllEmpties` | src/hedgedoc/hedgedoc.service.ts:218-219 | deleting `len(str)` characters turns a non-empty `str` into the empty text |
| `TextOperation.InsertIntoEmpty` | src/hedgedoc/hedgedoc.service.ts:233-234 | inserting `newContent` into the empty note yields `newContent` |
| `TextOperation.RetainThenInsertAppends` | src/hedgedoc/hedgedoc.service.ts:353-358 | retaining `len(str)` and inserting `newContent` turns `str` into `str + newContent` |
| `SocketIo.Split` | src/hedgedoc/hedgedoc.service.ts:75 | `[data[0], data.slice(1)]` is produced exactly for arrays and strings; a non-empty array gives its head and the array of the rest; a string gives a one-character name |
| `SocketIo.Decode` | src/hedgedoc/hedgedoc.service.ts:69-82 | a frame not starting with `42` decodes to `(null, null)`; so does a `42` frame whose body does not parse; an event with a name other than one character comes from an array whose head is the name and whose tail is the arguments |
| `SocketIo.EventRoundTrip` | src/hedgedoc/hedgedoc.service.ts:71-75 | an event frame `42` + serialised `[name, ...args]` decodes back to `(name, args)` whenever parsing inverts serialising on that payload |
| `SocketIo.PongIgnored` | src/hedgedoc/hedgedoc.service.ts:81 | the pong frame `3` decodes to `(null, null)` |
| `Frames.EditSequence` | src/hedgedoc/hedgedoc.service.ts:207-358 | (override at :207-237, append at :355-358) override on a non-empty note sends select-all `(0, len)`, cursor `(0, len)`, a delete of `len` characters at `revision` with the cursor at 0, then an insert of `newContent` at `revision + 1`; append on a non-empty note sends one operation at `revision` that retains `len` and inserts `newContent`; an empty note gets one insert at `revision` in either mode; the last frame's cursor sits at the end of the intended text |
| `Frames.EditSequenceReplays` | src/hedgedoc/hedgedoc.service.ts:218-237 | replayed by the server, the frames turn `str` into `newContent` (override) or `str + newContent` (append); each operation is anchored at the revision current when it arrives; the revision ends at `revision` + number of operations |
| `Frames.EditSequenceBaseLengths` | src/hedgedoc/hedgedoc.service.ts:219-228 | two operations for override on a non-empty note, else one; the first is at `revision` and reads `len(str)` characters; the second is at `revision + 1` and reads none |
| `Frames.Scenarios` | src/hedgedoc/hedgedoc.service.ts:354-359 | the frames for "hello"@5 with override "bye" and append " world", and for the empty note @0 in both modes |
| `Session.FirstValue` | src/hedgedoc/hedgedoc.service.ts:53-54 | `None` iff no jar entry has the key; otherwise the value of the first entry with the key |
| `Session.SessionFromJar` | src/hedgedoc/hedgedoc.service.ts:53-62 | the four preferences are `true`, `space`, `4`, `vim`; a jar without `connect.sid` gives the empty session id; otherwise the id is the value of the first `connect.sid` entry |
| `Session.AcquireSession` | src/hedgedoc/hedgedoc.service.ts:33-62 | the bootstrap fails, carrying status and status text, iff the response is not ok; on success it yields the session read from the response's cookie jar (`SessionFromJar`) |
| `Session.ResolveCookies` | src/hedgedoc/hedgedoc.service.ts:116-118 | cookies given by the caller are used unchanged; otherwise the result is exactly the bootstrap's: it fails iff the response is not ok, and otherwise it is the fetched session |
| `Session.FetchedSessionHeader` | src/hedgedoc/hedgedoc.service.ts:116-131 | without caller cookies, an ok bootstrap makes the `Cookie` header the four preferences, preceded by `connect.sid=<id>; ` only when the jar gave a non-empty id |
| `Session.EntriesOf` | src/hedgedoc/hedgedoc.service.ts:128 | the cookie object's entries are `connect.sid`, `loginstate`, `indent_type`, `space_units`, `keymap` in that order, each with its field's value |
| `Session.KeptMembers` | src/hedgedoc/hedgedoc.service.ts:129 | the filter keeps exactly the entries whose value is non-empty |
| `Session.CookieHeader` | src/hedgedoc/hedgedoc.service.ts:128-131 | the header is empty exactly when every cookie value is empty |
| `Session.CookieHeaderRoundTrip` | src/hedgedoc/hedgedoc.service.ts:128-131 | reading the `Cookie` header back gives exactly the entries with non-empty values, in field order, when no key holds `=` and nothing holds `; ` |
| `Session.SessionHeader` | src/hedgedoc/hedgedoc.service.ts:56-62 | a fetched session's header is `loginstate=true; indent_type=space; space_units=4; keymap=vim`, preceded by `connect.sid=<id>; ` only when the id is non-empty |
| `Session.SocketUrl` | src/hedgedoc/hedgedoc.service.ts:114 | the socket address starts with `wss://<server>/socket.io/?noteId=<noteId>` and ends with `&EIO=3&transport=websocket` |
| `Connection.SnapshotOf` | src/hedgedoc/hedgedoc.service.ts:202-207 | a snapshot is read exactly when the argument list's first element is an object with a string `str` and a numeric `revision`, and it carries exactly those |
| `Connection.HandleOpenPacket` | src/hedgedoc/hedgedoc.service.ts:169-188 | on an open socket an open packet sends `2probe` then the join frame; it sends only `2probe` when the packet is `null`, and nothing when it does not parse; those two cases reject a pending call with a handshake failure, otherwise the outcome is unchanged; the keepalive is started, with the `pingInterval` value, exactly for an object packet whose `pingInterval` is truthy; it never sends an edit frame or touches the flag |
| `Connection.HandleEvent` | src/hedgedoc/hedgedoc.service.ts:189-244 | `(null, null)` changes nothing; `error` closes and rejects a pending call and changes nothing else; the first `doc` with a snapshot sets the flag, sends the edit sequence and schedules the close; with the flag set a `doc` changes nothing; a truthy `doc` payload without a readable snapshot only sets the flag and sends nothing; any other event changes nothing |
| `Connection.HandleMessage` | src/hedgedoc/hedgedoc.service.ts:156-246 | the deadline check comes first: it closes, rejects a pending call with a timeout and changes nothing else; `40` changes nothing; `0` is exactly `HandleOpenPacket` on the rest of the frame; other frames are their decoded event; the log only grows, not at all once closed; the flag is never cleared |
| `Connection.LaterDocLeavesLog` | src/hedgedoc/hedgedoc.service.ts:200-201 | once `operationSent` is set, any later `doc` frame, on time or late, adds nothing to the log |
| `Connection.Step` | src/hedgedoc/hedgedoc.service.ts:145-154 | every event keeps the log append-only and frozen once closed, never clears the flag, never changes a settled outcome, and settles only by rejecting unless the close was scheduled; opening sends `40`; a socket error rejects a pending call and changes nothing else; the grace timer closes, clears the scheduled close and resolves a pending call, and changes nothing else |
| `Connection.RunKeepsOneEditSequence` | src/hedgedoc/hedgedoc.service.ts:143-201 | along any sequence of events the log holds no edit frame before the flag is set, and at most one complete edit sequence |
| `Connection.AtMostOneOperationSequence` | src/hedgedoc/hedgedoc.service.ts:288-346 | from a fresh connection, any event sequence sends at most one edit sequence: at most two operations for override, at most one for append |
| `Connection.LaterDocsAddNothing` | src/hedgedoc/hedgedoc.service.ts:345-346 | from a state with the flag set, no sequence of events adds an edit frame, and the flag stays set |
| `Connection.ClosedSendsNothing` | src/hedgedoc/hedgedoc.service.ts:240-243 | after the socket is closed no event sends a frame and it stays closed |
| `Connection.SettledOnce` | src/hedgedoc/hedgedoc.service.ts:134 | once the call is resolved or rejected, no later event changes its outcome |
| `Connection.DeadlineMissedSendsNothing` | src/hedgedoc/hedgedoc.service.ts:160-165 | if every message arrives after 15000 ms, no edit frame or operation is sent and the flag stays clear; after any message the socket is closed and the call has failed by timeout or socket error |
| `Connection.NoTimelyDocSendsNothing` | src/hedgedoc/hedgedoc.service.ts:160-201 | along any events without an on-time `doc`, the flag stays clear and no edit frame or operation is sent |
| `Connection.SuccessfulCall` | src/hedgedoc/hedgedoc.service.ts:150-243 | open, open packet, `doc`, grace timer: the log is `40`, `2probe`, join, then the edit sequence; the socket is closed and the call resolved |
| `Connection.ErrorBeforeDoc` | src/hedgedoc/hedgedoc.service.ts:193-198 | an `error` event before the snapshot closes and rejects with the server's payload; a later `doc` sends nothing and does not change the outcome |
| `Connection.Client.constructor` | src/hedgedoc/hedgedoc.service.ts:141-143 | a new connection has an empty log, is open, has the flag clear and the call pending |
| `Connection.Client.Send` | src/hedgedoc/hedgedoc.service.ts:207-237 | a frame sent on an open socket is appended to the log; on a closed socket it is dropped; nothing else changes |
| `Connection.Client.SettleWith` | src/hedgedoc/hedgedoc.service.ts:134-243 | the first settlement fixes the outcome; later ones change nothing |
| `Connection.Client.OnOpen` | src/hedgedoc/hedgedoc.service.ts:150-154 | the open handler's new state is `Step` of the old state on the open event (sends `40`) |
| `Connection.Client.OnError` | src/hedgedoc/hedgedoc.service.ts:145-148 | the error handler's new state is `Step` of the old state on a socket error (rejects if pending) |
| `Connection.Client.OnMessage` | src/hedgedoc/hedgedoc.service.ts:156-370 | (override at :156-246, append at :301-370) the message handler's new state, fields and log, is exactly `Step` of the old state on that message |
| `Connection.Client.OnGraceElapsed` | src/hedgedoc/hedgedoc.service.ts:364-367 | the grace timer closes the socket and resolves the call if it is still pending |
| `Connection.Client.SendEdits` | src/hedgedoc/hedgedoc.service.ts:207-237 | the four or one `ws.send` calls extend the log by exactly the edit sequence, or not at all on a closed socket |

## Left out

- Network I/O: `fetch`, the `ws` socket, its `readyState` and its close event. The socket is a log of sent frames plus a `closed` flag. As `ws` does, a frame given to a closed socket is dropped.
- `closed` tracks only the client's own `ws.close()` calls. After an `'error'` event `ws` closes the socket by itself; the model does not, so it still logs frames sent in reply to later messages.
- `Set-Cookie` splitting and `tough-cookie` parsing (`hedgedoc.service.ts:38-51`): the jar is an input sequence of (key, value) pairs.
- Caller-supplied cookies are rendered in the declared field order; a caller object with another key order would be rendered in its own order.
- `JSON.parse` and `JSON.stringify` are not modelled as text. Parsing is a parameter. Outgoing frames are a datatype, not their JSON text.
- The join frame is built by string interpolation, so a note id holding `"` or `\` would make malformed JSON. The model keeps the note id inside a `Join` frame and does not render it.
- JSON numbers are integers in `JsValue`. Fractions, `NaN` and `Infinity` are not modelled.
- String lengths are counted in characters; JavaScript counts UTF-16 code units. The two agree on the Basic Multilingual Plane.
- `Connection.SnapshotOf`: a `doc` payload whose first element is not an object with a string `str` and a numeric `revision` counts as malformed. The handler then sets the flag and sends nothing. For a missing `str` this is the source's `TypeError`. JavaScript's coercions for other shapes are not modelled, such as an array `str` or a missing `revision` giving `NaN`.
- The 100 ms pause between the delete and the insert (`hedgedoc.service.ts:225`): the override frames go out together. An event arriving during the pause is not interleaved with them.
- The 1 s close-then-resolve timer is the `GraceElapsed` event, which can occur only once the close is scheduled.
- The keepalive loop `sendPing` (`hedgedoc.service.ts:84-107`) is a concurrent periodic task. The model records only the values it is started with.
- Promise races beyond settle-once are left out. The outcome is a field that the first settlement fixes.
- Logging with `console.log` and `console.error`.
- `hedgedoc.controller.ts` only maps the result to `{success, slug, error}` and always calls `overrideNote`. The content CRUD service, the modules, DTOs and entities, and the application bootstrap are plumbing and are not modelled.
