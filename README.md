# Collaborative canvas server: the drawing-state engine

The server of this collaborative whiteboard keeps one global drawing state. That state has four parts:

- `operationHistory`: the committed strokes, oldest first.
- `redoStack`: the undone strokes, newest undo at the end.
- `activeUsers`: the connected users.
- `activeStrokes`: each connection's stroke in progress.

The server runs one handler per socket message:

- connection
- `start-stroke`, `draw-stroke` and `end-stroke`
- `request-undo` and `request-redo`
- `cursor-move`
- `disconnect`

Each handler reads and changes that state and emits events. An event goes to one of three audiences:

- the sender only (`socket.emit`);
- every connection (`io.emit`);
- all connections but the sender (`socket.broadcast.emit`).

The model has four modules:

- `Canvas` (canvas.dfy): the values. These are points, stroke widths (a number, or the slider's string value), strokes, user records, the cursor payload, the outbound events and their recipients (`Only`, `Everyone`, `AllExcept`).
- `Engine` (engine.dfy): the state as a `Board` value. It has one function per handler, from a board (plus the connection id and the message payload) to a `Step` (the new board and the list of emitted events). It also has the invariant `Valid`, proved to be kept by every handler, and the dispatcher `Apply` with its fold `Run` over a sequence of inbound messages.
- `Properties` (properties.dfy): what the handlers promise together. This covers:
  - undo/redo as a cursor over a fixed timeline;
  - redo invalidation on commit;
  - that the history only changes at its tail;
  - stroke accumulation under interleaving with other connections;
  - a stroke discarded on disconnect;
  - user-list bookkeeping;
  - the cursor relay finding.
- `Server` (server.dfy): the same state as the object `CanvasServer`. Its fields are the four state variables, plus `userOrder`. Each of its methods updates the fields in place. Each method is proved to produce exactly the new state and the event list given by the `Engine` function. It also has short client sessions against the object.

The cursor relay in `Engine.Apply` and in `CanvasServer.CursorMove` is the corrected one, which names the sender. The source lets a client-sent `id` replace the sender's id (see "## Findings"). That behaviour is modelled separately, as `Engine.CursorMovedAsWritten`.

`userOrder` is the insertion order of the keys of `activeUsers`. The user list the server broadcasts is `Object.values(activeUsers)`, and that follows the insertion order of the string keys. Re-assigning an existing key keeps its place, and `delete` removes it.

## Model

| member | source | states |
|---|---|---|
| Engine.InitialValid | server/server.js:26-32 | The start state (everything empty) satisfies the invariant. |
| Engine.UserListAt | server/server.js:62 | When every listed key is present, the user list has one record per key, and the i-th record is the one stored under the i-th key. |
| Engine.RemoveIdFacts | server/server.js:154 | Deleting a user's key leaves in the key order exactly the other keys. It keeps the order duplicate-free, and it changes nothing if the key was absent. |
| Engine.Connect | server/server.js:49-65 | After a connection, its record `{id, color}` is stored under its id. The other users' records, the history, the redo stack and the pending strokes are untouched. The new connection receives the history and then the user list. Everyone else receives the user list. |
| Engine.StartStroke | server/server.js:70-82 | The sender's pending stroke becomes a one-point stroke with the given colour, width and mode, whatever was pending before. The other connections' pending strokes, the history, the redo stack and the users are unchanged, and the other connections are told about the new stroke. |
| Engine.DrawStroke | server/server.js:85-94 | With a pending stroke, its path grows by exactly the point and only that point is relayed to the others. Without one, the board is unchanged and nothing is emitted. Other connections' pending strokes are never touched. |
| Engine.EndStroke | server/server.js:97-108 | With a pending stroke, it is committed at the tail of the history and the redo stack is emptied. Afterwards the sender has no pending stroke, the other pending strokes are as before, and no event is emitted. Without one, nothing changes. |
| Engine.Undo | server/server.js:113-124 | On a non-empty history, the old history is the new history plus the removed stroke, and that stroke is pushed on the redo stack. Everyone receives the shortened history. On an empty history nothing changes and nothing is sent. |
| Engine.Redo | server/server.js:127-137 | On a non-empty redo stack, its top is appended to the history and removed from the stack. Everyone receives the lengthened history. On an empty stack nothing changes and nothing is sent. |
| Engine.CursorMovedAsWritten | server/server.js:143-146 | The relayed payload is `{id: socket.id, ...data}`. It carries the client's coordinates. Its id is `socket.id` when the payload has no `id` field, and the payload's `id` otherwise. |
| Engine.CursorMove | server/server.js:141-147 | The cursor relay changes nothing. It sends one event, to everyone but the sender, naming the sender and the client's coordinates. |
| Engine.Disconnect | server/server.js:151-162 | The user and any pending stroke of that connection are dropped. The other users and pending strokes, the history and the redo stack are untouched. Everyone is sent the new user list and then the departed id. |
| Engine.ConnectKeepsValid | server/server.js:56 | A connection keeps the invariant: a duplicate-free key order matching the user keys, each record and pending stroke filed under its owner, and no empty path. |
| Engine.DisconnectKeepsValid | server/server.js:154-155 | A disconnect keeps the invariant. |
| Engine.StrokeHandlersKeepValid | server/server.js:70-108 | start-stroke, draw-stroke and end-stroke keep the invariant. |
| Engine.UndoRedoKeepValid | server/server.js:113-137 | Undo and redo keep the invariant. |
| Engine.ApplyKeepsValid | server/server.js:49-162 | Every handler keeps the invariant. |
| Engine.RunKeepsValid | server/server.js:49-162 | Every sequence of messages, from any connections, keeps the invariant. |
| Properties.RunAppend | server/server.js:49-162 | Handling two message sequences one after the other is handling their concatenation, and the events are emitted in order. |
| Properties.UndoThenRedo | server/server.js:113-137 | Undo on a non-empty history followed by redo restores the whole state. The redo re-broadcasts the original history. |
| Properties.RedoThenUndo | server/server.js:113-137 | Redo on a non-empty redo stack followed by undo restores the whole state. |
| Properties.UndoRedoKeepTotal | server/server.js:116-118 | Undo and redo keep the combined size of history and redo stack, because they only move strokes between the two. |
| Properties.UndoKeepsTimeline | server/server.js:113-124 | Undo keeps the timeline (history followed by the reversed redo stack): it only moves the cursor back. |
| Properties.RedoKeepsTimeline | server/server.js:127-137 | Redo keeps the timeline: it only moves the cursor forward. |
| Properties.CommitResetsTimeline | server/server.js:102-104 | A commit replaces the timeline by the history plus the committed stroke, so every undone stroke is lost for good. |
| Properties.NonCommitKeepsTimeline | server/server.js:49-162 | Every message except end-stroke keeps the timeline. |
| Properties.RunWithoutCommitKeepsTimeline | server/server.js:49-162 | Any message sequence without an end-stroke keeps the timeline, whoever sends it. |
| Properties.CommitInvalidatesRedo | server/server.js:103-104 | After a commit the redo stack is empty and a redo right after it is a no-op. |
| Properties.RunWithoutUndoKeepsRedoEmpty | server/server.js:97-137 | An empty redo stack stays empty under any messages without an undo, from any connections. |
| Properties.RedoAfterCommitIsNoOp | server/server.js:102-137 | After a commit and any messages without an undo, from any connections, the next request-redo changes nothing and emits nothing. |
| Properties.HistoryChangesAtTail | server/server.js:97-137 | One message changes the history in one of three ways: not at all; by one stroke appended at the tail (the sender's pending stroke on end-stroke, or the redo top on redo); or by dropping the last stroke (undo). Strokes below the tail are never rewritten. |
| Properties.RunWithoutUndoExtendsHistory | server/server.js:97-137 | Without undo, whatever else runs, the old history stays a prefix of the new one. |
| Properties.OtherSenderKeepsPending | server/server.js:70-162 | A message from one connection never creates, changes or removes another connection's pending stroke. |
| Properties.StepAccumulates | server/server.js:70-162 | One message that is not the author's start-stroke, end-stroke or disconnect extends the author's pending path by the point drawn, if any, and keeps its colour, width and mode. |
| Properties.PendingAccumulates | server/server.js:85-94 | While the author neither starts, ends nor disconnects, the pending stroke stays. This holds whatever cursor moves, undos and redos it sends and whatever other connections send. Its path grows by exactly the author's drawn points, in order. |
| Properties.StrokeCommitsDrawnPath | server/server.js:70-108 | A start, then any messages with no start, end or disconnect from the author (such as the client's draw and cursor-move pairs), then an end: this commits at the tail of the history a stroke with the start's attributes and path `[p0]` plus the author's points, and leaves the redo stack empty. |
| Properties.DrawsExtendPath | server/server.js:85-94 | Drawing points ps on a pending stroke appends ps to its path and changes nothing else. Exactly one stroke-drawn per point is relayed, in order. |
| Properties.AfterDraws | server/server.js:70-94 | After start(p0) and draw(p1..pn), the author's pending stroke is `[p0, ..., pn]` and nothing else has changed. The events so far are stroke-started followed by the stroke-drawn events. |
| Properties.SoloStrokeCommits | server/server.js:70-108 | start(p0), draw(p1..pn), end does two things. It appends `[p0, ..., pn]` with the start's attributes to the history, empties the redo stack and drops the pending entry, leaving the users and their broadcast order as they were. It emits exactly the stroke-started event and one stroke-drawn per point, all to the other connections. |
| Properties.DisconnectDiscardsStroke | server/server.js:151-155 | A start, then draws, then a disconnect leaves history and redo stack as they were before the start. The stroke is never committed, and the user is gone. |
| Properties.EndAfterDisconnectIsNoOp | server/server.js:97-155 | After a disconnect, an end-stroke for that id does nothing and emits nothing. socket.io runs no handler of a closed socket, so this concerns an id reused later: the model keeps no stroke behind for it. |
| Properties.LastStartWins | server/server.js:72-79 | A second start-stroke without an end silently replaces the first pending stroke. |
| Properties.UserListIsMembership | server/server.js:56-65 | Under the invariant, a record is in the broadcast user list exactly when it is the record stored under its id. |
| Properties.UsersHaveDistinctIds | server/server.js:56-65 | Under the invariant, no connection appears twice in the user list. |
| Properties.ConnectAppendsUser | server/server.js:56-62 | A new connection's record is appended at the end of the user list. |
| Properties.ReconnectKeepsPosition | server/server.js:56-62 | Re-recording a connected id keeps its position in the user list and replaces only its record. This is how the assignment at line 56 acts on an existing key; socket.io's generated ids are unique, so a live server does not take this path. |
| Properties.UserListRemoveId | server/server.js:154-158 | Deleting a key lists the old user list's records without that id's, the rest in their old order. |
| Properties.DisconnectRemovesUser | server/server.js:154-158 | After a disconnect, the user list is the previous one with that id's record taken out and the others in their old order. |
| Properties.ConnectThenDisconnect | server/server.js:56-155 | A connection that joins and leaves without drawing leaves the state exactly as it was. |
| Properties.CursorSpoofAsWritten | server/server.js:143-146 | As written, a payload `{id: 'u2', x, y}` from u1 is relayed as u2's cursor. The corrected relay names u1. |
| Properties.CursorAgreesOnHonestPayload | client/websocket.js:58 | For the `{x, y}` payload the shipped client sends, the corrected relay and the one as written agree. |
| Properties.Scenario | server/server.js:49-137 | Two users connect and u1 draws (0,0)-(1,1) and ends, so the history is that one stroke. u2's undo empties it and broadcasts `[]`. u2's redo restores it and broadcasts it. |
| Server.CanvasServer.constructor | server/server.js:26-32 | A fresh server has empty history, redo stack, users and pending strokes, and satisfies the invariant. |
| Server.CanvasServer.Connect | server/server.js:49-65 | The in-place update leaves exactly the state of `Engine.Connect`, keeps the invariant and returns its events. |
| Server.CanvasServer.StartStroke | server/server.js:70-82 | The in-place update leaves exactly the state of `Engine.StartStroke`, keeps the invariant and returns its events. |
| Server.CanvasServer.DrawStroke | server/server.js:85-94 | The in-place push onto the pending path leaves exactly the state of `Engine.DrawStroke` and returns its events. |
| Server.CanvasServer.EndStroke | server/server.js:97-108 | The in-place commit leaves exactly the state of `Engine.EndStroke` and keeps the invariant. |
| Server.CanvasServer.RequestUndo | server/server.js:113-124 | The pop and push leave exactly the state of `Engine.Undo` and return its broadcast. |
| Server.CanvasServer.RequestRedo | server/server.js:127-137 | The pop and push leave exactly the state of `Engine.Redo` and return its broadcast. |
| Server.CanvasServer.CursorMove | server/server.js:141-147 | The relay changes no field and returns the one event of `Engine.CursorMove`. |
| Server.CanvasServer.Disconnect | server/server.js:151-162 | The two deletes leave exactly the state of `Engine.Disconnect`, keep the invariant and return its events. |
| Server.TwoUsersJoin | server/server.js:49-65 | Two connections joining a fresh server are both recorded, and nothing is drawn. |
| Server.DrawSegment | server/server.js:70-108 | On the object, start, draw and end commit the two-point segment at the tail of the history and empty the redo stack. |
| Server.UndoRedoSession | server/server.js:70-137 | On the object, u1 commits a stroke and u2 undoes it and then redoes it. This broadcasts `[]` and then the one-stroke history, and the history and redo stack end up as after the commit. |

## Left out

- The HTTP side (Express static files, the `/` route, `server.listen` on `PORT`): it serves files and holds no drawing state.
- The socket.io transport: delivery, serialisation and the connection lifecycle are not modelled. Each handler returns the list of events it emits, each with its recipients. A handler runs once per message, one at a time. `Everyone` after a disconnect means the connections still open.
- `console.log` calls: they have no effect on the state.
- The user colour: it comes from `Math.random()` (an HSL string) and is a parameter of `Connect`.
- Malformed payloads: the model's payload fields are typed and always present. It does not model a message with missing fields (JavaScript would store `undefined`). Nor does it model a null payload, which throws a `TypeError` in `start-stroke`, and in `draw-stroke` when a stroke is pending. `cursor-move` accepts it, because spreading `null` adds no fields.
- Extra payload fields: `start-stroke` and `draw-stroke` read named fields only, and extra fields copied by the `...data` spread of `cursor-move` are not modelled. Only a client-supplied `id` is, because it overrides the sender id.
- The stroke's `type: 'stroke'` tag: it is constant.
- Socket ids that look like array indices: `Object.values` would list such keys first, in numeric order. The model uses insertion order for every key, which is right for socket.io's generated ids.
- Aliasing of stroke objects: the path `push` is modelled as a value update. After end-stroke no alias of a committed stroke remains, because its `activeStrokes` entry is deleted. The stroke-started payload is the stroke as it is at emission.
- Rooms or several canvases: the server keeps one global state and has no rooms, so none are modelled.
- The client files and the client's `request-history-redraw` message: the server has no handler for that message.
- Engine.CursorMove: relays the sender's id even when the payload carries an `id` field. The source relays the client's `id` instead (see "## Findings").
- Server.CanvasServer.CursorMove: the same corrected relay as `Engine.CursorMove`.
- Server.TwoUsersJoin: states only that both users are recorded, not the exact user list; `Properties.ConnectAppendsUser` states the list.

## Findings

| source | as written | input that shows it | evidently intended | confidence | as-written member | corrected member |
|---|---|---|---|---|---|---|
| server/server.js:143-146 | The cursor-moved payload is `{id: socket.id, ...data}`, so an `id` field in the client's payload replaces the sender's id. | u1 sends `cursor-move` with `{id: 'u2', x: 0, y: 0}`; the others are told u2's cursor moved. | The relayed id identifies the user whose cursor moved (the comment on line 144), i.e. the sender. | medium, not executed | Engine.CursorMovedAsWritten, Properties.CursorSpoofAsWritten | Engine.CursorMove |
