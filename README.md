# Whiteboard client: turn gating and stroke capture

This project models the client side of a single-room collaborative
whiteboard where one participant at a time may draw. The client caches the
drawer the coordinator last announced (`turn-update`). It derives "is it my
turn" from that cached id and its own connection id. It gates local stroke
capture on that flag and emits its requests (`join-room`, `start-drawing`,
`drawing`, `finish-drawing`, `clear-canvas`, `pass-turn`) on one shared
socket.

Modules:

- `Protocol` (`protocol.dfy`): the emitted `Event`s and the shared `Socket`.
  The socket holds the connection id and the stream of emitted events. The
  module also states what a well-bracketed stroke stream is (`Bracketed`,
  `StrokeOpen`) and proves the append rules the handlers rely on.
- `Whiteboard` (`whiteboard.dfy`): the drawing component as a class `Board`.
  It holds the `isDrawing` flag and an abstract trace of the canvas calls.
  Its handlers are mouse-down, mouse-move, mouse-up/leave and the four
  relayed `server-*` events. Its invariant ties `isDrawing` to the emitted
  stream: `isDrawing` is true exactly when the last stroke marker emitted
  was a start, and the stream is well bracketed.
- `TurnClient` (`turn_client.dfy`): the application shell as a class `App`.
  It holds the cached drawer, the tool, the user colour and the line width,
  and it owns the socket and the board. It has the pure derivations
  `IsMyTurn` and `ActiveColor` and one method per socket listener or button
  handler.
- `Session` (`session.dfy`): a pure reference model of one mounted client.
  It has a `State`, the `Input`s the browser and the channel deliver, and
  `Step`/`Run`. It proves the turn-gating and stroke-bracketing properties
  over whole runs. `Dispatch` routes each input to the component handler
  registered for it, and its contract proves that the classes implement
  `Step`.

Each handler is modelled as atomic: a state update takes effect before the
next input is handled.

## Model

| member | source | states |
|---|---|---|
| `TurnClient.IsMyTurn` | src/App.js:15-16 | my turn holds iff a connection id is present and equals the cached drawer; a null drawer never gives my turn |
| `TurnClient.ActiveColor` | src/App.js:18 | the pencil draws in the user's colour, any other tool in `#FFFFFF`, and no other colour is produced |
| `TurnClient.App.constructor` | src/App.js:11-15 | initial state: colour `#000000`, tool `pencil`, width 5, no cached drawer, nothing emitted, not drawing |
| `TurnClient.App.OnConnect` | src/App.js:22-25 | appends exactly one `join-room` for `"main-room"` and keeps the stroke invariant |
| `TurnClient.App.OnDisconnect` | src/App.js:26-29 | sets the cached drawer to null and nothing else, so it is not my turn afterwards |
| `TurnClient.App.OnTurnUpdate` | src/App.js:30-33 | overwrites the cached drawer with the announced value and nothing else; my turn afterwards iff the notice names my id |
| `TurnClient.App.HandleClearCanvas` | src/App.js:42-45 | appends exactly one `clear-canvas` for the room, whatever the turn |
| `TurnClient.App.HandlePassTurn` | src/App.js:47-50 | appends exactly one `pass-turn` for the room and leaves the cached drawer alone |
| `TurnClient.App.SetUserColor` | src/App.js:11 | the user colour becomes the chosen one |
| `TurnClient.App.SetTool` | src/App.js:12 | the tool becomes the chosen one, and the drawing colour follows it |
| `TurnClient.App.SetLineWidth` | src/App.js:13 | the line width becomes the chosen one |
| `Whiteboard.Board.constructor` | src/components/Whiteboard.js:8 | a new board is not drawing, has made no canvas calls and satisfies the stroke invariant |
| `Whiteboard.Board.StartDrawing` | src/components/Whiteboard.js:77-94 | off turn: nothing changes; on turn: `isDrawing` becomes true, a path is opened and one `start-drawing` with position, room, colour and width is appended |
| `Whiteboard.Board.Draw` | src/components/Whiteboard.js:108-124 | one `drawing` with position, room, colour and width is appended only when drawing and on turn; otherwise nothing changes |
| `Whiteboard.Board.FinishDrawing` | src/components/Whiteboard.js:96-106 | not drawing: nothing changes; drawing: `isDrawing` becomes false, the path is closed and one `finish-drawing` for the room is appended, whatever the turn |
| `Whiteboard.Board.OnStartDrawing` | src/components/Whiteboard.js:34-40 | only the canvas changes: the sender's style is applied and a path is begun at the point |
| `Whiteboard.Board.OnDrawing` | src/components/Whiteboard.js:42-47 | only the canvas changes: the sender's style is applied and a segment to the point is stroked |
| `Whiteboard.Board.OnFinishDrawing` | src/components/Whiteboard.js:49-52 | only the canvas changes: the path is closed |
| `Whiteboard.Board.OnClearCanvas` | src/components/Whiteboard.js:54-61 | only the canvas changes: the whole 800 by 600 area is cleared |
| `Protocol.StrokeOpenIff` | src/components/Whiteboard.js:84-102 | the last stroke marker is a start iff some `start-drawing` is not followed by any `finish-drawing` |
| `Protocol.AppendKeepsBracketed` | src/components/Whiteboard.js:99-117 | appending an event keeps the stream bracketed when a `drawing` or `finish-drawing` is only appended inside an open stroke; a start opens the stroke, a finish closes it, any other event leaves it as it was |
| `Session.Init` | src/App.js:11-15 | the initial client is not drawing, has emitted nothing, is not the drawer and satisfies the stroke invariant |
| `Session.Output` | src/components/Whiteboard.js:77-124 | each input emits at most one event; `start-drawing` and `drawing` only on my turn; `drawing` and `finish-drawing` only inside an open stroke |
| `Session.StepKeepsInv` | src/components/Whiteboard.js:84-105 | every input preserves "`isDrawing` iff the last emitted stroke marker is a start, and the stream is bracketed" |
| `Session.RunKeepsInv` | src/components/Whiteboard.js:84-105 | the stroke invariant holds after any sequence of inputs |
| `Session.ReachableInv` | src/components/Whiteboard.js:8 | every client state reachable from a fresh mount emits well-bracketed strokes |
| `Session.RunExtends` | src/App.js:24-49 | the emitted stream only ever grows by appending |
| `Session.NoInkWithoutGrant` | src/components/Whiteboard.js:79-110 | a client that is not the drawer emits no `start-drawing` or `drawing`, and stays not the drawer, until it reconnects or a `turn-update` names its own id; turn notices naming other clients, disconnects and every other input keep it off |
| `Session.TurnUpdateIdempotent` | src/App.js:30-33 | a `turn-update` sets the cached drawer and nothing else; applying it twice equals applying it once; my turn afterwards iff it names my id |
| `Session.DisconnectEndsTurn` | src/App.js:26-29 | after a disconnect the cached drawer is null, it is not my turn and nothing is emitted |
| `Session.ConnectJoins` | src/App.js:22-25 | connecting emits exactly `join-room("main-room")` and leaves the cached drawer alone |
| `Session.RoomRequests` | src/App.js:42-50 | clear and pass-turn each append one request for `"main-room"`, whatever the turn, and change no local state |
| `Session.MouseDownGated` | src/components/Whiteboard.js:77-94 | mouse-down off turn is a no-op; on turn it starts drawing and emits `start-drawing` with position, room, active colour and width |
| `Session.MouseMoveGated` | src/components/Whiteboard.js:108-124 | mouse-move is a no-op unless drawing and on turn, and then emits one `drawing` |
| `Session.ReleaseClosesStroke` | src/components/Whiteboard.js:96-106 | mouse-up or mouse-leave is a no-op when not drawing; otherwise it closes the path and emits `finish-drawing` even after the turn was lost |
| `Session.RemoteOnlyPaints` | src/components/Whiteboard.js:34-61 | relayed `server-*` events change only the canvas, never `isDrawing`, the turn state or the emitted stream |
| `Session.ColorFollowsTool` | src/App.js:18 | a stroke started with the pencil carries the user's colour; with any other tool it carries `#FFFFFF` |
| `Session.StrokeOnTurn` | src/components/Whiteboard.js:77-124 | press, drag and release on my turn emit exactly `start-drawing`, `drawing` and `finish-drawing` for the room in the active colour and width, and leave me not drawing and still the drawer |
| `Session.Dispatch` | src/App.js:20-33 | delivering an input to its registered handler keeps the component invariant and changes the client exactly as `Step` says |
| `Session.DispatchChannel` | src/App.js:22-33 | the connect, disconnect and turn-update listeners, with the socket's own id change, move the client exactly as `Step` says and keep the component invariant |
| `Session.DispatchToolbar` | src/App.js:60-68 | the clear and pass-turn handlers and the tool, colour and width setters move the client exactly as `Step` says |
| `Session.DispatchMouse` | src/components/Whiteboard.js:132-135 | mouse-down, mouse-move, mouse-up and mouse-leave, run with the props of the current render, move the client exactly as `Step` says |
| `Session.DispatchRemote` | src/components/Whiteboard.js:63-66 | the four `server-*` listeners move the client exactly as `Step` says |
| `Session.Update` | src/App.js:22-50 | the local effect of one input never touches the emitted stream; only mouse handlers move `isDrawing`, only connect, disconnect and turn notices move the id and the cached drawer, only the setters move the style, and the canvas trace only grows |
| `Session.Step` | src/components/Whiteboard.js:77-124 | one handler run is `Update` plus at most one appended event, taken from `Output`; nothing already emitted is changed |
| `TurnClient.RenderProps` | src/App.js:72-77 | the props handed to the drawing surface carry the room `"main-room"`, the width, the user colour with the pencil and `#FFFFFF` otherwise, and a turn flag that holds iff my id is present and equals the cached drawer |
| `TurnClient.App.Props` | src/App.js:72-77 | the props App renders are `RenderProps` of its current tool, colour, width, socket id and cached drawer, so the turn flag the board sees holds iff my id equals the cached drawer |
| `Protocol.Socket.constructor` | src/socket.js:8-10 | the socket is created unconnected (`autoConnect: false`): no id and nothing emitted |
| `Protocol.Socket.Connected` | src/socket.js:8-10 | on connect socket.io-client assigns the id and the emitted stream is untouched |
| `Protocol.Socket.Disconnected` | src/socket.js:8-10 | on disconnect socket.io-client clears the id and the emitted stream is untouched |
| `Protocol.Socket.Emit` | src/socket.js:8-10 | `emit` appends exactly the given event and leaves the id alone |

## Notes on the code

- Turn loss does not finalize an in-progress stroke by itself. When the
  turn passes mid-stroke, `isDrawing` stays true until the next mouse-up or
  mouse-leave, which then closes the path and emits `finish-drawing`
  (`Session.ReleaseClosesStroke`). Points in between are not emitted
  (`Session.MouseMoveGated`).
- Mouse-down while a stroke is already open emits a second `start-drawing`
  with no `finish-drawing` before it. The bracketing invariant allows this:
  a later point or finish still follows a start with no finish in between.
- A stroke still open when the connection drops outlives the reconnect.
  `isDrawing` is not reset by a disconnect. If the client reconnects under a
  new id and is named drawer, a mouse-move emits `drawing` under the new id
  although its `start-drawing` went out under the old one. `Bracketed`
  holds over the client's whole emitted stream, not per connection.
- The connection id is the socket's. socket.io-client sets it when the
  channel connects and clears it when the channel drops. `Dispatch` applies
  that change (`Socket.Connected`, `Socket.Disconnected`) before it runs the
  App's listener.

## Left out

- Canvas rendering is recorded only as a trace of calls, with no geometry.
  The canvas setup (src/components/Whiteboard.js:11-22) is not modelled.
  Neither is the effect that copies the colour and width into the context
  when they change (src/components/Whiteboard.js:25-30).
- `Whiteboard.Board.OnClearCanvas`: the `canvas && context` guard
  (src/components/Whiteboard.js:58) is taken as always true, since the
  canvas is mounted before any socket event is handled.
- Listener registration and cleanup (src/App.js:20-21, 34-40;
  src/components/Whiteboard.js:63-73) are plumbing. Asynchronous `setState`,
  stale closures and socket delivery concurrency are not modelled: each
  handler is atomic.
- The line width is an integer. The Toolbar stores the slider's text value
  after the first change (src/components/Toolbar.js:53). The model treats it
  as the number it denotes.
- Console logging is not modelled.
- The Toolbar and TurnStatusBar components are not part of this model.
  The Toolbar disables Clear, Pencil, Eraser, the colour picker and the width
  slider off turn (src/components/Toolbar.js:21, 28, 42, 54, 63) and shows
  Pass Turn only on turn (src/components/Toolbar.js:68-75). `Session.Input`
  delivers those inputs at any time, a superset of what the real app lets
  through, so the safety lemmas also cover the real app.
- The transport setup in src/socket.js (server URL, `autoConnect: false`)
  is not part of this model.
- The server-side turn authority and stroke relay are not in this
  repository. Join assignment, the pass-turn tie-break, dropping points from
  non-holders and the "drawer is a room member" invariant are therefore not
  modelled.
