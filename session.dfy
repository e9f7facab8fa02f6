/** One mounted client as a whole: the application shell and its drawing
    surface sharing one socket. A pure reference model (a state, the inputs
    the browser and the channel deliver, and one transition per input) states
    the turn-gating and stroke-bracketing properties over whole runs;
    `Dispatch` proves that the component handlers implement it. */
module Session {
  import opened Protocol
  import opened TurnClient
  import opened Whiteboard

  datatype State = State(
    id: Option<string>,          // connection id, None while disconnected
    active: Option<string>,      // last announced drawer
    userColor: string,
    tool: string,
    lineWidth: int,
    isDrawing: bool,
    emitted: seq<Event>,
    canvas: seq<CanvasOp>)

  /** Everything that can happen to a client, handled one at a time. */
  datatype Input =
    | Connect(newId: string)
    | Disconnect
    | TurnUpdate(holder: Option<string>)
    | ClearClicked
    | PassClicked
    | ToolChosen(tool: string)
    | ColorChosen(color: string)
    | WidthChosen(width: int)
    | MouseDown(x: int, y: int)
    | MouseMove(x: int, y: int)
    | MouseUp
    | MouseLeave
    | ServerStartDrawing(x: int, y: int, color: string, lineWidth: int)
    | ServerDrawing(x: int, y: int, color: string, lineWidth: int)
    | ServerFinishDrawing
    | ServerClearCanvas

  predicate IsRemote(i: Input) {
    i.ServerStartDrawing? || i.ServerDrawing? || i.ServerFinishDrawing? || i.ServerClearCanvas?
  }

  /** Inputs that can make the client with connection id `me` the drawer:
      a new connection, or a turn notice that names `me`. */
  predicate MayGrant(me: Option<string>, i: Input) {
    i.Connect? || (i.TurnUpdate? && me.Some? && i.holder == me)
  }

  /** A freshly mounted, not yet connected client. */
  function Init(): (s: State)
    ensures Inv(s) && !s.isDrawing && s.emitted == [] && !MyTurn(s)
  {
    State(None, None, "#000000", Pencil, 5, false, [], [])
  }

  /** `IsMyTurn` read off a state. */
  predicate MyTurn(s: State) {
    IsMyTurn(s.id, s.active)
  }

  function PropsOf(s: State): Props {
    RenderProps(s.tool, s.userColor, s.lineWidth, s.id, s.active)
  }

  /** The events a handler emits in state `s`: at most one; ink only on
      this client's turn; a point or a finish only inside an open stroke. */
  function Output(s: State, i: Input): (out: seq<Event>)
    ensures |out| <= 1
    ensures forall e | e in out :: IsPenEvent(e) ==> MyTurn(s)
    ensures forall e | e in out :: NeedsOpenStroke(e) ==> s.isDrawing
  {
    var p := PropsOf(s);
    match i
    case Connect(_) => [JoinRoom(RoomName)]
    case ClearClicked => [ClearCanvas(RoomName)]
    case PassClicked => [PassTurn(RoomName)]
    case MouseDown(x, y) =>
      if p.isMyTurn then [Event.StartDrawing(x, y, p.room, p.color, p.lineWidth)] else []
    case MouseMove(x, y) =>
      if s.isDrawing && p.isMyTurn then [Event.Drawing(x, y, p.room, p.color, p.lineWidth)] else []
    case MouseUp => if s.isDrawing then [Event.FinishDrawing(p.room)] else []
    case MouseLeave => if s.isDrawing then [Event.FinishDrawing(p.room)] else []
    case _ => []
  }

  /** The effect of one input on everything but the emitted stream. Only
      the mouse handlers move `isDrawing`, only the channel's connect,
      disconnect and turn notices move the turn state, and only the
      toolbar setters move the style. */
  function Update(s: State, i: Input): (r: State)
    ensures r.emitted == s.emitted
    ensures r.isDrawing != s.isDrawing ==> i.MouseDown? || i.MouseUp? || i.MouseLeave?
    ensures r.active != s.active ==> i.TurnUpdate? || i.Disconnect?
    ensures r.id != s.id ==> i.Connect? || i.Disconnect?
    ensures (r.tool, r.userColor, r.lineWidth) != (s.tool, s.userColor, s.lineWidth) ==>
      i.ToolChosen? || i.ColorChosen? || i.WidthChosen?
    ensures s.canvas <= r.canvas
  {
    match i
    case Connect(newId) => s.(id := Some(newId))
    case Disconnect => s.(id := None, active := None)
    case TurnUpdate(holder) => s.(active := holder)
    case ClearClicked => s
    case PassClicked => s
    case ToolChosen(t) => s.(tool := t)
    case ColorChosen(c) => s.(userColor := c)
    case WidthChosen(w) => s.(lineWidth := w)
    case MouseDown(x, y) =>
      if MyTurn(s) then s.(isDrawing := true, canvas := s.canvas + [BeginPath, MoveTo(x, y)]) else s
    case MouseMove(x, y) =>
      if s.isDrawing && MyTurn(s) then s.(canvas := s.canvas + [LineTo(x, y), Stroke]) else s
    case MouseUp =>
      if s.isDrawing then s.(isDrawing := false, canvas := s.canvas + [ClosePath]) else s
    case MouseLeave =>
      if s.isDrawing then s.(isDrawing := false, canvas := s.canvas + [ClosePath]) else s
    case ServerStartDrawing(x, y, c, w) =>
      s.(canvas := s.canvas + [SetStyle(c, w), BeginPath, MoveTo(x, y)])
    case ServerDrawing(x, y, c, w) =>
      s.(canvas := s.canvas + [SetStyle(c, w), LineTo(x, y), Stroke])
    case ServerFinishDrawing => s.(canvas := s.canvas + [ClosePath])
    case ServerClearCanvas => s.(canvas := s.canvas + [ClearRect(0, 0, CanvasWidth, CanvasHeight)])
  }

  /** One handler run: the local effect of `Update`, and at most one event
      appended to the stream, never anything taken away. */
  function Step(s: State, i: Input): (r: State)
    ensures r.(emitted := s.emitted) == Update(s, i)
    ensures s.emitted <= r.emitted && |r.emitted| <= |s.emitted| + 1
    ensures |r.emitted| == |s.emitted| + 1 ==> r.emitted[|s.emitted|] in Output(s, i)
  {
    Update(s, i).(emitted := s.emitted + Output(s, i))
  }

  function Run(s: State, ins: seq<Input>): State
    decreases |ins|
  {
    if ins == [] then s else Run(Step(s, ins[0]), ins[1..])
  }

  /** The stroke invariant: `isDrawing` is true exactly when the last
      stroke marker emitted was a start, and the emitted strokes are well
      bracketed. */
  ghost predicate Inv(s: State) {
    s.isDrawing == StrokeOpen(s.emitted) && Bracketed(s.emitted)
  }

  lemma StepKeepsInv(s: State, i: Input)
    requires Inv(s)
    ensures Inv(Step(s, i))
  {
    var out := Output(s, i);
    if out == [] {
      assert s.emitted + out == s.emitted;
    } else {
      assert out == [out[0]];
      AppendKeepsBracketed(s.emitted, out[0]);
    }
  }

  lemma {:induction false} RunKeepsInv(s: State, ins: seq<Input>)
    requires Inv(s)
    ensures Inv(Run(s, ins))
    decreases |ins|
  {
    if ins != [] {
      StepKeepsInv(s, ins[0]);
      RunKeepsInv(Step(s, ins[0]), ins[1..]);
    }
  }

  /** Every state a client can reach keeps its strokes bracketed. */
  lemma ReachableInv(ins: seq<Input>)
    ensures Inv(Run(Init(), ins))
  {
    RunKeepsInv(Init(), ins);
  }

  /** Run only ever appends to the emitted stream. */
  lemma {:induction false} RunExtends(s: State, ins: seq<Input>)
    ensures s.emitted <= Run(s, ins).emitted
    decreases |ins|
  {
    if ins != [] {
      RunExtends(Step(s, ins[0]), ins[1..]);
    }
  }

  /** A client that is not the drawer emits no ink, and stays not the
      drawer, until it connects anew or a turn notice names it, however
      often the turn moves among other clients. */
  lemma {:induction false} NoInkWithoutGrant(s: State, ins: seq<Input>)
    requires !MyTurn(s)
    requires forall k :: 0 <= k < |ins| ==> !MayGrant(s.id, ins[k])
    ensures !MyTurn(Run(s, ins))
    ensures s.emitted <= Run(s, ins).emitted
    ensures forall k :: |s.emitted| <= k < |Run(s, ins).emitted| ==> !IsPenEvent(Run(s, ins).emitted[k])
    decreases |ins|
  {
    if ins != [] {
      var s1 := Step(s, ins[0]);
      var out := Output(s, ins[0]);
      assert !MyTurn(s1);
      assert s1.id == s.id || s1.id.None?;
      assert forall k :: 0 <= k < |ins[1..]| ==> !MayGrant(s1.id, ins[1..][k]) by {
        forall k | 0 <= k < |ins[1..]| ensures !MayGrant(s1.id, ins[1..][k]) {
          assert ins[1..][k] == ins[k + 1];
          assert !MayGrant(s.id, ins[k + 1]);
        }
      }
      NoInkWithoutGrant(s1, ins[1..]);
      var r := Run(s, ins);
      forall k | |s.emitted| <= k < |r.emitted| ensures !IsPenEvent(r.emitted[k]) {
        if k < |s1.emitted| {
          assert r.emitted[k] == s1.emitted[k] == out[k - |s.emitted|];
          assert out[k - |s.emitted|] in out;
        }
      }
    }
  }

  /** A turn notice sets the cached drawer and nothing else, so hearing the
      same notice twice is the same as hearing it once; afterwards it is
      this client's turn exactly when the notice names this client. */
  lemma TurnUpdateIdempotent(s: State, holder: Option<string>)
    ensures Step(s, TurnUpdate(holder)) == s.(active := holder)
    ensures Step(Step(s, TurnUpdate(holder)), TurnUpdate(holder)) == Step(s, TurnUpdate(holder))
    ensures MyTurn(Step(s, TurnUpdate(holder))) <==> s.id.Some? && holder == s.id
  {
  }

  /** After a disconnect the cached drawer is null and it is nobody's turn here. */
  lemma DisconnectEndsTurn(s: State)
    ensures Step(s, Disconnect).active == None && !MyTurn(Step(s, Disconnect))
    ensures Step(s, Disconnect).emitted == s.emitted
  {
  }

  /** Connecting emits exactly one join request, for the shared room. */
  lemma ConnectJoins(s: State, newId: string)
    ensures Step(s, Connect(newId)).emitted == s.emitted + [JoinRoom("main-room")]
    ensures Step(s, Connect(newId)).id == Some(newId)
    ensures Step(s, Connect(newId)).active == s.active
  {
  }

  /** Clear and pass-turn each emit one room request, whatever the turn,
      and change no local state: in particular passing the turn leaves the
      cached drawer alone until the coordinator announces a new one. */
  lemma RoomRequests(s: State)
    ensures Step(s, ClearClicked) == s.(emitted := s.emitted + [ClearCanvas("main-room")])
    ensures Step(s, PassClicked) == s.(emitted := s.emitted + [PassTurn("main-room")])
  {
  }

  /** Mouse-down off turn is a no-op; on turn it opens a stroke and sends
      the position, room, colour and width. */
  lemma MouseDownGated(s: State, x: int, y: int)
    ensures !MyTurn(s) ==> Step(s, MouseDown(x, y)) == s
    ensures MyTurn(s) ==>
      Step(s, MouseDown(x, y)).isDrawing &&
      Step(s, MouseDown(x, y)).emitted ==
        s.emitted + [Event.StartDrawing(x, y, "main-room", ActiveColor(s.tool, s.userColor), s.lineWidth)]
  {
  }

  /** Mouse-move sends a point only inside a stroke on this client's turn. */
  lemma MouseMoveGated(s: State, x: int, y: int)
    ensures !(s.isDrawing && MyTurn(s)) ==> Step(s, MouseMove(x, y)) == s
    ensures s.isDrawing && MyTurn(s) ==>
      Step(s, MouseMove(x, y)).isDrawing &&
      Step(s, MouseMove(x, y)).emitted ==
        s.emitted + [Event.Drawing(x, y, "main-room", ActiveColor(s.tool, s.userColor), s.lineWidth)]
  {
  }

  /** Mouse-up and mouse-leave close an open stroke whatever the turn, so
      a stroke interrupted by losing the turn is still finished; outside a
      stroke they do nothing. */
  lemma ReleaseClosesStroke(s: State, i: Input)
    requires i == MouseUp || i == MouseLeave
    ensures !s.isDrawing ==> Step(s, i) == s
    ensures s.isDrawing ==>
      !Step(s, i).isDrawing &&
      Step(s, i).emitted == s.emitted + [Event.FinishDrawing("main-room")] &&
      Step(s, i).canvas == s.canvas + [ClosePath]
  {
  }

  /** Replaying relayed strokes touches only the canvas. */
  lemma RemoteOnlyPaints(s: State, i: Input)
    requires IsRemote(i)
    ensures Step(s, i) == s.(canvas := Step(s, i).canvas)
    ensures |Step(s, i).canvas| > |s.canvas|
  {
  }

  /** The pencil paints in the user's colour, every other tool in white. */
  lemma ColorFollowsTool(s: State, x: int, y: int)
    requires MyTurn(s)
    ensures s.tool == Pencil ==> Step(s, MouseDown(x, y)).emitted[|s.emitted|].color == s.userColor
    ensures s.tool != Pencil ==> Step(s, MouseDown(x, y)).emitted[|s.emitted|].color == "#FFFFFF"
  {
  }

  /** Unfolds a run by its first input. */
  lemma RunUnfold(s: State, ins: seq<Input>)
    requires ins != []
    ensures Run(s, ins) == Run(Step(s, ins[0]), ins[1..])
  {
  }

  /** A press, one drag and a release on this client's turn emit exactly
      one bracketed stroke in the active colour and width, and leave the
      client not drawing and still the drawer. */
  lemma StrokeOnTurn(s: State, x0: int, y0: int, x1: int, y1: int)
    requires MyTurn(s)
    ensures var c, w := ActiveColor(s.tool, s.userColor), s.lineWidth;
      Run(s, [MouseDown(x0, y0), MouseMove(x1, y1), MouseUp]).emitted ==
        s.emitted + [Event.StartDrawing(x0, y0, "main-room", c, w),
                     Event.Drawing(x1, y1, "main-room", c, w),
                     Event.FinishDrawing("main-room")]
    ensures !Run(s, [MouseDown(x0, y0), MouseMove(x1, y1), MouseUp]).isDrawing
    ensures MyTurn(Run(s, [MouseDown(x0, y0), MouseMove(x1, y1), MouseUp]))
  {
    var ins := [MouseDown(x0, y0), MouseMove(x1, y1), MouseUp];
    var c, w := ActiveColor(s.tool, s.userColor), s.lineWidth;
    var s1 := Step(s, ins[0]);
    MouseDownGated(s, x0, y0);
    assert s1.isDrawing && MyTurn(s1) && s1.tool == s.tool && s1.userColor == s.userColor && s1.lineWidth == w;
    assert s1.emitted == s.emitted + [Event.StartDrawing(x0, y0, "main-room", c, w)];
    var s2 := Step(s1, ins[1]);
    MouseMoveGated(s1, x1, y1);
    assert s2.isDrawing && MyTurn(s2);
    assert s2.emitted == s1.emitted + [Event.Drawing(x1, y1, "main-room", c, w)];
    var s3 := Step(s2, ins[2]);
    ReleaseClosesStroke(s2, MouseUp);
    assert !s3.isDrawing && MyTurn(s3);
    assert s3.emitted == s2.emitted + [Event.FinishDrawing("main-room")];
    RunUnfold(s2, ins[2..]);
    assert ins[2..][1..] == [];
    RunUnfold(s1, ins[1..]);
    assert ins[1..][1..] == ins[2..];
    RunUnfold(s, ins);
  }

  /** The abstract state of a mounted client. */
  ghost function Abs(app: App): State
    reads app, app.socket, app.board
  {
    State(app.socket.id, app.active, app.userColor, app.tool, app.lineWidth,
          app.board.isDrawing, app.socket.emitted, app.board.canvas)
  }

  predicate FromChannel(i: Input) {
    i.Connect? || i.Disconnect? || i.TurnUpdate?
  }

  predicate FromToolbar(i: Input) {
    i.ClearClicked? || i.PassClicked? || i.ToolChosen? || i.ColorChosen? || i.WidthChosen?
  }

  /** Delivers one input to the handler the client registered for it. */
  method Dispatch(app: App, i: Input)
    requires app.Valid()
    modifies app, app.socket, app.board
    ensures app.Valid()
    ensures Abs(app) == Step(old(Abs(app)), i)
  {
    if FromChannel(i) {
      DispatchChannel(app, i);
    } else if FromToolbar(i) {
      DispatchToolbar(app, i);
    } else if IsRemote(i) {
      DispatchRemote(app, i);
    } else {
      DispatchMouse(app, i);
    }
  }

  /** The socket's connect, disconnect and turn-update listeners. */
  method DispatchChannel(app: App, i: Input)
    requires app.Valid() && FromChannel(i)
    modifies app, app.socket
    ensures app.Valid()
    ensures Abs(app) == Step(old(Abs(app)), i)
  {
    match i
    case Connect(newId) =>
      app.socket.Connected(newId);
      app.OnConnect();
    case Disconnect =>
      app.socket.Disconnected();
      app.OnDisconnect();
    case TurnUpdate(holder) => app.OnTurnUpdate(holder);
  }

  /** The toolbar's buttons and pickers. */
  method DispatchToolbar(app: App, i: Input)
    requires app.Valid() && FromToolbar(i)
    modifies app, app.socket
    ensures app.Valid()
    ensures Abs(app) == Step(old(Abs(app)), i)
  {
    match i
    case ClearClicked => app.HandleClearCanvas();
    case PassClicked => app.HandlePassTurn();
    case ToolChosen(t) => app.SetTool(t);
    case ColorChosen(c) => app.SetUserColor(c);
    case WidthChosen(w) => app.SetLineWidth(w);
  }

  /** The canvas's mouse handlers, given the props of the current render. */
  method DispatchMouse(app: App, i: Input)
    requires app.Valid() && (i.MouseDown? || i.MouseMove? || i.MouseUp? || i.MouseLeave?)
    modifies app.socket, app.board
    ensures app.Valid()
    ensures Abs(app) == Step(old(Abs(app)), i)
  {
    match i
    case MouseDown(x, y) => app.board.StartDrawing(x, y, app.Props());
    case MouseMove(x, y) => app.board.Draw(x, y, app.Props());
    case MouseUp => app.board.FinishDrawing(app.Props());
    case MouseLeave => app.board.FinishDrawing(app.Props());
  }

  /** The `server-*` listeners that replay relayed strokes. */
  method DispatchRemote(app: App, i: Input)
    requires app.Valid() && IsRemote(i)
    modifies app.board
    ensures app.Valid()
    ensures Abs(app) == Step(old(Abs(app)), i)
  {
    match i
    case ServerStartDrawing(x, y, c, w) => app.board.OnStartDrawing(x, y, c, w);
    case ServerDrawing(x, y, c, w) => app.board.OnDrawing(x, y, c, w);
    case ServerFinishDrawing => app.board.OnFinishDrawing();
    case ServerClearCanvas => app.board.OnClearCanvas();
  }
}
