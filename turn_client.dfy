/** The application shell: it caches the last announced drawer, derives
    whether this client may draw, and emits the room-level requests. */
module TurnClient {
  import opened Protocol
  import Whiteboard

  /** The single room every client joins. */
  const RoomName: string := "main-room"
  const Pencil: string := "pencil"
  /** The eraser paints in the canvas background colour. */
  const EraserColor: string := "#FFFFFF"

  /** This client may draw exactly when it has a connection id and that id
      is the drawer last announced; an unset id (undefined) never equals an
      unset holder (null). */
  function IsMyTurn(id: Option<string>, active: Option<string>): (mine: bool)
    ensures mine <==> id.Some? && active == id
    ensures active.None? ==> !mine
  {
    match (id, active)
    case (Some(me), Some(holder)) => me == holder
    case _ => false
  }

  /** The pencil paints in the user's colour; any other tool paints white. */
  function ActiveColor(tool: string, userColor: string): (color: string)
    ensures color == userColor || color == EraserColor
    ensures tool == Pencil ==> color == userColor
    ensures tool != Pencil ==> color == EraserColor
  {
    if tool == Pencil then userColor else EraserColor
  }

  /** The props the shell hands the drawing surface on render: the shared
      room, the colour of the current tool, the width, and the turn flag. */
  function RenderProps(tool: string, userColor: string, lineWidth: int,
                       id: Option<string>, active: Option<string>): (p: Whiteboard.Props)
    ensures p.room == RoomName && p.lineWidth == lineWidth
    ensures p.color == if tool == Pencil then userColor else EraserColor
    ensures p.isMyTurn <==> id.Some? && active == id
  {
    Whiteboard.Props(RoomName, ActiveColor(tool, userColor), lineWidth, IsMyTurn(id, active))
  }

  class App {
    var userColor: string
    var tool: string
    var lineWidth: int
    /** The last drawer id announced by the coordinator (null until then). */
    var active: Option<string>
    const socket: Socket
    const board: Whiteboard.Board

    ghost predicate Valid()
      reads this, socket, board
    {
      board.socket == socket && board.Valid()
    }

    constructor ()
      ensures Valid() && fresh(socket) && fresh(board)
      ensures userColor == "#000000" && tool == Pencil && lineWidth == 5 && active == None
      ensures socket.id == None && socket.emitted == []
      ensures !board.isDrawing && board.canvas == []
    {
      userColor := "#000000";
      tool := Pencil;
      lineWidth := 5;
      active := None;
      var s := new Socket();
      socket := s;
      board := new Whiteboard.Board(s);
    }

    /** What this component hands the drawing surface on render. */
    function Props(): (p: Whiteboard.Props)
      reads this, socket
      ensures p == RenderProps(tool, userColor, lineWidth, socket.id, active)
      ensures p.isMyTurn <==> socket.id.Some? && active == socket.id
    {
      RenderProps(tool, userColor, lineWidth, socket.id, active)
    }

    /** On connect the client asks to join the shared room. */
    method OnConnect()
      requires Valid()
      modifies socket
      ensures Valid()
      ensures socket.emitted == old(socket.emitted) + [JoinRoom(RoomName)]
      ensures socket.id == old(socket.id)
    {
      AppendKeepsBracketed(socket.emitted, JoinRoom(RoomName));
      socket.Emit(JoinRoom(RoomName));
    }

    /** On disconnect the cached drawer is forgotten. */
    method OnDisconnect()
      modifies this`active
      ensures active == None
      ensures !IsMyTurn(socket.id, active)
    {
      active := None;
    }

    /** An ownership notice overwrites the cached drawer and nothing else. */
    method OnTurnUpdate(holder: Option<string>)
      modifies this`active
      ensures active == holder
      ensures IsMyTurn(socket.id, active) <==> socket.id.Some? && holder == socket.id
    {
      active := holder;
    }

    /** Asks the coordinator to clear every canvas; available whatever the turn. */
    method HandleClearCanvas()
      requires Valid()
      modifies socket
      ensures Valid()
      ensures socket.emitted == old(socket.emitted) + [ClearCanvas(RoomName)]
      ensures socket.id == old(socket.id)
    {
      AppendKeepsBracketed(socket.emitted, ClearCanvas(RoomName));
      socket.Emit(ClearCanvas(RoomName));
    }

    /** Asks the coordinator to hand the turn on. The cached drawer stays as
        it is until the coordinator announces the new one. */
    method HandlePassTurn()
      requires Valid()
      modifies socket
      ensures Valid()
      ensures socket.emitted == old(socket.emitted) + [PassTurn(RoomName)]
      ensures socket.id == old(socket.id)
    {
      AppendKeepsBracketed(socket.emitted, PassTurn(RoomName));
      socket.Emit(PassTurn(RoomName));
    }

    method SetUserColor(color: string)
      modifies this`userColor
      ensures userColor == color
    {
      userColor := color;
    }

    method SetTool(t: string)
      modifies this`tool
      ensures tool == t
      ensures ActiveColor(tool, userColor) == if t == Pencil then userColor else EraserColor
    {
      tool := t;
    }

    method SetLineWidth(width: int)
      modifies this`lineWidth
      ensures lineWidth == width
    {
      lineWidth := width;
    }
  }
}
