/** The drawing surface component: local stroke capture, gated on the turn,
    and the replay of strokes relayed by the coordinator. */
module Whiteboard {
  import opened Protocol

  /** What the parent passes down on each render. */
  datatype Props = Props(room: string, color: string, lineWidth: int, isMyTurn: bool)

  /** A call on the browser's 2D canvas context, recorded without geometry. */
  datatype CanvasOp =
    | SetStyle(color: string, lineWidth: int)
    | BeginPath
    | MoveTo(x: int, y: int)
    | LineTo(x: int, y: int)
    | Stroke
    | ClosePath
    | ClearRect(x: int, y: int, width: int, height: int)

  /** The fixed canvas size. */
  const CanvasWidth: int := 800
  const CanvasHeight: int := 600

  class Board {
    /** Whether a local stroke is in progress. */
    var isDrawing: bool
    /** The calls made on the canvas context so far. */
    var canvas: seq<CanvasOp>
    const socket: Socket

    /** `isDrawing` is true exactly when the last stroke marker this client
        emitted was a start, and the emitted strokes are well bracketed. */
    ghost predicate Valid()
      reads this, socket
    {
      isDrawing == StrokeOpen(socket.emitted) && Bracketed(socket.emitted)
    }

    constructor (s: Socket)
      requires !StrokeOpen(s.emitted) && Bracketed(s.emitted)
      ensures socket == s && !isDrawing && canvas == []
      ensures Valid()
    {
      socket := s;
      isDrawing := false;
      canvas := [];
    }

    /** Mouse-down: opens a local path and announces the stroke, but only on
        this client's turn; otherwise nothing happens. */
    method StartDrawing(x: int, y: int, p: Props)
      requires Valid()
      modifies this, socket
      ensures Valid() && socket.id == old(socket.id)
      ensures !p.isMyTurn ==>
        isDrawing == old(isDrawing) && canvas == old(canvas) &&
        socket.emitted == old(socket.emitted)
      ensures p.isMyTurn ==>
        isDrawing && canvas == old(canvas) + [BeginPath, MoveTo(x, y)] &&
        socket.emitted == old(socket.emitted) + [Event.StartDrawing(x, y, p.room, p.color, p.lineWidth)]
    {
      if !p.isMyTurn {
        return;
      }
      canvas := canvas + [BeginPath, MoveTo(x, y)];
      isDrawing := true;
      var e := Event.StartDrawing(x, y, p.room, p.color, p.lineWidth);
      AppendKeepsBracketed(socket.emitted, e);
      socket.Emit(e);
    }

    /** Mouse-up and mouse-leave: closes an open stroke. Not gated on the
        turn, so a stroke is still closed after the turn was lost. */
    method FinishDrawing(p: Props)
      requires Valid()
      modifies this, socket
      ensures Valid() && socket.id == old(socket.id)
      ensures !old(isDrawing) ==>
        !isDrawing && canvas == old(canvas) && socket.emitted == old(socket.emitted)
      ensures old(isDrawing) ==>
        !isDrawing && canvas == old(canvas) + [ClosePath] &&
        socket.emitted == old(socket.emitted) + [Event.FinishDrawing(p.room)]
    {
      if !isDrawing {
        return;
      }
      canvas := canvas + [ClosePath];
      isDrawing := false;
      var e := Event.FinishDrawing(p.room);
      AppendKeepsBracketed(socket.emitted, e);
      socket.Emit(e);
    }

    /** Mouse-move: extends the stroke and sends the point, only while a
        stroke is open and it is this client's turn. */
    method Draw(x: int, y: int, p: Props)
      requires Valid()
      modifies this, socket
      ensures Valid() && socket.id == old(socket.id) && isDrawing == old(isDrawing)
      ensures !(old(isDrawing) && p.isMyTurn) ==>
        canvas == old(canvas) && socket.emitted == old(socket.emitted)
      ensures old(isDrawing) && p.isMyTurn ==>
        canvas == old(canvas) + [LineTo(x, y), Stroke] &&
        socket.emitted == old(socket.emitted) + [Event.Drawing(x, y, p.room, p.color, p.lineWidth)]
    {
      if !isDrawing || !p.isMyTurn {
        return;
      }
      canvas := canvas + [LineTo(x, y), Stroke];
      var e := Event.Drawing(x, y, p.room, p.color, p.lineWidth);
      AppendKeepsBracketed(socket.emitted, e);
      socket.Emit(e);
    }

    /** Replays a relayed stroke start in the sender's style. */
    method OnStartDrawing(x: int, y: int, color: string, lineWidth: int)
      modifies this`canvas
      ensures canvas == old(canvas) + [SetStyle(color, lineWidth), BeginPath, MoveTo(x, y)]
    {
      canvas := canvas + [SetStyle(color, lineWidth), BeginPath, MoveTo(x, y)];
    }

    /** Replays a relayed stroke point in the sender's style. */
    method OnDrawing(x: int, y: int, color: string, lineWidth: int)
      modifies this`canvas
      ensures canvas == old(canvas) + [SetStyle(color, lineWidth), LineTo(x, y), Stroke]
    {
      canvas := canvas + [SetStyle(color, lineWidth), LineTo(x, y), Stroke];
    }

    /** Replays a relayed stroke end. */
    method OnFinishDrawing()
      modifies this`canvas
      ensures canvas == old(canvas) + [ClosePath]
    {
      canvas := canvas + [ClosePath];
    }

    /** Wipes the whole canvas on a relayed clear. */
    method OnClearCanvas()
      modifies this`canvas
      ensures canvas == old(canvas) + [ClearRect(0, 0, CanvasWidth, CanvasHeight)]
    {
      canvas := canvas + [ClearRect(0, 0, CanvasWidth, CanvasHeight)];
    }
  }
}
