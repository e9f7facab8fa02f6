/** The client's view of the realtime channel: the events it emits, the
    shared socket that carries them, and what it means for the emitted
    stream to bracket its strokes properly. */
module Protocol {

  datatype Option<T> = None | Some(value: T)

  /** A message the client emits to the coordinator. */
  datatype Event =
    | JoinRoom(room: string)
    | StartDrawing(x: int, y: int, room: string, color: string, lineWidth: int)
    | Drawing(x: int, y: int, room: string, color: string, lineWidth: int)
    | FinishDrawing(room: string)
    | ClearCanvas(room: string)
    | PassTurn(room: string)

  /** Events that put ink on the shared canvas and so need the turn. */
  predicate IsPenEvent(e: Event) {
    e.StartDrawing? || e.Drawing?
  }

  /** Events that only make sense inside an open stroke. */
  predicate NeedsOpenStroke(e: Event) {
    e.Drawing? || e.FinishDrawing?
  }

  /** Whether the last stroke marker (start or finish) in `t` is a start. */
  function StrokeOpen(t: seq<Event>): bool
  {
    if t == [] then false
    else match t[|t| - 1]
      case StartDrawing(_, _, _, _, _) => true
      case FinishDrawing(_) => false
      case _ => StrokeOpen(t[..|t| - 1])
  }

  /** `t[j]` starts a stroke and no finish follows it before position `k`. */
  predicate OpenSince(t: seq<Event>, j: int, k: int) {
    0 <= j < k <= |t| && t[j].StartDrawing? &&
    forall m :: j < m < k ==> !t[m].FinishDrawing?
  }

  /** Every `drawing` and every `finish-drawing` in `t` comes after a
      `start-drawing` with no `finish-drawing` in between. */
  ghost predicate Bracketed(t: seq<Event>) {
    forall k :: 0 <= k < |t| && NeedsOpenStroke(t[k]) ==> exists j :: OpenSince(t, j, k)
  }

  /** StrokeOpen, computed from the end, agrees with the positional
      reading: some start is not yet followed by a finish. */
  lemma {:induction false} StrokeOpenIff(t: seq<Event>)
    ensures StrokeOpen(t) <==> exists j :: OpenSince(t, j, |t|)
  {
    if t != [] {
      var n := |t| - 1;
      var p := t[..n];
      match t[n]
      case StartDrawing(_, _, _, _, _) =>
        assert OpenSince(t, n, |t|);
      case FinishDrawing(_) =>
        forall j | 0 <= j < |t| ensures !OpenSince(t, j, |t|) {
          if j < n { assert t[n].FinishDrawing?; }
        }
      case _ =>
        StrokeOpenIff(p);
        if StrokeOpen(t) {
          var j :| OpenSince(p, j, |p|);
          assert OpenSince(t, j, |t|);
        } else {
          forall j | 0 <= j < |t| ensures !OpenSince(t, j, |t|) {
            if OpenSince(t, j, |t|) {
              assert j < n;
              assert OpenSince(p, j, |p|);
            }
          }
        }
    }
  }

  /** Appending one event keeps the stream bracketed as long as a
      drawing or finish event is only appended inside an open stroke, and
      moves the open/closed state exactly as the event's kind says. */
  lemma AppendKeepsBracketed(t: seq<Event>, e: Event)
    requires Bracketed(t)
    requires NeedsOpenStroke(e) ==> StrokeOpen(t)
    ensures Bracketed(t + [e])
    ensures StrokeOpen(t + [e]) ==
      if e.StartDrawing? then true else if e.FinishDrawing? then false else StrokeOpen(t)
  {
    var u := t + [e];
    assert u[..|t|] == t;
    forall k | 0 <= k < |u| && NeedsOpenStroke(u[k]) ensures exists j :: OpenSince(u, j, k) {
      if k < |t| {
        var j :| OpenSince(t, j, k);
        assert OpenSince(u, j, k);
      } else {
        StrokeOpenIff(t);
        var j :| OpenSince(t, j, |t|);
        assert OpenSince(u, j, k);
      }
    }
  }

  /** The socket.io client instance shared by every component: the
      connection id the channel assigned (None while disconnected) and the
      events emitted on it so far. */
  class Socket {
    var id: Option<string>
    var emitted: seq<Event>

    constructor ()
      ensures id == None && emitted == []
    {
      id := None;
      emitted := [];
    }

    /** The channel connected and assigned this client the id `newId`. */
    method Connected(newId: string)
      modifies this
      ensures id == Some(newId) && emitted == old(emitted)
    {
      id := Some(newId);
    }

    /** The channel dropped; the client no longer has an id. */
    method Disconnected()
      modifies this
      ensures id == None && emitted == old(emitted)
    {
      id := None;
    }

    method Emit(e: Event)
      modifies this
      ensures emitted == old(emitted) + [e] && id == old(id)
    {
      emitted := emitted + [e];
    }
  }
}
