/** Value types of the drawing server: points, strokes, user records and the
    outbound socket events with their recipients. */
module Canvas {

  datatype Option<T> = None | Some(value: T)

  /** A socket connection id. */
  type ConnId = string

  /** A canvas coordinate as sent by a client; the server never computes with it. */
  datatype Point = Point(x: real, y: real)

  /** A stroke width as the client sends it: the default is a number, and a
      moved slider yields its value as a string. The server only copies it. */
  datatype Width = Number(n: real) | Text(s: string)

  /** A stroke object `{type: 'stroke', user, color, width, mode, path}`.
      The `type` tag is always 'stroke' and is not represented. */
  datatype Stroke = Stroke(user: ConnId, color: string, width: Width, mode: string, path: seq<Point>)

  /** An entry of `activeUsers`: `{id, color}`. */
  datatype UserInfo = UserInfo(id: ConnId, color: string)

  /** The payload of a `cursor-move` message. The client sends `{x, y}`;
      nothing stops a client from adding an `id` field as well. */
  datatype CursorData = CursorData(id: Option<ConnId>, x: real, y: real)

  /** The events the server emits, with their payloads. */
  datatype Event =
    | InitialCanvasState(history: seq<Stroke>)
    | UserListUpdate(users: seq<UserInfo>)
    | StrokeStarted(stroke: Stroke)
    | StrokeDrawn(user: ConnId, point: Point)
    | GlobalRedraw(history: seq<Stroke>)
    | CursorMoved(id: ConnId, x: real, y: real)
    | UserDisconnected(id: ConnId)

  /** Who receives an event: `socket.emit` (the sender only), `io.emit`
      (every connection) or `socket.broadcast.emit` (all but the sender). */
  datatype Recipients = Only(conn: ConnId) | Everyone | AllExcept(excluded: ConnId)

  datatype Outbound = Outbound(to: Recipients, event: Event)
}
