/** The server's drawing state as a value, and one transition function per
    socket handler. Each handler runs to completion before the next one starts,
    so a handler is one step from a board to a board plus the events it emits. */
module Engine {
  import opened Canvas

  /** The four pieces of module-level state. `users` is the `activeUsers`
      dictionary; `order` is the insertion order of its keys, which is the
      order `Object.values(activeUsers)` enumerates them in. */
  datatype Board = Board(
    history: seq<Stroke>,           // operationHistory, in commit order
    redo: seq<Stroke>,              // redoStack, top at the end
    users: map<ConnId, UserInfo>,   // activeUsers
    order: seq<ConnId>,             // key order of activeUsers
    pending: map<ConnId, Stroke>)   // activeStrokes

  datatype Step = Step(board: Board, out: seq<Outbound>)

  const Initial: Board := Board([], [], map[], [], map[])

  predicate Distinct(s: seq<ConnId>) {
    forall i, j :: 0 <= i < j < |s| ==> s[i] != s[j]
  }

  predicate NonEmptyPaths(s: seq<Stroke>) {
    forall i :: 0 <= i < |s| ==> s[i].path != []
  }

  /** The invariant every handler keeps: the key order lists each connected
      user exactly once, every user record and pending stroke belongs to the
      connection it is filed under, and every stroke has at least one point. */
  predicate Valid(b: Board) {
    && Distinct(b.order)
    && (forall k :: k in b.order ==> k in b.users)
    && (forall k :: k in b.users ==> k in b.order)
    && (forall k :: k in b.users ==> b.users[k].id == k)
    && (forall k :: k in b.pending ==> b.pending[k].user == k && b.pending[k].path != [])
    && NonEmptyPaths(b.history)
    && NonEmptyPaths(b.redo)
  }

  lemma InitialValid()
    ensures Valid(Initial)
  {
  }

  /** `Object.values(activeUsers)`: the records of the listed keys, in order. */
  function UserList(users: map<ConnId, UserInfo>, order: seq<ConnId>): (us: seq<UserInfo>)
  {
    if order == [] then []
    else (if order[0] in users then [users[order[0]]] else []) + UserList(users, order[1..])
  }

  lemma {:induction false} UserListAt(users: map<ConnId, UserInfo>, order: seq<ConnId>)
    requires forall k :: k in order ==> k in users
    ensures |UserList(users, order)| == |order|
    ensures forall i :: 0 <= i < |order| ==> UserList(users, order)[i] == users[order[i]]
    decreases |order|
  {
    if order != [] {
      UserListAt(users, order[1..]);
      assert forall i :: 1 <= i < |order| ==> order[1..][i - 1] == order[i];
    }
  }

  function Users(b: Board): (us: seq<UserInfo>)
  {
    UserList(b.users, b.order)
  }

  /** The key order after `delete`: every occurrence of `id` removed. */
  function RemoveId(s: seq<ConnId>, id: ConnId): (r: seq<ConnId>)
  {
    if s == [] then []
    else if s[0] == id then RemoveId(s[1..], id)
    else [s[0]] + RemoveId(s[1..], id)
  }

  lemma {:induction false} RemoveIdFacts(s: seq<ConnId>, id: ConnId)
    ensures forall k :: k in RemoveId(s, id) <==> k in s && k != id
    ensures Distinct(s) ==> Distinct(RemoveId(s, id))
    ensures id !in s ==> RemoveId(s, id) == s
    decreases |s|
  {
    if s != [] {
      RemoveIdFacts(s[1..], id);
      assert s == [s[0]] + s[1..];
      if Distinct(s) {
        assert forall j :: 0 <= j < |s| - 1 ==> s[1..][j] == s[j + 1];
        assert Distinct(s[1..]);
        if s[0] != id {
          var rest := RemoveId(s[1..], id);
          assert s[0] !in s[1..];
          assert s[0] !in rest;
          var r := [s[0]] + rest;
          forall i, j | 0 <= i < j < |r|
            ensures r[i] != r[j]
          {
            if i == 0 {
              assert r[j] == rest[j - 1];
            } else {
              assert r[i] == rest[i - 1] && r[j] == rest[j - 1];
            }
          }
        }
      }
    }
  }

  /** connection: record `{id, color}` under the id, send the history and the
      user list to the new connection and the user list to everyone else. */
  function Connect(b: Board, id: ConnId, color: string): (r: Step)
    ensures id in r.board.users && r.board.users[id] == UserInfo(id, color)
    ensures r.board.users - {id} == b.users - {id}
    ensures r.board.history == b.history && r.board.redo == b.redo && r.board.pending == b.pending
    ensures r.out == [Outbound(Only(id), InitialCanvasState(b.history)),
                      Outbound(Only(id), UserListUpdate(Users(r.board))),
                      Outbound(AllExcept(id), UserListUpdate(Users(r.board)))]
  {
    var order := if id in b.users then b.order else b.order + [id];
    var nb := b.(users := b.users[id := UserInfo(id, color)], order := order);
    Step(nb, [Outbound(Only(id), InitialCanvasState(b.history)),
              Outbound(Only(id), UserListUpdate(Users(nb))),
              Outbound(AllExcept(id), UserListUpdate(Users(nb)))])
  }

  /** start-stroke: the sender's pending stroke becomes a fresh one-point
      stroke, whatever was pending before, and peers are told about it. */
  function StartStroke(b: Board, id: ConnId, color: string, width: Width, mode: string, point: Point): (r: Step)
    ensures id in r.board.pending && r.board.pending[id] == Stroke(id, color, width, mode, [point])
    ensures r.board.history == b.history && r.board.redo == b.redo
    ensures r.board.users == b.users && r.board.order == b.order
    ensures r.board.pending - {id} == b.pending - {id}
    ensures r.out == [Outbound(AllExcept(id), StrokeStarted(r.board.pending[id]))]
  {
    var s := Stroke(id, color, width, mode, [point]);
    Step(b.(pending := b.pending[id := s]), [Outbound(AllExcept(id), StrokeStarted(s))])
  }

  /** draw-stroke: extend the sender's pending path by one point and relay
      only that point; without a pending stroke, do nothing. */
  function DrawStroke(b: Board, id: ConnId, point: Point): (r: Step)
    ensures id !in b.pending ==> r == Step(b, [])
    ensures id in b.pending ==>
      && id in r.board.pending
      && r.board.pending[id] == b.pending[id].(path := b.pending[id].path + [point])
      && r.out == [Outbound(AllExcept(id), StrokeDrawn(id, point))]
    ensures r.board.history == b.history && r.board.redo == b.redo
    ensures r.board.users == b.users && r.board.order == b.order
    ensures r.board.pending - {id} == b.pending - {id}
  {
    if id in b.pending then
      var s := b.pending[id];
      Step(b.(pending := b.pending[id := s.(path := s.path + [point])]),
           [Outbound(AllExcept(id), StrokeDrawn(id, point))])
    else
      Step(b, [])
  }

  /** end-stroke: commit the sender's pending stroke at the tail of the
      history, empty the redo stack and drop the pending entry. Emits nothing. */
  function EndStroke(b: Board, id: ConnId): (r: Step)
    ensures r.out == []
    ensures id !in b.pending ==> r.board == b
    ensures id in b.pending ==> r.board.history == b.history + [b.pending[id]] && r.board.redo == []
    ensures id !in r.board.pending && r.board.pending - {id} == b.pending - {id}
    ensures r.board.users == b.users && r.board.order == b.order
  {
    if id in b.pending then
      Step(b.(history := b.history + [b.pending[id]], redo := [], pending := b.pending - {id}), [])
    else
      Step(b, [])
  }

  /** request-undo: move the newest committed stroke onto the redo stack and
      send everyone the shortened history; on an empty history, do nothing. */
  function Undo(b: Board): (r: Step)
    ensures b.history == [] ==> r == Step(b, [])
    ensures b.history != [] ==>
      && b.history == r.board.history + [b.history[|b.history| - 1]]
      && r.board.redo == b.redo + [b.history[|b.history| - 1]]
      && r.out == [Outbound(Everyone, GlobalRedraw(r.board.history))]
    ensures r.board.users == b.users && r.board.order == b.order && r.board.pending == b.pending
  {
    if |b.history| > 0 then
      var last := b.history[|b.history| - 1];
      var h := b.history[..|b.history| - 1];
      Step(b.(history := h, redo := b.redo + [last]), [Outbound(Everyone, GlobalRedraw(h))])
    else
      Step(b, [])
  }

  /** request-redo: move the top of the redo stack back onto the tail of the
      history and send everyone the lengthened history; on an empty redo
      stack, do nothing. */
  function Redo(b: Board): (r: Step)
    ensures b.redo == [] ==> r == Step(b, [])
    ensures b.redo != [] ==>
      && r.board.history == b.history + [b.redo[|b.redo| - 1]]
      && b.redo == r.board.redo + [b.redo[|b.redo| - 1]]
      && r.out == [Outbound(Everyone, GlobalRedraw(r.board.history))]
    ensures r.board.users == b.users && r.board.order == b.order && r.board.pending == b.pending
  {
    if |b.redo| > 0 then
      var top := b.redo[|b.redo| - 1];
      var h := b.history + [top];
      Step(b.(history := h, redo := b.redo[..|b.redo| - 1]), [Outbound(Everyone, GlobalRedraw(h))])
    else
      Step(b, [])
  }

  /** The cursor-moved payload as the source builds it: `{id: socket.id, ...data}`.
      The spread comes after `id`, so an `id` sent by the client wins. */
  function CursorMovedAsWritten(sender: ConnId, data: CursorData): (e: Event)
    ensures e.CursorMoved? && e.x == data.x && e.y == data.y
    ensures data.id.None? ==> e.id == sender
    ensures data.id.Some? ==> e.id == data.id.value
  {
    CursorMoved(if data.id.Some? then data.id.value else sender, data.x, data.y)
  }

  /** cursor-move, with the payload naming the sender as its comment intends:
      relay the position to everyone but the sender and change nothing. */
  function CursorMove(b: Board, id: ConnId, data: CursorData): (r: Step)
    ensures r.board == b
    ensures |r.out| == 1 && r.out[0].to == AllExcept(id)
    ensures r.out[0].event == CursorMoved(id, data.x, data.y)
  {
    Step(b, [Outbound(AllExcept(id), CursorMoved(id, data.x, data.y))])
  }

  /** disconnect: forget the user and throw away any pending stroke without
      committing it, then tell everyone the new user list and the departed id. */
  function Disconnect(b: Board, id: ConnId): (r: Step)
    ensures r.board.history == b.history && r.board.redo == b.redo
    ensures id !in r.board.users && r.board.users - {id} == b.users - {id}
    ensures id !in r.board.pending && r.board.pending - {id} == b.pending - {id}
    ensures r.out == [Outbound(Everyone, UserListUpdate(Users(r.board))), Outbound(Everyone, UserDisconnected(id))]
  {
    var nb := b.(users := b.users - {id}, order := RemoveId(b.order, id), pending := b.pending - {id});
    Step(nb, [Outbound(Everyone, UserListUpdate(Users(nb))), Outbound(Everyone, UserDisconnected(id))])
  }

  /** An inbound message together with the connection it arrived on. */
  datatype Command =
    | OnConnect(id: ConnId, color: string)
    | OnStartStroke(id: ConnId, color: string, width: Width, mode: string, point: Point)
    | OnDrawStroke(id: ConnId, point: Point)
    | OnEndStroke(id: ConnId)
    | OnRequestUndo(id: ConnId)
    | OnRequestRedo(id: ConnId)
    | OnCursorMove(id: ConnId, data: CursorData)
    | OnDisconnect(id: ConnId)

  /** Dispatch one command to its handler. */
  function Apply(b: Board, c: Command): (r: Step)
  {
    match c
    case OnConnect(id, color) => Connect(b, id, color)
    case OnStartStroke(id, color, width, mode, point) => StartStroke(b, id, color, width, mode, point)
    case OnDrawStroke(id, point) => DrawStroke(b, id, point)
    case OnEndStroke(id) => EndStroke(b, id)
    case OnRequestUndo(_) => Undo(b)
    case OnRequestRedo(_) => Redo(b)
    case OnCursorMove(id, data) => CursorMove(b, id, data)
    case OnDisconnect(id) => Disconnect(b, id)
  }

  /** Run commands one after another, collecting the emitted events in order. */
  function Run(b: Board, cs: seq<Command>): (r: Step)
    decreases |cs|
  {
    if cs == [] then Step(b, [])
    else
      var s := Apply(b, cs[0]);
      var t := Run(s.board, cs[1..]);
      Step(t.board, s.out + t.out)
  }

  // ---------------------------------------------------------------------
  // The invariant is kept by every handler

  lemma ConnectKeepsValid(b: Board, id: ConnId, color: string)
    requires Valid(b)
    ensures Valid(Connect(b, id, color).board)
  {
    var nb := Connect(b, id, color).board;
    if id !in b.users {
      assert nb.order == b.order + [id];
      assert forall i :: 0 <= i < |b.order| ==> nb.order[i] == b.order[i];
    }
  }

  lemma DisconnectKeepsValid(b: Board, id: ConnId)
    requires Valid(b)
    ensures Valid(Disconnect(b, id).board)
  {
    RemoveIdFacts(b.order, id);
  }

  lemma StrokeHandlersKeepValid(b: Board, c: Command)
    requires Valid(b) && (c.OnStartStroke? || c.OnDrawStroke? || c.OnEndStroke?)
    ensures Valid(Apply(b, c).board)
  {
    if c.OnEndStroke? && c.id in b.pending {
      var h := Apply(b, c).board.history;
      assert forall i :: 0 <= i < |b.history| ==> h[i] == b.history[i];
    }
  }

  lemma NonEmptyPathsSnoc(s: seq<Stroke>, x: Stroke)
    ensures NonEmptyPaths(s + [x]) <==> NonEmptyPaths(s) && x.path != []
  {
    assert forall i :: 0 <= i < |s| ==> (s + [x])[i] == s[i];
    assert (s + [x])[|s|] == x;
  }

  lemma UndoRedoKeepValid(b: Board)
    requires Valid(b)
    ensures Valid(Undo(b).board) && Valid(Redo(b).board)
  {
    if b.history != [] {
      var u := Undo(b).board;
      NonEmptyPathsSnoc(u.history, b.history[|b.history| - 1]);
      NonEmptyPathsSnoc(b.redo, b.history[|b.history| - 1]);
    }
    if b.redo != [] {
      var r := Redo(b).board;
      NonEmptyPathsSnoc(b.history, b.redo[|b.redo| - 1]);
      NonEmptyPathsSnoc(r.redo, b.redo[|b.redo| - 1]);
    }
  }

  /** Every handler keeps the invariant. */
  lemma ApplyKeepsValid(b: Board, c: Command)
    requires Valid(b)
    ensures Valid(Apply(b, c).board)
  {
    match c {
      case OnConnect(id, color) => ConnectKeepsValid(b, id, color);
      case OnDisconnect(id) => DisconnectKeepsValid(b, id);
      case OnRequestUndo(_) => UndoRedoKeepValid(b);
      case OnRequestRedo(_) => UndoRedoKeepValid(b);
      case OnCursorMove(_, _) =>
      case _ => StrokeHandlersKeepValid(b, c);
    }
  }

  /** Every sequence of handler runs keeps the invariant. */
  lemma {:induction false} RunKeepsValid(b: Board, cs: seq<Command>)
    requires Valid(b)
    ensures Valid(Run(b, cs).board)
    decreases |cs|
  {
    if cs != [] {
      ApplyKeepsValid(b, cs[0]);
      RunKeepsValid(Apply(b, cs[0]).board, cs[1..]);
    }
  }
}
