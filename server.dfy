/** The server's module-level state as an object whose handler methods update
    it in place. Each method is proved to leave exactly the state, and return
    exactly the events, that the matching Engine function describes. */
module Server {
  import opened Canvas
  import Engine

  class CanvasServer {
    var operationHistory: seq<Stroke>
    var redoStack: seq<Stroke>
    var activeUsers: map<ConnId, UserInfo>
    /** The key order of `activeUsers`, which `Object.values` follows. */
    var userOrder: seq<ConnId>
    var activeStrokes: map<ConnId, Stroke>

    function State(): (b: Engine.Board)
      reads this
    {
      Engine.Board(operationHistory, redoStack, activeUsers, userOrder, activeStrokes)
    }

    predicate Valid()
      reads this
    {
      Engine.Valid(State())
    }

    /** `Object.values(activeUsers)`. */
    function UserList(): (us: seq<UserInfo>)
      reads this
    {
      Engine.UserList(activeUsers, userOrder)
    }

    /** Process start: empty history, redo stack, users and pending strokes. */
    constructor ()
      ensures Valid() && State() == Engine.Initial
    {
      operationHistory := [];
      redoStack := [];
      activeUsers := map[];
      userOrder := [];
      activeStrokes := map[];
      new;
      Engine.InitialValid();
    }

    /** A new connection, with the colour it was assigned. */
    method Connect(id: ConnId, color: string) returns (events: seq<Outbound>)
      requires Valid()
      modifies this
      ensures Valid()
      ensures State() == Engine.Connect(old(State()), id, color).board
      ensures events == Engine.Connect(old(State()), id, color).out
    {
      if id !in activeUsers {
        userOrder := userOrder + [id];
      }
      activeUsers := activeUsers[id := UserInfo(id, color)];
      var users := UserList();
      events := [Outbound(Only(id), InitialCanvasState(operationHistory)),
                 Outbound(Only(id), UserListUpdate(users)),
                 Outbound(AllExcept(id), UserListUpdate(users))];
      Engine.ConnectKeepsValid(old(State()), id, color);
    }

    method StartStroke(id: ConnId, color: string, width: Width, mode: string, point: Point) returns (events: seq<Outbound>)
      requires Valid()
      modifies this
      ensures Valid()
      ensures State() == Engine.StartStroke(old(State()), id, color, width, mode, point).board
      ensures events == Engine.StartStroke(old(State()), id, color, width, mode, point).out
    {
      activeStrokes := activeStrokes[id := Stroke(id, color, width, mode, [point])];
      events := [Outbound(AllExcept(id), StrokeStarted(activeStrokes[id]))];
      Engine.StrokeHandlersKeepValid(old(State()), Engine.OnStartStroke(id, color, width, mode, point));
    }

    method DrawStroke(id: ConnId, point: Point) returns (events: seq<Outbound>)
      requires Valid()
      modifies this
      ensures Valid()
      ensures State() == Engine.DrawStroke(old(State()), id, point).board
      ensures events == Engine.DrawStroke(old(State()), id, point).out
    {
      events := [];
      if id in activeStrokes {
        var stroke := activeStrokes[id];
        activeStrokes := activeStrokes[id := stroke.(path := stroke.path + [point])];
        events := [Outbound(AllExcept(id), StrokeDrawn(id, point))];
      }
      Engine.StrokeHandlersKeepValid(old(State()), Engine.OnDrawStroke(id, point));
    }

    method EndStroke(id: ConnId) returns (events: seq<Outbound>)
      requires Valid()
      modifies this
      ensures Valid()
      ensures State() == Engine.EndStroke(old(State()), id).board
      ensures events == Engine.EndStroke(old(State()), id).out
    {
      if id in activeStrokes {
        operationHistory := operationHistory + [activeStrokes[id]];
        redoStack := [];
        activeStrokes := activeStrokes - {id};
      }
      events := [];
      Engine.StrokeHandlersKeepValid(old(State()), Engine.OnEndStroke(id));
    }

    method RequestUndo(id: ConnId) returns (events: seq<Outbound>)
      requires Valid()
      modifies this
      ensures Valid()
      ensures State() == Engine.Undo(old(State())).board
      ensures events == Engine.Undo(old(State())).out
    {
      events := [];
      if |operationHistory| > 0 {
        var lastOp := operationHistory[|operationHistory| - 1];
        operationHistory := operationHistory[..|operationHistory| - 1];
        redoStack := redoStack + [lastOp];
        events := [Outbound(Everyone, GlobalRedraw(operationHistory))];
      }
      Engine.UndoRedoKeepValid(old(State()));
    }

    method RequestRedo(id: ConnId) returns (events: seq<Outbound>)
      requires Valid()
      modifies this
      ensures Valid()
      ensures State() == Engine.Redo(old(State())).board
      ensures events == Engine.Redo(old(State())).out
    {
      events := [];
      if |redoStack| > 0 {
        var opToRedo := redoStack[|redoStack| - 1];
        redoStack := redoStack[..|redoStack| - 1];
        operationHistory := operationHistory + [opToRedo];
        events := [Outbound(Everyone, GlobalRedraw(operationHistory))];
      }
      Engine.UndoRedoKeepValid(old(State()));
    }

    /** A stateless relay: nothing on the server changes. */
    method CursorMove(id: ConnId, data: CursorData) returns (events: seq<Outbound>)
      requires Valid()
      ensures events == Engine.CursorMove(State(), id, data).out
      ensures |events| == 1 && events[0] == Outbound(AllExcept(id), CursorMoved(id, data.x, data.y))
    {
      events := [Outbound(AllExcept(id), CursorMoved(id, data.x, data.y))];
    }

    method Disconnect(id: ConnId) returns (events: seq<Outbound>)
      requires Valid()
      modifies this
      ensures Valid()
      ensures State() == Engine.Disconnect(old(State()), id).board
      ensures events == Engine.Disconnect(old(State()), id).out
    {
      activeUsers := activeUsers - {id};
      userOrder := Engine.RemoveId(userOrder, id);
      activeStrokes := activeStrokes - {id};
      events := [Outbound(Everyone, UserListUpdate(UserList())), Outbound(Everyone, UserDisconnected(id))];
      Engine.DisconnectKeepsValid(old(State()), id);
    }
  }

  /** Two connections join a fresh server: nothing is drawn yet. */
  method TwoUsersJoin() returns (server: CanvasServer)
    ensures fresh(server) && server.Valid()
    ensures server.operationHistory == [] && server.redoStack == []
    ensures "u1" in server.activeUsers && "u2" in server.activeUsers
  {
    server := new CanvasServer();
    var _ := server.Connect("u1", "c1");
    var _ := server.Connect("u2", "c2");
  }

  /** One connection draws the segment from p to q and releases it: the
      segment is committed at the tail of the history and the redo stack is
      emptied. */
  method DrawSegment(server: CanvasServer, id: ConnId, color: string, width: Width, mode: string, p: Point, q: Point)
    requires server.Valid()
    modifies server
    ensures server.Valid()
    ensures server.operationHistory == old(server.operationHistory) + [Stroke(id, color, width, mode, [p, q])]
    ensures server.redoStack == []
  {
    var _ := server.StartStroke(id, color, width, mode, p);
    var _ := server.DrawStroke(id, q);
    assert id in server.activeStrokes && server.activeStrokes[id] == Stroke(id, color, width, mode, [p, q]);
    var _ := server.EndStroke(id);
  }

  /** A session against the object: u1 draws a two-point stroke, u2 undoes
      it and redoes it; at each step the history, the redo stack and the
      broadcast redraws are as the handlers promise. */
  method UndoRedoSession() returns (server: CanvasServer)
    ensures fresh(server) && server.Valid()
    ensures server.operationHistory == [Stroke("u1", "#000000", Number(5.0), "source-over", [Point(0.0, 0.0), Point(1.0, 1.0)])]
    ensures server.redoStack == []
  {
    server := TwoUsersJoin();
    var s := Stroke("u1", "#000000", Number(5.0), "source-over", [Point(0.0, 0.0), Point(1.0, 1.0)]);
    DrawSegment(server, "u1", "#000000", Number(5.0), "source-over", Point(0.0, 0.0), Point(1.0, 1.0));
    assert server.operationHistory == [s];
    var undone := server.RequestUndo("u2");
    assert server.operationHistory == [] && server.redoStack == [s];
    assert undone == [Outbound(Everyone, GlobalRedraw([]))];
    var redone := server.RequestRedo("u2");
    assert redone == [Outbound(Everyone, GlobalRedraw([s]))];
  }
}
