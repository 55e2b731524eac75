/** What the handlers promise together: stack discipline between the history
    and the redo stack, redo invalidation on commit, stroke accumulation and
    discard, membership bookkeeping. */
module Properties {
  import opened Canvas
  import opened Engine

  // ---------------------------------------------------------------------
  // Running command sequences

  lemma {:induction false} RunAppendBoard(b: Board, xs: seq<Command>, ys: seq<Command>)
    ensures Run(b, xs + ys).board == Run(Run(b, xs).board, ys).board
    decreases |xs|
  {
    if xs == [] {
      assert xs + ys == ys;
    } else {
      var c, rest := xs[0], xs[1..];
      assert xs == [c] + rest;
      assert xs + ys == [c] + (rest + ys);
      RunCons(b, c, rest);
      RunCons(b, c, rest + ys);
      RunAppendBoard(Apply(b, c).board, rest, ys);
    }
  }

  lemma {:induction false} RunAppendOut(b: Board, xs: seq<Command>, ys: seq<Command>)
    ensures Run(b, xs + ys).out == Run(b, xs).out + Run(Run(b, xs).board, ys).out
    decreases |xs|
  {
    if xs == [] {
      assert xs + ys == ys;
    } else {
      var c, rest := xs[0], xs[1..];
      assert xs == [c] + rest;
      assert xs + ys == [c] + (rest + ys);
      RunCons(b, c, rest);
      RunCons(b, c, rest + ys);
      RunAppendOut(Apply(b, c).board, rest, ys);
      RunAppendBoard(Apply(b, c).board, rest, ys);
    }
  }

  /** Running two sequences one after the other is running their concatenation. */
  lemma RunAppend(b: Board, xs: seq<Command>, ys: seq<Command>)
    ensures Run(b, xs + ys).board == Run(Run(b, xs).board, ys).board
    ensures Run(b, xs + ys).out == Run(b, xs).out + Run(Run(b, xs).board, ys).out
  {
    RunAppendBoard(b, xs, ys);
    RunAppendOut(b, xs, ys);
  }

  lemma RunCons(b: Board, c: Command, cs: seq<Command>)
    ensures Run(b, [c] + cs) == Step(Run(Apply(b, c).board, cs).board, Apply(b, c).out + Run(Apply(b, c).board, cs).out)
  {
    assert ([c] + cs)[0] == c;
    assert ([c] + cs)[1..] == cs;
  }

  lemma RunSingle(b: Board, c: Command)
    ensures Run(b, [c]) == Apply(b, c)
  {
    assert [c][1..] == [];
  }

  // ---------------------------------------------------------------------
  // Undo and redo

  /** Undo immediately followed by redo restores the whole state, and the
      redo sends everyone the original history. */
  lemma UndoThenRedo(b: Board)
    requires b.history != []
    ensures Redo(Undo(b).board).board == b
    ensures Redo(Undo(b).board).out == [Outbound(Everyone, GlobalRedraw(b.history))]
  {
  }

  /** Redo immediately followed by undo restores the whole state. */
  lemma RedoThenUndo(b: Board)
    requires b.redo != []
    ensures Undo(Redo(b).board).board == b
  {
  }

  /** Undo and redo only move strokes between the two stacks. */
  lemma UndoRedoKeepTotal(b: Board)
    ensures |Undo(b).board.history| + |Undo(b).board.redo| == |b.history| + |b.redo|
    ensures |Redo(b).board.history| + |Redo(b).board.redo| == |b.history| + |b.redo|
  {
  }

  function Reversed(s: seq<Stroke>): (r: seq<Stroke>)
  {
    if s == [] then [] else Reversed(s[1..]) + [s[0]]
  }

  lemma {:induction false} ReversedSnoc(s: seq<Stroke>, x: Stroke)
    ensures Reversed(s + [x]) == [x] + Reversed(s)
    decreases |s|
  {
    if s == [] {
      assert [x][1..] == [];
    } else {
      assert (s + [x])[0] == s[0];
      assert (s + [x])[1..] == s[1..] + [x];
      ReversedSnoc(s[1..], x);
    }
  }

  /** The timeline: the committed strokes followed by the undone ones, the
      most recently undone first. The history is the part of it before the
      cursor, and the top of the redo stack is the stroke right after it. */
  function Timeline(b: Board): (t: seq<Stroke>)
  {
    b.history + Reversed(b.redo)
  }

  lemma UndoKeepsTimeline(b: Board)
    ensures Timeline(Undo(b).board) == Timeline(b)
  {
    if b.history != [] {
      var last := b.history[|b.history| - 1];
      ReversedSnoc(b.redo, last);
      assert b.history == b.history[..|b.history| - 1] + [last];
    }
  }

  lemma RedoKeepsTimeline(b: Board)
    ensures Timeline(Redo(b).board) == Timeline(b)
  {
    if b.redo != [] {
      var top := b.redo[|b.redo| - 1];
      var rest := b.redo[..|b.redo| - 1];
      assert b.redo == rest + [top];
      ReversedSnoc(rest, top);
    }
  }

  /** A commit replaces the timeline by the history plus the new stroke: every
      undone stroke is gone for good. */
  lemma CommitResetsTimeline(b: Board, id: ConnId)
    requires id in b.pending
    ensures Timeline(EndStroke(b, id).board) == b.history + [b.pending[id]]
  {
  }

  /** Every command except end-stroke leaves the timeline as it is. */
  lemma NonCommitKeepsTimeline(b: Board, c: Command)
    requires !c.OnEndStroke?
    ensures Timeline(Apply(b, c).board) == Timeline(b)
  {
    match c {
      case OnRequestUndo(_) => UndoKeepsTimeline(b);
      case OnRequestRedo(_) => RedoKeepsTimeline(b);
      case _ =>
    }
  }

  /** Any run of commands without an end-stroke, from any connections, keeps
      the timeline: undo and redo only move the cursor along it. */
  lemma {:induction false} RunWithoutCommitKeepsTimeline(b: Board, cs: seq<Command>)
    requires forall i :: 0 <= i < |cs| ==> !cs[i].OnEndStroke?
    ensures Timeline(Run(b, cs).board) == Timeline(b)
    decreases |cs|
  {
    if cs != [] {
      NonCommitKeepsTimeline(b, cs[0]);
      RunWithoutCommitKeepsTimeline(Apply(b, cs[0]).board, cs[1..]);
    }
  }

  /** Once a stroke is committed, the next redo is a no-op. */
  lemma CommitInvalidatesRedo(b: Board, id: ConnId)
    requires id in b.pending
    ensures EndStroke(b, id).board.redo == []
    ensures Redo(EndStroke(b, id).board) == Step(EndStroke(b, id).board, [])
  {
  }

  /** Without an undo, an empty redo stack stays empty, whoever sends what. */
  lemma {:induction false} RunWithoutUndoKeepsRedoEmpty(b: Board, cs: seq<Command>)
    requires b.redo == []
    requires forall i :: 0 <= i < |cs| ==> !cs[i].OnRequestUndo?
    ensures Run(b, cs).board.redo == []
    decreases |cs|
  {
    if cs != [] {
      RunWithoutUndoKeepsRedoEmpty(Apply(b, cs[0]).board, cs[1..]);
    }
  }

  /** After a commit, any messages without an undo, from any connections,
      leave nothing to redo: the next request-redo is a no-op. */
  lemma RedoAfterCommitIsNoOp(b: Board, id: ConnId, cs: seq<Command>)
    requires id in b.pending
    requires forall i :: 0 <= i < |cs| ==> !cs[i].OnRequestUndo?
    ensures var b2 := Run(EndStroke(b, id).board, cs).board;
      Redo(b2) == Step(b2, [])
  {
    RunWithoutUndoKeepsRedoEmpty(EndStroke(b, id).board, cs);
  }

  // ---------------------------------------------------------------------
  // How the history can change

  /** One command changes the history in one of three ways only: not at all,
      one stroke appended at the tail (by end-stroke, the sender's pending
      stroke, or by redo, the top of the redo stack), or the last stroke
      removed (by undo). Strokes at earlier indices are never rewritten. */
  lemma HistoryChangesAtTail(b: Board, c: Command)
    ensures var h := Apply(b, c).board.history;
      || h == b.history
      || (c.OnEndStroke? && c.id in b.pending && h == b.history + [b.pending[c.id]])
      || (c.OnRequestRedo? && b.redo != [] && h == b.history + [b.redo[|b.redo| - 1]])
      || (c.OnRequestUndo? && b.history != [] && h == b.history[..|b.history| - 1])
    ensures var h := Apply(b, c).board.history;
      forall i :: 0 <= i < |h| && i < |b.history| ==> h[i] == b.history[i]
  {
  }

  /** Without undo, whatever else runs, the history only grows at the tail. */
  lemma {:induction false} RunWithoutUndoExtendsHistory(b: Board, cs: seq<Command>)
    requires forall i :: 0 <= i < |cs| ==> !cs[i].OnRequestUndo?
    ensures |b.history| <= |Run(b, cs).board.history|
    ensures Run(b, cs).board.history[..|b.history|] == b.history
    decreases |cs|
  {
    if cs != [] {
      var b1 := Apply(b, cs[0]).board;
      HistoryChangesAtTail(b, cs[0]);
      RunWithoutUndoExtendsHistory(b1, cs[1..]);
      var h := Run(b, cs).board.history;
      assert h[..|b1.history|] == b1.history;
      assert b1.history[..|b.history|] == b.history;
      assert h[..|b.history|] == h[..|b1.history|][..|b.history|];
    }
  }

  // ---------------------------------------------------------------------
  // Pending strokes

  /** A command from one connection never touches another connection's
      pending stroke. */
  lemma OtherSenderKeepsPending(b: Board, c: Command, id: ConnId)
    requires c.id != id
    ensures id in Apply(b, c).board.pending <==> id in b.pending
    ensures id in b.pending ==> Apply(b, c).board.pending[id] == b.pending[id]
  {
  }

  /** The point a command adds to `id`'s path: one for its own draw-stroke. */
  function DrawnBy(id: ConnId, c: Command): (ps: seq<Point>)
  {
    if c.OnDrawStroke? && c.id == id then [c.point] else []
  }

  /** The points `id` draws in a command sequence, in order. */
  function Drawn(id: ConnId, cs: seq<Command>): (ps: seq<Point>)
  {
    if cs == [] then [] else DrawnBy(id, cs[0]) + Drawn(id, cs[1..])
  }

  /** The author's commands that end or replace its pending stroke. */
  predicate EndsStroke(c: Command) {
    c.OnStartStroke? || c.OnEndStroke? || c.OnDisconnect?
  }

  /** One command that neither starts, ends nor disconnects `id`'s stroke
      extends `id`'s pending path by the point it draws, if any, and changes
      nothing else about that stroke. */
  lemma StepAccumulates(b: Board, c: Command, id: ConnId)
    requires id in b.pending && (c.id != id || !EndsStroke(c))
    ensures id in Apply(b, c).board.pending
    ensures Apply(b, c).board.pending[id] == b.pending[id].(path := b.pending[id].path + DrawnBy(id, c))
  {
    if c.id != id {
      OtherSenderKeepsPending(b, c, id);
      assert b.pending[id].path + [] == b.pending[id].path;
    } else if !c.OnDrawStroke? {
      assert b.pending[id].path + [] == b.pending[id].path;
    }
  }

  /** Commands in which `id` neither starts, ends nor disconnects, whatever
      the other connections do. The author may draw, move its cursor, undo,
      redo or be re-recorded. */
  predicate KeepsStrokeOpen(id: ConnId, cs: seq<Command>) {
    forall i :: 0 <= i < |cs| ==> cs[i].id != id || !EndsStroke(cs[i])
  }

  /** While `id` keeps its stroke open, its pending stroke keeps its colour,
      width and mode and its path grows by exactly the points it drew, in
      order, whatever else it and the other connections send meanwhile. */
  lemma {:induction false} PendingAccumulates(b: Board, id: ConnId, cs: seq<Command>)
    requires id in b.pending && KeepsStrokeOpen(id, cs)
    ensures id in Run(b, cs).board.pending
    ensures Run(b, cs).board.pending[id] == b.pending[id].(path := b.pending[id].path + Drawn(id, cs))
    decreases |cs|, 1
  {
    if cs == [] {
      assert b.pending[id].path + [] == b.pending[id].path;
    } else {
      var c, rest := cs[0], cs[1..];
      assert KeepsStrokeOpen(id, rest) by {
        forall i | 0 <= i < |rest| ensures rest[i].id != id || !EndsStroke(rest[i]) {
          assert rest[i] == cs[i + 1];
        }
      }
      assert cs == [c] + rest;
      PendingAccumulatesCons(b, id, c, rest);
    }
  }

  /** The inductive step of PendingAccumulates: one command, then the rest. */
  lemma {:induction false} PendingAccumulatesCons(b: Board, id: ConnId, c: Command, rest: seq<Command>)
    requires id in b.pending && (c.id != id || !EndsStroke(c)) && KeepsStrokeOpen(id, rest)
    ensures id in Run(b, [c] + rest).board.pending
    ensures Run(b, [c] + rest).board.pending[id] == b.pending[id].(path := b.pending[id].path + Drawn(id, [c] + rest))
    decreases |rest| + 1, 0
  {
    var s := b.pending[id];
    var b1 := Apply(b, c).board;
    StepAccumulates(b, c, id);
    PendingAccumulates(b1, id, rest);
    RunCons(b, c, rest);
    DrawnCons(id, c, rest, s.path);
  }

  lemma DrawnCons(id: ConnId, c: Command, rest: seq<Command>, path: seq<Point>)
    ensures path + Drawn(id, [c] + rest) == (path + DrawnBy(id, c)) + Drawn(id, rest)
  {
    assert ([c] + rest)[0] == c && ([c] + rest)[1..] == rest;
  }

  /** start-stroke, then any commands in which the author neither starts,
      ends nor disconnects (its draws interleaved with its cursor moves, as
      the client sends them, and with anything from other connections), then
      end-stroke: the stroke committed at the tail of the history has the
      start's colour, width and mode and the path [p0] followed by exactly the
      points the author drew; the redo stack is empty afterwards. */
  lemma StrokeCommitsDrawnPath(b: Board, id: ConnId, color: string, width: Width, mode: string, p0: Point, cs: seq<Command>)
    requires KeepsStrokeOpen(id, cs)
    ensures var b2 := Run(StartStroke(b, id, color, width, mode, p0).board, cs).board;
      && EndStroke(b2, id).board.history == b2.history + [Stroke(id, color, width, mode, [p0] + Drawn(id, cs))]
      && EndStroke(b2, id).board.redo == []
      && id !in EndStroke(b2, id).board.pending
  {
    PendingAccumulates(StartStroke(b, id, color, width, mode, p0).board, id, cs);
  }

  /** The draw-stroke commands of one connection for a list of points. */
  function Draws(id: ConnId, ps: seq<Point>): (cs: seq<Command>)
  {
    if ps == [] then [] else [OnDrawStroke(id, ps[0])] + Draws(id, ps[1..])
  }

  /** The stroke-drawn events relayed for a list of points. */
  function DrawnEvents(id: ConnId, ps: seq<Point>): (out: seq<Outbound>)
  {
    if ps == [] then [] else [Outbound(AllExcept(id), StrokeDrawn(id, ps[0]))] + DrawnEvents(id, ps[1..])
  }

  /** draw-stroke applied to each point of ps in turn. */
  function DrawAll(b: Board, id: ConnId, ps: seq<Point>): (r: Step)
    decreases |ps|
  {
    if ps == [] then Step(b, [])
    else
      var s := DrawStroke(b, id, ps[0]);
      var t := DrawAll(s.board, id, ps[1..]);
      Step(t.board, s.out + t.out)
  }

  lemma {:induction false} RunDraws(b: Board, id: ConnId, ps: seq<Point>)
    ensures Run(b, Draws(id, ps)) == DrawAll(b, id, ps)
    decreases |ps|
  {
    if ps != [] {
      RunCons(b, OnDrawStroke(id, ps[0]), Draws(id, ps[1..]));
      RunDraws(DrawStroke(b, id, ps[0]).board, id, ps[1..]);
    }
  }

  /** A connection with a pending stroke draws the points ps: the path grows
      by ps, each point is relayed once, in order, and nothing else changes. */
  lemma {:induction false} DrawsExtendPath(b: Board, id: ConnId, ps: seq<Point>)
    requires id in b.pending
    ensures DrawAll(b, id, ps).board == b.(pending := b.pending[id := b.pending[id].(path := b.pending[id].path + ps)])
    ensures DrawAll(b, id, ps).out == DrawnEvents(id, ps)
    decreases |ps|
  {
    var s := b.pending[id];
    if ps == [] {
      assert s.(path := s.path + ps) == s;
      assert b.pending[id := s] == b.pending;
    } else {
      var s1 := s.(path := s.path + [ps[0]]);
      var b1 := DrawStroke(b, id, ps[0]).board;
      assert b1 == b.(pending := b.pending[id := s1]);
      DrawsExtendPath(b1, id, ps[1..]);
      assert s1.(path := s1.path + ps[1..]) == s.(path := s.path + ps) by {
        assert s1.path + ps[1..] == s.path + ps;
      }
    }
  }

  /** Draws, then a final command sequence: the draws' effect is DrawAll's. */
  lemma DrawsThen(b: Board, id: ConnId, ps: seq<Point>, tail: seq<Command>)
    ensures Run(b, Draws(id, ps) + tail)
         == Step(Run(DrawAll(b, id, ps).board, tail).board, DrawAll(b, id, ps).out + Run(DrawAll(b, id, ps).board, tail).out)
  {
    RunAppend(b, Draws(id, ps), tail);
    RunDraws(b, id, ps);
  }

  /** What start(p0), draw(p1..pn) leaves behind before a final command: the
      author's pending stroke is [p0, ..., pn], nothing else changed, and the
      events so far are stroke-started and one stroke-drawn per point. */
  lemma AfterDraws(b: Board, id: ConnId, color: string, width: Width, mode: string, p0: Point, ps: seq<Point>, tail: seq<Command>)
    returns (b2: Board)
    ensures b2 == b.(pending := b.pending[id := Stroke(id, color, width, mode, [p0] + ps)])
    ensures Run(b, [OnStartStroke(id, color, width, mode, p0)] + Draws(id, ps) + tail)
         == Step(Run(b2, tail).board,
                 [Outbound(AllExcept(id), StrokeStarted(Stroke(id, color, width, mode, [p0])))] + DrawnEvents(id, ps) + Run(b2, tail).out)
  {
    var b1 := StartStroke(b, id, color, width, mode, p0).board;
    b2 := DrawAll(b1, id, ps).board;
    RunStart(b, id, color, width, mode, p0, Draws(id, ps), tail);
    DrawsThen(b1, id, ps, tail);
    StartThenDraws(b, id, color, width, mode, p0, ps);
  }

  /** start-stroke at the head of a command sequence. */
  lemma RunStart(b: Board, id: ConnId, color: string, width: Width, mode: string, p0: Point, xs: seq<Command>, tail: seq<Command>)
    ensures var s := StartStroke(b, id, color, width, mode, p0);
      Run(b, [OnStartStroke(id, color, width, mode, p0)] + xs + tail)
        == Step(Run(s.board, xs + tail).board, s.out + Run(s.board, xs + tail).out)
  {
    var c0 := OnStartStroke(id, color, width, mode, p0);
    assert [c0] + xs + tail == [c0] + (xs + tail);
    assert Apply(b, c0) == StartStroke(b, id, color, width, mode, p0);
    RunCons(b, c0, xs + tail);
  }

  lemma StartThenDraws(b: Board, id: ConnId, color: string, width: Width, mode: string, p0: Point, ps: seq<Point>)
    ensures DrawAll(StartStroke(b, id, color, width, mode, p0).board, id, ps).board
         == b.(pending := b.pending[id := Stroke(id, color, width, mode, [p0] + ps)])
    ensures DrawAll(StartStroke(b, id, color, width, mode, p0).board, id, ps).out == DrawnEvents(id, ps)
  {
    var b1 := StartStroke(b, id, color, width, mode, p0).board;
    DrawsExtendPath(b1, id, ps);
    assert b1.pending[id := b1.pending[id].(path := b1.pending[id].path + ps)] == b.pending[id := Stroke(id, color, width, mode, [p0] + ps)];
  }

  /** The scenario of one author alone: start(p0), draw(p1..pn), end commits
      exactly [p0, p1, ..., pn] at the tail of the history and empties the
      redo stack; the only events are stroke-started and one stroke-drawn per
      point, all to the other connections. */
  lemma SoloStrokeCommits(b: Board, id: ConnId, color: string, width: Width, mode: string, p0: Point, ps: seq<Point>)
    ensures var r := Run(b, [OnStartStroke(id, color, width, mode, p0)] + Draws(id, ps) + [OnEndStroke(id)]);
      && r.board.history == b.history + [Stroke(id, color, width, mode, [p0] + ps)]
      && r.board.redo == []
      && r.board.pending == b.pending - {id}
      && r.board.users == b.users && r.board.order == b.order
      && r.out == [Outbound(AllExcept(id), StrokeStarted(Stroke(id, color, width, mode, [p0])))] + DrawnEvents(id, ps)
  {
    var last := OnEndStroke(id);
    var b2 := AfterDraws(b, id, color, width, mode, p0, ps, [last]);
    RunSingle(b2, last);
    assert b2.pending - {id} == b.pending - {id};
  }

  /** Disconnecting after start(p0), draw(p1..pn) leaves the history and the
      redo stack as they were before the start: the stroke never commits. */
  lemma DisconnectDiscardsStroke(b: Board, id: ConnId, color: string, width: Width, mode: string, p0: Point, ps: seq<Point>)
    ensures var r := Run(b, [OnStartStroke(id, color, width, mode, p0)] + Draws(id, ps) + [OnDisconnect(id)]);
      && r.board.history == b.history
      && r.board.redo == b.redo
      && id !in r.board.pending
      && id !in r.board.users
  {
    var last := OnDisconnect(id);
    var b2 := AfterDraws(b, id, color, width, mode, p0, ps, [last]);
    RunSingle(b2, last);
  }

  /** After a disconnect, an end-stroke for that id has nothing to commit.
      socket.io never runs a closed socket's handlers, so this trace needs a
      later connection that reuses the id; it states that the model keeps
      no stroke behind for such an id. */
  lemma EndAfterDisconnectIsNoOp(b: Board, id: ConnId)
    ensures EndStroke(Disconnect(b, id).board, id) == Step(Disconnect(b, id).board, [])
  {
  }

  /** A second start-stroke silently replaces the first: the last start wins. */
  lemma LastStartWins(b: Board, id: ConnId, c1: string, w1: Width, m1: string, p1: Point,
                      c2: string, w2: Width, m2: string, p2: Point)
    ensures StartStroke(StartStroke(b, id, c1, w1, m1, p1).board, id, c2, w2, m2, p2).board
         == StartStroke(b, id, c2, w2, m2, p2).board
  {
  }

  // ---------------------------------------------------------------------
  // Membership

  /** The user list names every connected user exactly once, with the record
      stored under its id. */
  lemma UserListIsMembership(b: Board)
    requires Valid(b)
    ensures forall u :: u in Users(b) <==> u.id in b.users && b.users[u.id] == u
  {
    UserListAt(b.users, b.order);
    var us := Users(b);
    forall u: UserInfo | u.id in b.users && b.users[u.id] == u ensures u in us {
      var i :| 0 <= i < |b.order| && b.order[i] == u.id;
      assert us[i] == u;
    }
  }

  /** No connection appears twice in the user list. */
  lemma UsersHaveDistinctIds(b: Board)
    requires Valid(b)
    ensures forall i, j :: 0 <= i < j < |Users(b)| ==> Users(b)[i].id != Users(b)[j].id
  {
    UserListAt(b.users, b.order);
  }

  /** A new connection's record is appended at the end of the user list. */
  lemma ConnectAppendsUser(b: Board, id: ConnId, color: string)
    requires Valid(b) && id !in b.users
    ensures Users(Connect(b, id, color).board) == Users(b) + [UserInfo(id, color)]
  {
    var nb := Connect(b, id, color).board;
    assert nb.order == b.order + [id];
    UserListAt(b.users, b.order);
    UserListAt(nb.users, nb.order);
    var after := Users(nb);
    var expected := Users(b) + [UserInfo(id, color)];
    forall i | 0 <= i < |after| ensures after[i] == expected[i] {
      if i < |b.order| {
        assert nb.order[i] == b.order[i];
      }
    }
  }

  /** Re-recording an id that is already connected keeps its place in the
      user list and replaces only its record. socket.io's generated ids are
      unique per connection, so this is how `activeUsers[socket.id] = ...`
      behaves on an existing key rather than a trace the server sees. */
  lemma ReconnectKeepsPosition(b: Board, id: ConnId, color: string)
    requires Valid(b) && id in b.users
    ensures var after := Users(Connect(b, id, color).board);
      && |after| == |Users(b)|
      && forall i :: 0 <= i < |after| ==>
           after[i] == (if Users(b)[i].id == id then UserInfo(id, color) else Users(b)[i])
  {
    var nb := Connect(b, id, color).board;
    UserListAt(b.users, b.order);
    UserListAt(nb.users, nb.order);
  }

  /** The user list without the records of one id, the others kept in order. */
  function WithoutUser(us: seq<UserInfo>, id: ConnId): (r: seq<UserInfo>)
  {
    if us == [] then [] else (if us[0].id == id then [] else [us[0]]) + WithoutUser(us[1..], id)
  }

  lemma WithoutUserAppend(xs: seq<UserInfo>, ys: seq<UserInfo>, id: ConnId)
    requires |xs| <= 1
    ensures WithoutUser(xs + ys, id) == WithoutUser(xs, id) + WithoutUser(ys, id)
  {
    if xs == [] {
      assert xs + ys == ys;
    } else {
      assert (xs + ys)[0] == xs[0] && (xs + ys)[1..] == ys;
      assert xs[1..] == [];
    }
  }

  /** Deleting a key and dropping it from the key order lists the same records
      as filtering that id out of the old user list. */
  lemma {:induction false} UserListRemoveId(users: map<ConnId, UserInfo>, order: seq<ConnId>, id: ConnId)
    requires forall k :: k in users ==> users[k].id == k
    ensures UserList(users - {id}, RemoveId(order, id)) == WithoutUser(UserList(users, order), id)
    decreases |order|
  {
    if order != [] {
      var k, rest := order[0], order[1..];
      var head := if k in users then [users[k]] else [];
      UserListRemoveId(users, rest, id);
      WithoutUserAppend(head, UserList(users, rest), id);
      if k != id {
        var r := [k] + RemoveId(rest, id);
        assert r[0] == k && r[1..] == RemoveId(rest, id);
      }
    }
  }

  /** Disconnecting removes exactly that id's record from the user list and
      keeps the other users in their order. */
  lemma DisconnectRemovesUser(b: Board, id: ConnId)
    requires Valid(b)
    ensures Users(Disconnect(b, id).board) == WithoutUser(Users(b), id)
    ensures forall u :: u in Users(Disconnect(b, id).board) <==> u in Users(b) && u.id != id
  {
    UserListRemoveId(b.users, b.order, id);
    DisconnectKeepsValid(b, id);
    UserListIsMembership(b);
    UserListIsMembership(Disconnect(b, id).board);
  }

  lemma {:induction false} RemoveIdSnoc(s: seq<ConnId>, id: ConnId)
    requires id !in s
    ensures RemoveId(s + [id], id) == s
    decreases |s|
  {
    if s == [] {
      assert [id][1..] == [];
    } else {
      assert (s + [id])[0] == s[0];
      assert (s + [id])[1..] == s[1..] + [id];
      RemoveIdSnoc(s[1..], id);
      assert s == [s[0]] + s[1..];
    }
  }

  /** A connection that joins and leaves without drawing leaves no trace. */
  lemma ConnectThenDisconnect(b: Board, id: ConnId, color: string)
    requires Valid(b) && id !in b.users && id !in b.pending
    ensures Disconnect(Connect(b, id, color).board, id).board == b
  {
    var joined := b.(users := b.users[id := UserInfo(id, color)], order := b.order + [id]);
    assert Connect(b, id, color).board == joined;
    RemoveIdSnoc(b.order, id);
    assert joined.users - {id} == b.users;
    assert joined.pending - {id} == b.pending;
  }

  // ---------------------------------------------------------------------
  // Cursor relay

  /** As written, a client that puts an `id` into its cursor-move payload has
      its cursor shown as another user's; the corrected relay names the sender. */
  lemma CursorSpoofAsWritten()
    ensures CursorMovedAsWritten("u1", CursorData(Some("u2"), 0.0, 0.0)) == CursorMoved("u2", 0.0, 0.0)
    ensures CursorMove(Initial, "u1", CursorData(Some("u2"), 0.0, 0.0)).out[0].event == CursorMoved("u1", 0.0, 0.0)
  {
  }

  /** For the payload the shipped client sends, `{x, y}`, the corrected relay
      and the one as written agree. */
  lemma CursorAgreesOnHonestPayload(b: Board, id: ConnId, x: real, y: real)
    ensures CursorMove(b, id, CursorData(None, x, y)).out[0].event == CursorMovedAsWritten(id, CursorData(None, x, y))
  {
  }

  // ---------------------------------------------------------------------
  // A two-user draw, undo and redo session

  /** u1 draws (0,0)-(1,1) and ends; u2 undoes, then redoes. */
  lemma Scenario()
    ensures var s := Stroke("u1", "#000000", Number(5.0), "source-over", [Point(0.0, 0.0), Point(1.0, 1.0)]);
      var b0 := Connect(Connect(Initial, "u1", "c1").board, "u2", "c2").board;
      var b1 := EndStroke(DrawStroke(StartStroke(b0, "u1", "#000000", Number(5.0), "source-over", Point(0.0, 0.0)).board,
                                     "u1", Point(1.0, 1.0)).board, "u1").board;
      && b1.history == [s] && b1.redo == []
      && Undo(b1).board.history == [] && Undo(b1).board.redo == [s]
      && Undo(b1).out == [Outbound(Everyone, GlobalRedraw([]))]
      && Redo(Undo(b1).board).board.history == [s] && Redo(Undo(b1).board).board.redo == []
      && Redo(Undo(b1).board).out == [Outbound(Everyone, GlobalRedraw([s]))]
  {
    var s := Stroke("u1", "#000000", Number(5.0), "source-over", [Point(0.0, 0.0), Point(1.0, 1.0)]);
    var b0 := Connect(Connect(Initial, "u1", "c1").board, "u2", "c2").board;
    assert b0.history == [] && b0.redo == [];
    var started := StartStroke(b0, "u1", "#000000", Number(5.0), "source-over", Point(0.0, 0.0)).board;
    var drawn := DrawStroke(started, "u1", Point(1.0, 1.0)).board;
    assert drawn.pending["u1"] == s;
    var b1 := EndStroke(drawn, "u1").board;
    assert b1.history == [s];
    assert Undo(b1).board.history == [];
  }
}
