/** Whole executions of the server: any sequence of HTTP room creations and
    socket events, and the properties that hold across all of them. */
module Runs {
  import opened Common
  import opened Oracle
  import opened Registry
  import opened Handlers

  /** One inbound request. A disconnect names its room explicitly (see
      `Handlers.Disconnect`). */
  datatype Input =
    | HttpCreate(id: GameId)
    | SocketJoin(conn: ConnId, game: GameId)
    | SocketMove(conn: ConnId, move: Move, game: GameId)
    | SocketDisconnect(conn: ConnId, game: GameId)

  function Step(e: Engine, s: State, i: Input): Transition
  {
    match i
    case HttpCreate(id) => Transition(CreateGame(s, id).state, [])
    case SocketJoin(c, g) => JoinGame(s, c, g)
    case SocketMove(c, m, g) => MakeMove(e, s, c, m, g)
    case SocketDisconnect(c, g) => Transition(Disconnect(s, c, g), [])
  }

  /** Processes the requests in order, one at a time (the single Node.js
      event loop), collecting every message sent. */
  function Run(e: Engine, s: State, ins: seq<Input>): Transition
    decreases |ins|
  {
    if |ins| == 0 then Transition(s, [])
    else
      var t := Step(e, s, ins[0]);
      var u := Run(e, t.state, ins[1..]);
      Transition(u.state, t.effects + u.effects)
  }

  /** Every /create-game in the run draws an id not yet in the table, as a
      uuid does. */
  predicate FreshCreates(e: Engine, s: State, ins: seq<Input>)
    decreases |ins|
  {
    |ins| == 0 ||
    ((ins[0].HttpCreate? ==> ins[0].id !in s.games)
     && FreshCreates(e, Step(e, s, ins[0]).state, ins[1..]))
  }

  /** Every connection a session records belongs to the room's broadcast
      group. */
  predicate Wf(s: State)
  {
    forall g :: g in s.games ==> Participants(s.games[g]) <= Members(s, g)
  }

  /** A single request keeps every participant in its broadcast group. */
  lemma StepPreservesWf(e: Engine, s: State, i: Input)
    requires Wf(s)
    ensures Wf(Step(e, s, i).state)
  {
  }

  /** Starting from a state where every participant is in its room's
      broadcast group, no sequence of requests breaks that. */
  lemma {:induction false} RunPreservesWf(e: Engine, s: State, ins: seq<Input>)
    requires Wf(s)
    ensures Wf(Run(e, s, ins).state)
    decreases |ins|
  {
    if |ins| > 0 {
      StepPreservesWf(e, s, ins[0]);
      RunPreservesWf(e, Step(e, s, ins[0]).state, ins[1..]);
    }
  }

  /** An accepted move reaches everybody the session records: both players
      and every spectator receive the move and the new position. */
  lemma AcceptedMoveReachesParticipants(e: Engine, s: State, conn: ConnId, m: Move, g: GameId)
    requires Wf(s)
    requires g in s.games && HoldsTurn(e, s.games[g], conn)
    requires e.apply(s.games[g].position, m).Applied?
    ensures var t := MakeMove(e, s, conn, m, g);
            |t.effects| == 2
            && forall i :: 0 <= i < |t.effects| ==>
                 Participants(s.games[g]) <= Recipients(t.state, t.effects[i])
  {
  }

  /** Rooms are never removed from the table. */
  lemma {:induction false} RunKeepsRooms(e: Engine, s: State, ins: seq<Input>)
    ensures s.games.Keys <= Run(e, s, ins).state.games.Keys
    decreases |ins|
  {
    if |ins| > 0 {
      RunKeepsRooms(e, Step(e, s, ins[0]).state, ins[1..]);
    }
  }

  /** The position a room starts a run from: its current one, or the start
      position for a room the run will create. */
  function InitialPosition(s: State, g: GameId): Fen
  {
    if g in s.games then s.games[g].position else StartFen
  }

  /** The moves relayed to room `g`, in the order they were sent. */
  function RoomMoves(effects: seq<Effect>, g: GameId): seq<Move>
    decreases |effects|
  {
    if |effects| == 0 then []
    else
      var rest := RoomMoves(effects[1..], g);
      match effects[0]
      case ToRoom(h, MoveMade(m)) => if h == g then [m] + rest else rest
      case _ => rest
  }

  lemma {:induction false} RoomMovesAppend(a: seq<Effect>, b: seq<Effect>, g: GameId)
    ensures RoomMoves(a + b, g) == RoomMoves(a, g) + RoomMoves(b, g)
    decreases |a|
  {
    if |a| == 0 {
      assert a + b == b;
    } else {
      assert (a + b)[0] == a[0];
      assert (a + b)[1..] == a[1..] + b;
      RoomMovesAppend(a[1..], b, g);
    }
  }

  /** Messages sent to a single connection relay no move to any room. */
  lemma {:induction false} NoRoomMovesInDirectReplies(effects: seq<Effect>, conn: ConnId, g: GameId)
    requires OnlyTo(effects, conn)
    ensures RoomMoves(effects, g) == []
    decreases |effects|
  {
    if |effects| > 0 {
      NoRoomMovesInDirectReplies(effects[1..], conn, g);
    }
  }

  /** One request: the moves it relays to room `g`, replayed from the room's
      position before it, give the room's position after it. */
  lemma StepReplay(e: Engine, s: State, i: Input, g: GameId)
    requires i.HttpCreate? ==> i.id !in s.games
    ensures var t := Step(e, s, i);
            Replay(e, InitialPosition(s, g), RoomMoves(t.effects, g)) == Some(InitialPosition(t.state, g))
  {
    var t := Step(e, s, i);
    match i
    case HttpCreate(id) =>
    case SocketJoin(c, h) =>
      NoRoomMovesInDirectReplies(t.effects, c, g);
    case SocketMove(c, m, h) =>
      if h in s.games && HoldsTurn(e, s.games[h], c) && e.apply(s.games[h].position, m).Applied? {
        var next := e.apply(s.games[h].position, m).next;
        assert t.effects == [ToRoom(h, MoveMade(m))] + [ToRoom(h, BoardState(next))];
        RoomMovesAppend([ToRoom(h, MoveMade(m))], [ToRoom(h, BoardState(next))], g);
        assert [ToRoom(h, MoveMade(m))][1..] == [];
        assert [ToRoom(h, BoardState(next))][1..] == [];
        if g == h {
          ReplayOne(e, s.games[h].position, m);
        }
      } else {
        NoRoomMovesInDirectReplies(t.effects, c, g);
      }
    case SocketDisconnect(c, h) =>
  }

  /** The replay property: when every room creation draws a fresh id, the
      moves the server relays to a room, replayed through the engine from
      the room's starting position, reproduce exactly the position the
      server holds for it at the end. This is what lets a browser that
      missed nothing follow the game from the `move` events alone. */
  lemma {:induction false} RunReplay(e: Engine, s: State, ins: seq<Input>, g: GameId)
    requires FreshCreates(e, s, ins)
    ensures var t := Run(e, s, ins);
            Replay(e, InitialPosition(s, g), RoomMoves(t.effects, g)) == Some(InitialPosition(t.state, g))
    decreases |ins|
  {
    if |ins| > 0 {
      var t := Step(e, s, ins[0]);
      var u := Run(e, t.state, ins[1..]);
      StepReplay(e, s, ins[0], g);
      RunReplay(e, t.state, ins[1..], g);
      RoomMovesAppend(t.effects, u.effects, g);
      ReplayAppend(e, InitialPosition(s, g), RoomMoves(t.effects, g), RoomMoves(u.effects, g));
    }
  }

  /** What the replay does not cover: a player seated after moves were
      played. White may move before black has joined; the move goes to the
      room while black is not in it, and black's join is answered with its
      role alone, never with the board, so its browser keeps the start
      position until the next move. */
  lemma LateBlackGetsNoBoard(e: Engine, a: ConnId, b: ConnId, g: GameId, m: Move, p: Fen)
    requires a != b
    requires e.turn(StartFen) == White && e.apply(StartFen, m) == Applied(p) && p != StartFen
    ensures var t := Run(e, State(map[], map[]), [SocketJoin(a, g), SocketMove(a, m, g)]);
            && g in t.state.games && t.state.games[g].position == p
            && b !in Members(t.state, g)
            && t.effects == [ToSelf(a, PlayerRole(White)), ToRoom(g, MoveMade(m)), ToRoom(g, BoardState(p))]
            && JoinGame(t.state, b, g).effects == [ToSelf(b, PlayerRole(Black))]
  {
    var s := State(map[], map[]);
    var ins := [SocketJoin(a, g), SocketMove(a, m, g)];
    var j := JoinGame(s, a, g);
    var k := MakeMove(e, j.state, a, m, g);
    assert ins[1..] == [SocketMove(a, m, g)];
    assert ins[1..][1..] == [];
    assert Run(e, j.state, ins[1..]) == Transition(k.state, k.effects + []);
  }

  /** Spectators are never removed: a room's spectator list at the end of a
      run extends the one at its start, as long as no creation overwrites
      the room. */
  lemma {:induction false} RunSpectatorsGrow(e: Engine, s: State, ins: seq<Input>, g: GameId)
    requires FreshCreates(e, s, ins)
    requires g in s.games
    ensures var t := Run(e, s, ins).state;
            g in t.games && s.games[g].spectators <= t.games[g].spectators
    decreases |ins|
  {
    if |ins| > 0 {
      var t := Step(e, s, ins[0]).state;
      assert g in t.games && s.games[g].spectators <= t.games[g].spectators;
      RunSpectatorsGrow(e, t, ins[1..], g);
    }
  }

  /** The same connection joining a fresh room twice sits on both sides of
      the board: the source does not check whether a connection is already
      seated. */
  lemma SameConnectionTakesBothSeats(s: State, conn: ConnId, g: GameId)
    requires g !in s.games
    ensures var t := JoinGame(JoinGame(s, conn, g).state, conn, g).state;
            t.games[g].white == Some(conn) && t.games[g].black == Some(conn)
  {
  }

  /** When that connection then leaves, the corrected handler frees only
      the white seat: the departed connection still holds black. */
  lemma DoubleSeatedLeaverKeepsBlack(s: State, conn: ConnId, g: GameId)
    requires g !in s.games
    ensures var t := JoinGame(JoinGame(s, conn, g).state, conn, g).state;
            var u := Disconnect(t, conn, g);
            u.games[g].white == None && u.games[g].black == Some(conn)
  {
  }

  /** What a run of the server process as written comes to: it is still
      serving, with its state and the messages sent so far, or it has
      exited, taking the whole room table with it, after sending
      `effects`, on the uncaught `error`. */
  datatype ProcessRun = Serving(state: State, effects: seq<Effect>) | Exited(effects: seq<Effect>, error: string)

  /** The run with the disconnect handler as written: the first disconnect
      throws, nothing catches it, and the process ends; no later request is
      served. */
  function RunAsWritten(e: Engine, s: State, ins: seq<Input>): (r: ProcessRun)
    ensures r.Exited? <==> exists j :: 0 <= j < |ins| && ins[j].SocketDisconnect?
    decreases |ins|
  {
    if |ins| == 0 then Serving(s, [])
    else if ins[0].SocketDisconnect? then
      Exited([], DisconnectAsWritten(s, ins[0].conn).error)
    else
      var t := Step(e, s, ins[0]);
      match RunAsWritten(e, t.state, ins[1..])
      case Serving(u, effs) => Serving(u, t.effects + effs)
      case Exited(effs, err) => Exited(t.effects + effs, err)
  }

  /** Up to the first disconnect the as-written process behaves exactly like
      the corrected one; at the first disconnect it exits, so everything
      sent is what was sent before it, and nothing after it is served. */
  lemma {:induction false} FirstDisconnectEndsProcess(e: Engine, s: State, ins: seq<Input>, k: nat)
    requires k < |ins| && ins[k].SocketDisconnect?
    requires forall j :: 0 <= j < k ==> !ins[j].SocketDisconnect?
    ensures var r := RunAsWritten(e, s, ins);
            r.Exited? && r.effects == Run(e, s, ins[..k]).effects
    decreases k
  {
    if k > 0 {
      var t := Step(e, s, ins[0]);
      assert ins[1..][k - 1] == ins[k];
      FirstDisconnectEndsProcess(e, t.state, ins[1..], k - 1);
      assert ins[..k][0] == ins[0];
      assert ins[..k][1..] == ins[1..][..k - 1];
    }
  }

  /** A run with no disconnect is served the same by both versions. */
  lemma {:induction false} NoDisconnectSameRun(e: Engine, s: State, ins: seq<Input>)
    requires forall j :: 0 <= j < |ins| ==> !ins[j].SocketDisconnect?
    ensures RunAsWritten(e, s, ins) == Serving(Run(e, s, ins).state, Run(e, s, ins).effects)
    decreases |ins|
  {
    if |ins| > 0 {
      NoDisconnectSameRun(e, Step(e, s, ins[0]).state, ins[1..]);
    }
  }

  /** A white player leaves and somebody joins the room. As written, the
      process has exited and the joiner is sent nothing; with the corrected
      handler the white seat is freed and handed to the joiner. */
  lemma DepartedWhiteSeat(e: Engine, s: State, conn: ConnId, g: GameId, next: ConnId)
    requires g in s.games && s.games[g].white == Some(conn)
    ensures var r := RunAsWritten(e, s, [SocketDisconnect(conn, g), SocketJoin(next, g)]);
            r.Exited? && r.effects == []
    ensures var t := Run(e, s, [SocketDisconnect(conn, g), SocketJoin(next, g)]);
            g in t.state.games && t.state.games[g].white == Some(next)
            && t.effects == [ToSelf(next, PlayerRole(White))]
  {
    var ins := [SocketDisconnect(conn, g), SocketJoin(next, g)];
    var d := Disconnect(s, conn, g);
    assert d.games[g].white == None;
    assert ins[1..] == [SocketJoin(next, g)];
    assert ins[1..][1..] == [];
    var j := JoinGame(d, next, g);
    assert Run(e, d, ins[1..]) == Transition(j.state, j.effects + []);
  }
}
