/** The three socket.io handlers of app.js, each a pure transition from the
    server state and one inbound event to the next state and the list of
    messages the server sends. */
module Handlers {
  import opened Common
  import opened Oracle
  import opened Registry

  /** The server's outbound events, each with its payload. */
  datatype Event =
    | PlayerRole(side: Side)
    | SpectatorRole
    | BoardState(fen: Fen)
    | MoveMade(move: Move)
    | InvalidMove(move: Move)
    | MoveError(move: Move)

  /** The name each event goes out under. The failure of a move the engine
      throws on is reported under the odd name "Invalid Move: ". */
  function EventName(ev: Event): (name: string)
    ensures |name| > 0
    ensures name == "invalidMove" <==> ev.InvalidMove?
    ensures name == "Invalid Move: " <==> ev.MoveError?
    ensures name == "move" <==> ev.MoveMade?
    ensures name == "boardState" <==> ev.BoardState?
  {
    match ev
    case PlayerRole(_) => "playerRole"
    case SpectatorRole => "spectatorRole"
    case BoardState(_) => "boardState"
    case MoveMade(_) => "move"
    case InvalidMove(_) => "invalidMove"
    case MoveError(_) => "Invalid Move: "
  }

  /** Different kinds of event always go out under different names. */
  lemma EventNamesDistinguishKinds(a: Event, b: Event)
    requires EventName(a) == EventName(b)
    ensures a.PlayerRole? <==> b.PlayerRole?
    ensures a.SpectatorRole? <==> b.SpectatorRole?
    ensures a.BoardState? <==> b.BoardState?
    ensures a.MoveMade? <==> b.MoveMade?
    ensures a.InvalidMove? <==> b.InvalidMove?
    ensures a.MoveError? <==> b.MoveError?
  {
  }

  /** `socket.emit` to one connection, or `io.in(room).emit` to a room. */
  datatype Effect = ToSelf(conn: ConnId, event: Event) | ToRoom(room: GameId, event: Event)

  /** Who receives an effect sent from state `s`. */
  function Recipients(s: State, eff: Effect): set<ConnId>
  {
    match eff
    case ToSelf(c, _) => {c}
    case ToRoom(g, _) => Members(s, g)
  }

  datatype Transition = Transition(state: State, effects: seq<Effect>)

  /** Every effect goes to `conn` alone. */
  predicate OnlyTo(effects: seq<Effect>, conn: ConnId)
  {
    forall i :: 0 <= i < |effects| ==> effects[i].ToSelf? && effects[i].conn == conn
  }

  /** The session `joinGame` works on: the stored one, or a new empty one. */
  function SessionOrNew(s: State, g: GameId): Session
  {
    if g in s.games then s.games[g] else EmptySession
  }

  /** `joinGame(gameId)` from connection `conn`: joins the room's broadcast
      group, creates the session when there is none, and hands out the
      first free role in the order white, black, spectator. A connection
      that is already seated is not recognised: joining twice takes both
      seats. */
  function JoinGame(s: State, conn: ConnId, g: GameId): (r: Transition)
    ensures r.state.games.Keys == s.games.Keys + {g}
    ensures forall h :: h in s.games && h != g ==> r.state.games[h] == s.games[h]
    ensures Members(r.state, g) == Members(s, g) + {conn}
    ensures forall h :: h != g ==> Members(r.state, h) == Members(s, h)
    ensures OnlyTo(r.effects, conn)
    // an unknown room is created empty first, so the joiner becomes white
    ensures g !in s.games ==>
              r.state.games[g] == Session(Some(conn), None, StartFen, [])
              && r.effects == [ToSelf(conn, PlayerRole(White))]
    // white free: the joiner takes it; nothing else in the room changes
    ensures g in s.games && s.games[g].white.None? ==>
              r.state.games[g].white == Some(conn)
              && r.state.games[g].black == s.games[g].black
              && r.state.games[g].spectators == s.games[g].spectators
              && r.state.games[g].position == s.games[g].position
              && r.effects == [ToSelf(conn, PlayerRole(White))]
    // white taken, black free: the joiner takes black
    ensures g in s.games && s.games[g].white.Some? && s.games[g].black.None? ==>
              r.state.games[g].black == Some(conn)
              && r.state.games[g].white == s.games[g].white
              && r.state.games[g].spectators == s.games[g].spectators
              && r.state.games[g].position == s.games[g].position
              && r.effects == [ToSelf(conn, PlayerRole(Black))]
    // both taken: the joiner is appended to the spectators and sent the board
    ensures g in s.games && s.games[g].white.Some? && s.games[g].black.Some? ==>
              r.state.games[g].white == s.games[g].white
              && r.state.games[g].black == s.games[g].black
              && r.state.games[g].spectators == s.games[g].spectators + [conn]
              && r.state.games[g].position == s.games[g].position
              && r.effects == [ToSelf(conn, SpectatorRole), ToSelf(conn, BoardState(s.games[g].position))]
  {
    var rooms' := s.rooms[g := Members(s, g) + {conn}];
    var sess := SessionOrNew(s, g);
    if sess.white.None? then
      Transition(State(s.games[g := sess.(white := Some(conn))], rooms'),
                 [ToSelf(conn, PlayerRole(White))])
    else if sess.black.None? then
      Transition(State(s.games[g := sess.(black := Some(conn))], rooms'),
                 [ToSelf(conn, PlayerRole(Black))])
    else
      Transition(State(s.games[g := sess.(spectators := sess.spectators + [conn])], rooms'),
                 [ToSelf(conn, SpectatorRole), ToSelf(conn, BoardState(sess.position))])
  }

  /** `conn` holds the seat of the side the engine says is to move. */
  predicate HoldsTurn(e: Engine, sess: Session, conn: ConnId)
  {
    SeatOf(sess, e.turn(sess.position)) == Some(conn)
  }

  /** `move(move, gameId)` from connection `conn`. An unknown room, or a
      mover who does not hold the seat of the side to move, is ignored
      silently; otherwise the engine decides, and an accepted move is
      relayed to the room together with the new position, while a rejected
      one (null or thrown) is reported to the mover alone. */
  function MakeMove(e: Engine, s: State, conn: ConnId, m: Move, g: GameId): (r: Transition)
    ensures !(g in s.games && HoldsTurn(e, s.games[g], conn)) ==> r == Transition(s, [])
    ensures g in s.games && HoldsTurn(e, s.games[g], conn)
            && e.apply(s.games[g].position, m).Applied? ==>
              var next := e.apply(s.games[g].position, m).next;
              && r.state.games == s.games[g := s.games[g].(position := next)]
              && r.state.rooms == s.rooms
              && r.effects == [ToRoom(g, MoveMade(m)), ToRoom(g, BoardState(next))]
    ensures g in s.games && HoldsTurn(e, s.games[g], conn)
            && e.apply(s.games[g].position, m) == Illegal ==>
              r == Transition(s, [ToSelf(conn, InvalidMove(m))])
              && EventName(r.effects[0].event) == "invalidMove"
    ensures g in s.games && HoldsTurn(e, s.games[g], conn)
            && e.apply(s.games[g].position, m) == Threw ==>
              r == Transition(s, [ToSelf(conn, MoveError(m))])
              && EventName(r.effects[0].event) == "Invalid Move: "
    // the converse: the state changes only through an authorised, accepted move
    ensures r.state != s || (exists i :: 0 <= i < |r.effects| && r.effects[i].ToRoom?) ==>
              g in s.games && HoldsTurn(e, s.games[g], conn)
              && e.apply(s.games[g].position, m).Applied?
  {
    if g !in s.games then Transition(s, [])
    else
      var sess := s.games[g];
      if !HoldsTurn(e, sess, conn) then Transition(s, [])
      else
        match e.apply(sess.position, m)
        case Applied(next) =>
          Transition(s.(games := s.games[g := sess.(position := next)]),
                     [ToRoom(g, MoveMade(m)), ToRoom(g, BoardState(next))])
        case Illegal => Transition(s, [ToSelf(conn, InvalidMove(m))])
        case Threw => Transition(s, [ToSelf(conn, MoveError(m))])
  }

  /** The disconnect handler with the room it evidently means passed in:
      it clears white if `conn` holds white, otherwise black if `conn` holds
      black. It sends nothing and never touches the spectators or the
      broadcast groups. */
  function Disconnect(s: State, conn: ConnId, g: GameId): (r: State)
    ensures r.rooms == s.rooms
    ensures r.games.Keys == s.games.Keys
    ensures forall h :: h in s.games && h != g ==> r.games[h] == s.games[h]
    ensures g in s.games ==>
              && r.games[g].spectators == s.games[g].spectators
              && r.games[g].position == s.games[g].position
    ensures g in s.games && s.games[g].white == Some(conn) ==>
              r.games[g].white == None && r.games[g].black == s.games[g].black
    ensures g in s.games && s.games[g].white != Some(conn) && s.games[g].black == Some(conn) ==>
              r.games[g].black == None && r.games[g].white == s.games[g].white
    ensures g in s.games && s.games[g].white != Some(conn) && s.games[g].black != Some(conn) ==>
              r == s
    ensures g !in s.games ==> r == s
  {
    if g !in s.games then s
    else
      var sess := s.games[g];
      if sess.white == Some(conn) then s.(games := s.games[g := sess.(white := None)])
      else if sess.black == Some(conn) then s.(games := s.games[g := sess.(black := None)])
      else s
  }

  /** What running a handler came to: it returned normally, or it threw. */
  datatype HandlerResult = Completed(state: State) | Raised(error: string)

  /** The disconnect handler as written: it reads `gameId`, which is not
      bound in its scope, so every call throws a ReferenceError before it
      reaches a seat. Nothing catches the error (socket.io does not guard
      its listeners and app.js installs no handler for uncaught
      exceptions), so it ends the server process; `Runs.RunAsWritten`
      follows that through. */
  function DisconnectAsWritten(s: State, conn: ConnId): (r: HandlerResult)
    ensures r.Raised?
  {
    Raised("ReferenceError: gameId is not defined")
  }
}
