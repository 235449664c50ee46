/** The server's room table (`players` in app.js) and the three HTTP
    routes that touch it: /create-game, which makes a room, and /join-game and
    /game/:gameId, which check that a room exists before letting a browser
    in. */
module Registry {
  import opened Common

  /** One room: the two seats, the room's own chess.js instance (kept as
      its position) and the spectators in order of arrival. A seat that was
      never taken (null) and one cleared by `delete` (undefined) are both
      None. */
  datatype Session = Session(
    white: Option<ConnId>,
    black: Option<ConnId>,
    position: Fen,
    spectators: seq<ConnId>)

  /** What the server holds: the room table, and socket.io's room
      membership (the broadcast groups `socket.join(gameId)` adds to). */
  datatype State = State(
    games: map<GameId, Session>,
    rooms: map<GameId, set<ConnId>>)

  /** The session both /create-game and a first `joinGame` make. */
  const EmptySession: Session := Session(None, None, StartFen, [])

  /** The sockets in room `g`'s broadcast group. */
  function Members(s: State, g: GameId): set<ConnId>
  {
    if g in s.rooms then s.rooms[g] else {}
  }

  /** The occupant of the seat of `side`. */
  function SeatOf(sess: Session, side: Side): Option<ConnId>
  {
    match side
    case White => sess.white
    case Black => sess.black
  }

  /** Every connection the session records: both seats and all spectators. */
  function Participants(sess: Session): set<ConnId>
  {
    (if sess.white.Some? then {sess.white.value} else {})
    + (if sess.black.Some? then {sess.black.value} else {})
    + (set c | c in sess.spectators)
  }

  /** An HTTP reply: a redirect, a plain-text body, or the rendered game
      page for a room. */
  datatype Response = Redirect(location: string) | Send(body: string) | Render(view: string, gameId: GameId)

  datatype Reply = Reply(state: State, response: Response)

  const InvalidJoinId := "Invalid Game ID. Please check and try again."
  const InvalidPageId := "Invalid Game ID."

  /** /create-game: stores an empty session under `id` (the uuid the
      server drew) and sends the browser to the room's page. The socket
      room memberships are not touched. */
  function CreateGame(s: State, id: GameId): (r: Reply)
    ensures r.state.games.Keys == s.games.Keys + {id}
    ensures r.state.games[id].white == None && r.state.games[id].black == None
    ensures r.state.games[id].position == StartFen && r.state.games[id].spectators == []
    ensures forall g :: g in s.games && g != id ==> r.state.games[g] == s.games[g]
    ensures r.state.rooms == s.rooms
    ensures r.response == Redirect("/game/" + id)
  {
    Reply(s.(games := s.games[id := EmptySession]), Redirect("/game/" + id))
  }

  /** /join-game?gameId=…, with the existence check meaning what it
      evidently means: a room in the table. */
  function JoinRoute(s: State, g: GameId): (r: Response)
    ensures r.Redirect? <==> g in s.games
    ensures r.Redirect? ==> r.location == "/game/" + g
    ensures r.Send? ==> r.body == InvalidJoinId
  {
    if g !in s.games then Send(InvalidJoinId) else Redirect("/game/" + g)
  }

  /** /game/:gameId, with the same corrected existence check. */
  function GamePage(s: State, g: GameId): (r: Response)
    ensures r.Render? <==> g in s.games
    ensures r.Render? ==> r == Render("game", g)
    ensures r.Send? ==> r.body == InvalidPageId
  {
    if g !in s.games then Send(InvalidPageId) else Render("game", g)
  }

  /** The keys every plain JavaScript object inherits from
      Object.prototype. Looking one of them up in `players` yields a
      function or an object, which is truthy. */
  const InheritedKeys: set<string> := {
    "constructor", "__proto__", "hasOwnProperty", "isPrototypeOf",
    "propertyIsEnumerable", "toString", "toLocaleString", "valueOf",
    "__defineGetter__", "__defineSetter__", "__lookupGetter__", "__lookupSetter__"
  }

  /** `!!players[g]` as JavaScript evaluates it on a plain object. */
  predicate TruthyEntry(s: State, g: GameId)
  {
    g in s.games || g in InheritedKeys
  }

  /** /join-game exactly as written: `!players[gameId]` also admits the
      inherited keys. */
  function JoinRouteAsWritten(s: State, g: GameId): (r: Response)
    ensures r.Redirect? <==> TruthyEntry(s, g)
  {
    if !TruthyEntry(s, g) then Send(InvalidJoinId) else Redirect("/game/" + g)
  }

  /** /game/:gameId exactly as written. */
  function GamePageAsWritten(s: State, g: GameId): (r: Response)
    ensures r.Render? <==> TruthyEntry(s, g)
  {
    if !TruthyEntry(s, g) then Send(InvalidPageId) else Render("game", g)
  }

  /** The as-written existence check lets a browser into a room that does
      not exist: with no room called "constructor", /join-game?gameId=constructor
      redirects and /game/constructor renders the game page, where the
      corrected routes refuse both. */
  lemma InheritedKeyAdmitted(s: State)
    requires "constructor" !in s.games
    ensures JoinRouteAsWritten(s, "constructor") == Redirect("/game/constructor")
    ensures GamePageAsWritten(s, "constructor") == Render("game", "constructor")
    ensures JoinRoute(s, "constructor") == Send(InvalidJoinId)
    ensures GamePage(s, "constructor") == Send(InvalidPageId)
  {
  }

  /** The as-written and the corrected checks agree on every id that is not
      an inherited key, uuids among them. */
  lemma RoutesAgreeOffInheritedKeys(s: State, g: GameId)
    requires g !in InheritedKeys
    ensures JoinRouteAsWritten(s, g) == JoinRoute(s, g)
    ensures GamePageAsWritten(s, g) == GamePage(s, g)
  {
  }

  /** A room made by /create-game passes both existence checks at once. */
  lemma CreatedRoomIsAdmitted(s: State, id: GameId)
    ensures var t := CreateGame(s, id).state;
            JoinRoute(t, id) == Redirect("/game/" + id) && GamePage(t, id) == Render("game", id)
  {
  }
}
