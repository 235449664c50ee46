# Chess game session coordinator, in Dafny

A model of the core of a small real-time chess site (an Express +
socket.io server with a browser client), with proofs about it.

The server (`app.js`) keeps a table `players` from room id to session:
the white seat, the black seat, the room's own chess engine and the list
of spectators. Three socket handlers drive it. `joinGame` hands out the
first free role (white, then black, then spectator). `move` accepts a move
only from the connection holding the seat of the side to move, lets the
chess engine decide and relays accepted moves to the whole room.
`disconnect` is meant to free the leaver's seat, but it reads an unbound
`gameId` and throws (see Findings). Three HTTP routes touch the table:
/create-game makes a room, and /join-game and /game/:gameId check that a
room exists. The client (`public/js/chessgame.js`)
contributes pure rules: square naming, shading, which pieces can be
dragged, board flipping, piece glyphs and which buttons show.

Structure:

- `common.dfy` (`Common`): sides, connection and room ids, positions (as FEN
  strings), the move payload.
- `oracle.dfy` (`Oracle`): the chess engine as an uninterpreted oracle. An
  `Engine` is any pair of total functions `apply(position, move)` and
  `turn(position)`. `apply` yields `Applied(next)`, `Illegal` (chess.js
  returned null) or `Threw`. `Replay` plays a list of moves through it.
- `registry.dfy` (`Registry`): the server state (the room table plus
  socket.io's broadcast groups), /create-game, /join-game and /game/:gameId.
- `handlers.dfy` (`Handlers`): `joinGame`, `move` and `disconnect` as pure
  transitions `(State, request) -> (State, effects)`. An effect is
  `ToSelf(conn, event)` (`socket.emit`) or `ToRoom(room, event)`
  (`io.in(room).emit`).
- `runs.dfy` (`Runs`): whole runs of requests. Properties that hold across
  them: broadcast-group membership, rooms never vanish, spectators only grow,
  and the replay property. Also the process as written, which ends at its
  first disconnect.
- `client.dfy` (`Client`) and `views.dfy` (`Views`): the client rules, and
  `renderBoard` over a whole board.

Facts about the server as written that the model keeps:

- The server seats the second joiner as black at once. There is no challenge step.
- The server keeps no `started` flag and no move history.
- The server does not recognise a connection that is already seated when it joins again.
- The server sends a spectator the position but no history.

## Model

| member | source | states |
|---|---|---|
| Registry.CreateGame | app.js:23-27 | /create-game stores a session with both seats empty, the start position and no spectators under the new id. Every other room and all broadcast groups are untouched. It redirects to `/game/<id>`. |
| Registry.JoinRoute | app.js:29-35 | /join-game redirects to the room page iff the id names a room, else it sends the "Invalid Game ID. Please check and try again." text (corrected existence check). |
| Registry.GamePage | app.js:37-44 | /game/:gameId renders the game view for that id iff the room exists, else it sends "Invalid Game ID." (corrected existence check). |
| Registry.JoinRouteAsWritten | app.js:29-35 | The route as written redirects iff `players[gameId]` is truthy. That holds for a stored room or for any key a plain object inherits. |
| Registry.GamePageAsWritten | app.js:37-44 | The game page as written renders iff `players[gameId]` is truthy, inherited keys included. |
| Registry.InheritedKeyAdmitted | app.js:31 | With no room called "constructor", both as-written routes let a browser in, while the corrected routes refuse it. |
| Registry.RoutesAgreeOffInheritedKeys | app.js:29-41 | On every id that is not an inherited key, the as-written and the corrected checks give the same reply. |
| Registry.CreatedRoomIsAdmitted | app.js:23-41 | A room just made by /create-game passes both existence checks. |
| Handlers.JoinGame | app.js:49-74 | The joiner is added to the room's broadcast group and an unknown room is created empty first. A free white seat goes to the joiner, with `playerRole "w"`. Otherwise a free black seat goes to the joiner, with `playerRole "b"`. Otherwise the joiner is appended to the spectators and sent `spectatorRole` and then `boardState` of the current position. In every case the other seats, spectators, position and rooms are unchanged, and every message goes to the joiner alone. |
| Handlers.MakeMove | app.js:85-110 | An unknown room, or a mover not holding the seat of `turn(position)`, changes nothing and sends nothing. An authorised move the engine applies replaces only the position and sends exactly `move` then `boardState(next)` to the room. An authorised move the engine rejects changes nothing and sends the mover alone an event named "invalidMove". One the engine throws on changes nothing and sends the mover alone an event named "Invalid Move: ". Conversely, the state changes, or anything goes to the room, only after an authorised, accepted move. |
| Handlers.Disconnect | app.js:76-83 | Corrected handler, with the room passed in. If the leaver holds white, white is cleared. Otherwise, if the leaver holds black, black is cleared. Otherwise nothing changes. At most one seat is cleared, and the spectators, position, other rooms and broadcast groups are never touched. |
| Handlers.DisconnectAsWritten | app.js:76-83 | The handler as written always throws, because `gameId` is not bound in its scope. |
| Runs.RunAsWritten | app.js:76-83 | Runs requests through the process as written. The process has exited at the end of a run iff the run contains a disconnect, because that handler's throw is never caught. |
| Runs.FirstDisconnectEndsProcess | app.js:77 | The as-written process ends at the first disconnect. It has sent exactly what the corrected server sends for the requests before that disconnect, and it serves nothing after it. |
| Runs.NoDisconnectSameRun | app.js:49-110 | On a run with no disconnect, the as-written process and the corrected model give the same state and messages. |
| Runs.DepartedWhiteSeat | app.js:77-82 | A white player leaves and someone joins. As written, the process has exited and the joiner is sent nothing. With the corrected handler, white is freed and handed to the joiner with `playerRole "w"`. |
| Handlers.EventName | app.js:64-108 | Gives the wire name of each outbound event. An engine rejection goes out as "invalidMove" and an engine throw as "Invalid Move: ", and each name belongs to exactly one kind of event. |
| Handlers.EventNamesDistinguishKinds | app.js:64-108 | Two events sent under the same name are of the same kind. |
| Client.ShadeOf | public/js/chessgame.js:26-27 | A square is light iff its row and column have the same parity, that is, iff row+col is even. |
| Runs.StepPreservesWf | app.js:49-110 | No single request takes a seated player or spectator out of its room's broadcast group. |
| Runs.RunPreservesWf | app.js:49-110 | The same holds for every run of requests. |
| Runs.AcceptedMoveReachesParticipants | app.js:101-102 | When every participant is in the broadcast group, both messages about an accepted move reach both players and every spectator. |
| Runs.RunKeepsRooms | app.js:52-57 | No run of requests removes a room from the table. |
| Runs.LateBlackGetsNoBoard | app.js:60-68 | White may move before black joins. The move is relayed to a room that black is not in yet, and black's join is answered with `playerRole "b"` alone, not with the board the server now holds. |
| Runs.RunReplay | app.js:98-102 | If every /create-game draws a fresh id, replay the moves relayed to a room, in order, through the engine from the room's starting position. The result is exactly the position the server holds for that room at the end. |
| Runs.RunSpectatorsGrow | app.js:70 | If every /create-game draws a fresh id, a room's spectator list at the end of a run extends its list at the start. |
| Runs.SameConnectionTakesBothSeats | app.js:60-68 | One connection joining a fresh room twice holds both white and black. |
| Runs.DoubleSeatedLeaverKeepsBlack | app.js:77-82 | When that connection leaves, the corrected handler frees only white, and the departed connection still holds black. |
| Runs.NoRoomMovesInDirectReplies | app.js:64-72 | Messages addressed to a single connection relay no move to any room. |
| Client.SquareName | public/js/chessgame.js:76-77 | A grid coordinate gets a two-character name, a file letter a-h and a rank digit 1-8, and that name parses back to the same coordinate. |
| Client.ParseThenName | public/js/chessgame.js:76-77 | Every well-formed square name is the name of the coordinate it parses to. So naming is a bijection between the 8x8 grid and a1..h8. |
| Client.SquareNameInjective | public/js/chessgame.js:76-77 | Distinct coordinates get distinct names. |
| Client.RanksAndFiles | public/js/chessgame.js:76-77 | Row 0 is rank 8 and row 7 is rank 1. The corners are a8, h8, a1 and h1. |
| Client.HandleMove | public/js/chessgame.js:74-81 | The move sent for a drag asks for promotion "q". Its from/to parse back to the drag's source and target. |
| Client.NeighbouringShades | public/js/chessgame.js:26-27 | Squares sharing a side differ in shade, and diagonal neighbours share it. |
| Client.CornerShades | public/js/chessgame.js:26-27 | a1 and h8 are dark, and h1 and a8 are light, as on a real board. |
| Client.Draggable | public/js/chessgame.js:35 | A piece is draggable iff the role is the player role of its colour. No role and "spectator" never drag. |
| Client.Flipped | public/js/chessgame.js:66-70 | The board is flipped iff the role is "b". |
| Client.OnServerEvent | public/js/chessgame.js:165-169 | `playerRole` sets the client's role to the side code sent. Every other server event, "spectatorRole" included, leaves the role unchanged. |
| Client.PieceGlyph | public/js/chessgame.js:84-91 | A type in the 12-key table gets one chess glyph. Any other type gets "". |
| Client.GlyphsDistinct | public/js/chessgame.js:85-89 | The twelve table entries are pairwise different glyphs. |
| Client.BoardGlyphIgnoresColour | public/js/chessgame.js:84-91 | A chess.js piece type (always lower case) always gets an outlined glyph. |
| Client.UpdateUI | public/js/chessgame.js:94-114 | Play/invite show iff the role is "w" and the game has not started. Spectate/challenge show iff there is no role and the game has not started. The two groups never show together, and the popup is always hidden. |
| Client.StartedHidesEverything | public/js/chessgame.js:94-105 | Once the game has started, no button shows for any role. |
| Client.BlackAndSpectatorSeeNothing | public/js/chessgame.js:94-105 | The black player and a client that chose to spectate never see a button. |
| Views.RenderBoard | public/js/chessgame.js:20-71 | Each rendered square has its coordinate, its shade, and its piece's colour class, glyph and draggability, as the per-square reference view gives them. The board is flipped iff the role is black. |
| Views.DraggableIffOwnColour | public/js/chessgame.js:35 | On a rendered square, the piece is draggable iff it has the viewer's own colour. |
| Views.SameGlyphBothColours | public/js/chessgame.js:33-34 | For the same type, a white piece and a black piece get the same glyph and different colour classes. |
| Views.JoinerButtons | app.js:60-73 | After the server's reply to `joinGame`, the first joiner's client holds "w", and updateUI shows it play. The second holds "b", and updateUI shows it nothing. A third keeps no role, because "spectatorRole" has no handler, and so can drag no piece. |

## Left out

- Express routing, EJS rendering, static files and `server.listen` are HTTP plumbing. Only their effect on the room table is modelled.
- socket.io delivery is reduced to effect lists plus the broadcast-group sets. socket.io's automatic removal of a closed socket from its rooms is transport behaviour and is not modelled.
- chess.js move legality, FEN serialisation and turn computation belong to a foreign library. The engine is an arbitrary pair of functions.
- `uuidv4` is a parameter: /create-game takes the id as an argument. Run-level properties assume the ids are fresh.
- `console.log` output, DOM construction, drag/drop wiring, the clipboard, `alert` and `confirm` are I/O.
- The challenge flow (`challengeWhitePlayer`, `acceptChallenge`, `rejectChallenge`, `challengeRequest`, `challengeAccepted`) and `startGame`/`joinAsSpectator` are emitted or handled only by the client. The server has no handler for them, so there is no server state to model.
- The unused globals `chess` and `currentPlayer` (app.js:12, app.js:14) are not modelled.
- The `if (!chess)` guard in `move` (app.js:92-95) fires only for a room id that is an inherited object key, such as "constructor" (see Findings). The server ignores every move sent to such a room. The model differs once such a room has been joined: its `joinGame` has created a real session under that id, so it relays accepted moves there. Before any join, both ignore the move.
- Runs.StepPreservesWf, Runs.RunPreservesWf: in the model, departed connections stay in their broadcast groups, because socket.io's removal of a closed socket from its rooms is not modelled. With that removal, a spectator who leaves would remain in `spectators` but not in the group, and the invariant would not hold for it.
- What Node does after an uncaught throw is represented only as the process ending (`Runs.RunAsWritten`). The printed stack trace and any restart by a supervisor are not modelled.
- Common.Move: the relayed payload is always a `{from, to, promotion}` object. The server would relay any payload, and chess.js also accepts a SAN string. Every property is parametric in the move, so nothing proved depends on this.
- Handlers.JoinGame: uses the corrected room lookup. A room id equal to an inherited object key (see Findings) is treated like any other id. As written, `joinGame` with such an id creates no room. It writes the first two joiners onto the inherited value's `white` and `black` properties, and the third join calls `push` on its missing `spectators` list (app.js:70).
- Runs.RunAsWritten, Runs.FirstDisconnectEndsProcess, Runs.NoDisconnectSameRun: these runs use the corrected `joinGame` lookup, so only a disconnect ends the process. As written, a third `joinGame` to an inherited object key such as "constructor" throws a TypeError at app.js:70. Nothing catches that error either, so it also ends the process. The "iff a disconnect" claim holds only for runs that never join such a room.
- Client.SquareName: is defined only on the 8x8 grid. `handleMove` is only ever called with coordinates of rendered squares.
- The client's `boardState` and `move` handlers only reload or advance its own engine. `Runs.RunReplay` covers a browser that has been in the room since its creation, and one that joined as a spectator and was sent the board (app.js:72). A player seated after moves were played is sent only its role, so it keeps a stale board until the next move (`Runs.LateBlackGetsNoBoard`).

## Findings

| source | as written | input that shows it | evidently intended | confidence | as-written member | corrected member |
|---|---|---|---|---|---|---|
| app.js:77 | The disconnect handler reads `players[gameId]`, but no `gameId` is bound in its scope, so it throws a ReferenceError on every disconnect. Nothing catches it. | Any connection closes its tab. The throw ends the Node process, every room in `players` is lost, and nothing more is served. | Free the seat the departing connection holds in its room and keep serving. | high (not executed) | Runs.RunAsWritten | Handlers.Disconnect |
| app.js:31 | `!players[gameId]` on a plain object treats inherited keys as existing rooms. | `/join-game?gameId=constructor` with no such room redirects instead of answering "Invalid Game ID". | Admit only ids of stored rooms. | medium (not executed) | Registry.JoinRouteAsWritten | Registry.JoinRoute |
| app.js:39 | The same truthiness test guards the game page. | `/game/constructor` renders the game view for a room that does not exist. | Render only for stored rooms. | medium (not executed) | Registry.GamePageAsWritten | Registry.GamePage |
