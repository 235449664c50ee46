/** Vocabulary shared by the server (app.js) and the browser client
    (public/js/chessgame.js): sides, connection and room identifiers,
    positions and the move payload that travels between them. */
module Common {

  /** The usual Some/None datatype, standing in for JavaScript's
      null/undefined. */
  datatype Option<+T> = None | Some(value: T)

  /** The two colours, written "w" and "b" on the wire and by chess.js. */
  datatype Side = White | Black

  /** A socket.io connection id. socket.io never hands out an empty id, so a
      seat holding one is always truthy in the source's `!seat` tests. */
  type ConnId = s: string | |s| > 0 witness "c"

  /** A room id: a uuid for rooms made by /create-game, but `joinGame` and
      `move` accept whatever string the client sends. */
  type GameId = string

  /** A position, identified with its FEN serialisation (the only form in
      which the server ever exposes it). */
  type Fen = string

  /** The move object built by the client and relayed by the server. */
  datatype Move = Move(from: string, to: string, promotion: string)

  /** The position of a fresh `new Chess()`. */
  const StartFen: Fen := "rnbqkbnr/pppppppp/8/8/8/8/PPPPPPPP/RNBQKBNR w KQkq - 0 1"

  /** The one-letter code chess.js and the wire protocol use for a side. */
  function SideCode(side: Side): (code: string)
    ensures |code| == 1
    ensures code == "w" <==> side == White
    ensures code == "b" <==> side == Black
  {
    match side
    case White => "w"
    case Black => "b"
  }

}
