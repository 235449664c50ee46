/** The chess engine (chess.js) as an opaque oracle. Nothing about move
    legality is modelled: an `Engine` is any pair of total functions, and
    every property proved about the server holds for all of them. */
module Oracle {
  import opened Common

  /** What `chess.move(move)` comes to: it returns a move object and
      replaces its position, which `chess.fen()` then reads as `next`; it
      returns null for a move it rejects; or it throws. In the last two
      cases the position is left as it was. */
  datatype Outcome = Applied(next: Fen) | Illegal | Threw

  /** `apply` stands for `chess.move` followed by `chess.fen()`, `turn` for
      `chess.turn()`. */
  datatype Engine = Engine(apply: (Fen, Move) -> Outcome, turn: Fen -> Side)

  /** Plays `moves` one after the other from `fen`, as a client that loads
      `fen` and then calls `chess.move` for every relayed move would;
      None when the engine does not accept one of them. */
  function Replay(e: Engine, fen: Fen, moves: seq<Move>): Option<Fen>
    decreases |moves|
  {
    if |moves| == 0 then Some(fen)
    else
      match e.apply(fen, moves[0])
      case Applied(next) => Replay(e, next, moves[1..])
      case _ => None
  }

  /** Replaying a concatenation is replaying the first part and then the
      second from wherever the first one ended. */
  lemma {:induction false} ReplayAppend(e: Engine, fen: Fen, a: seq<Move>, b: seq<Move>)
    ensures Replay(e, fen, a + b) ==
              match Replay(e, fen, a)
              case Some(mid) => Replay(e, mid, b)
              case None => None
    decreases |a|
  {
    if |a| == 0 {
      assert a + b == b;
    } else {
      assert (a + b)[0] == a[0];
      assert (a + b)[1..] == a[1..] + b;
      match e.apply(fen, a[0])
      case Applied(next) =>
        ReplayAppend(e, next, a[1..], b);
      case _ =>
    }
  }

  /** Replaying a single move the engine accepts lands on the position the
      engine reported. */
  lemma ReplayOne(e: Engine, fen: Fen, m: Move)
    requires e.apply(fen, m).Applied?
    ensures Replay(e, fen, [m]) == Some(e.apply(fen, m).next)
  {
  }
}
