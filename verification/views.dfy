/** renderBoard of public/js/chessgame.js as a whole: the view of every
    square the client builds from chess.js's `board()`, and what a joining
    browser ends up showing after the server's reply to `joinGame`. */
module Views {
  import opened Common
  import opened Client
  import opened Registry
  import opened Handlers

  /** The piece element: its colour class, its text and whether it is
      draggable. */
  datatype PieceView = PieceView(colorClass: string, glyph: string, draggable: bool)

  /** The square element: its data-row/data-col, its shade and its piece. */
  datatype SquareView = SquareView(row: nat, col: nat, shade: Shade, piece: Option<PieceView>)

  /** The reference view of one square. */
  function ViewOf(square: Option<Piece>, row: nat, col: nat, role: Role): SquareView
  {
    SquareView(row, col, ShadeOf(row, col),
      match square
      case None => None
      case Some(p) =>
        Some(PieceView(if p.color == White then "white" else "black",
                       PieceGlyph(p.kind), Draggable(role, p))))
  }

  /** renderBoard: walks the board row by row and square by square, building
      the view of each, then decides whether the board is flipped. */
  method RenderBoard(board: seq<seq<Option<Piece>>>, role: Role)
    returns (view: seq<seq<SquareView>>, flipped: bool)
    ensures |view| == |board|
    ensures forall r :: 0 <= r < |board| ==> |view[r]| == |board[r]|
    ensures forall r, c :: 0 <= r < |board| && 0 <= c < |board[r]| ==>
              view[r][c] == ViewOf(board[r][c], r, c, role)
    ensures flipped <==> role == BlackRole
  {
    view := [];
    var r := 0;
    while r < |board|
      invariant 0 <= r <= |board|
      invariant |view| == r
      invariant forall i :: 0 <= i < r ==> |view[i]| == |board[i]|
      invariant forall i, c :: 0 <= i < r && 0 <= c < |board[i]| ==>
                  view[i][c] == ViewOf(board[i][c], i, c, role)
    {
      var line: seq<SquareView> := [];
      var c := 0;
      while c < |board[r]|
        invariant 0 <= c <= |board[r]|
        invariant |line| == c
        invariant forall j :: 0 <= j < c ==> line[j] == ViewOf(board[r][j], r, j, role)
      {
        line := line + [ViewOf(board[r][c], r, c, role)];
        c := c + 1;
      }
      view := view + [line];
      r := r + 1;
    }
    flipped := Flipped(role);
  }

  /** On a rendered board the draggable pieces are exactly the pieces of
      the viewer's own colour: the white player can drag every white piece
      and nothing else, and so on; a client without a seat drags nothing. */
  lemma DraggableIffOwnColour(square: Option<Piece>, row: nat, col: nat, role: Role)
    requires square.Some?
    ensures var v := ViewOf(square, row, col, role);
            v.piece.Some?
            && (v.piece.value.draggable <==>
                  (role == WhiteRole && square.value.color == White)
                  || (role == BlackRole && square.value.color == Black))
  {
  }

  /** A seated player of either colour sees its own pieces and the
      opponent's with the same glyph for the same piece type; only the
      colour class tells them apart. */
  lemma SameGlyphBothColours(kind: char, row: nat, col: nat, role: Role)
    requires EngineKind(kind)
    ensures var w := ViewOf(Some(Piece(kind, White)), row, col, role).piece.value;
            var b := ViewOf(Some(Piece(kind, Black)), row, col, role).piece.value;
            w.glyph == b.glyph && w.colorClass != b.colorClass
  {
  }

  /** What a joining browser holds after the server's reply, before the
      game starts. The first joiner is the white player, and the
      `playerRole` handler's call to updateUI shows it play and invite; the
      second is the black player and is shown no button. A third keeps no
      role at all: its "spectatorRole" event has no handler, and the
      "boardState" handler only re-renders the board, so it can drag no
      piece (its buttons are not recomputed on this path). */
  lemma JoinerButtons(s: State, conn: ConnId, g: GameId)
    ensures var sess := SessionOrNew(s, g);
            var role := RoleAfter(NoRole, JoinGame(s, conn, g).effects, conn);
            && (sess.white.None? ==> role == WhiteRole && UpdateUI(role, false).play)
            && (sess.white.Some? && sess.black.None? ==>
                  role == BlackRole && UpdateUI(role, false) == Buttons(false, false, false, false, false))
            && (sess.white.Some? && sess.black.Some? ==>
                  role == NoRole && forall p :: !Draggable(role, p))
  {
    var effs := JoinGame(s, conn, g).effects;
    var sess := SessionOrNew(s, g);
    if sess.white.Some? && sess.black.Some? {
      assert effs[1..][1..] == [];
      assert RoleAfter(NoRole, effs[1..], conn) == RoleAfter(NoRole, effs[1..][1..], conn);
    } else {
      assert effs[1..] == [];
    }
  }
}
