/** The pure rules of the browser client (public/js/chessgame.js): naming
    squares, shading them, deciding which pieces can be dragged, flipping
    the board, choosing piece glyphs and deciding which buttons show. */
module Client {
  import opened Common
  import Handlers

  // ---------------------------------------------------------------- squares

  /** A board coordinate as chess.js's `board()` lays it out: row 0 is the
      top row (rank 8), column 0 the left column (file a). */
  predicate OnBoard(row: int, col: int)
  {
    0 <= row < 8 && 0 <= col < 8
  }

  /** Reads an algebraic square name back into a board coordinate; None for
      anything that is not a file letter a-h followed by a rank digit 1-8. */
  function ParseSquare(name: string): (r: Option<(int, int)>)
    ensures r.Some? ==> OnBoard(r.value.0, r.value.1)
  {
    if |name| == 2 && 'a' <= name[0] <= 'h' && '1' <= name[1] <= '8' then
      Some(('8' as int - name[1] as int, name[0] as int - 'a' as int))
    else None
  }

  /** `${String.fromCharCode(97 + col)}${8 - row}`: the file letter for the
      column and the rank digit for the row. */
  function SquareName(row: int, col: int): (name: string)
    requires OnBoard(row, col)
    ensures |name| == 2 && 'a' <= name[0] <= 'h' && '1' <= name[1] <= '8'
    ensures ParseSquare(name) == Some((row, col))
  {
    [(97 + col) as char, ('0' as int + (8 - row)) as char]
  }

  /** Every well-formed square name is the name of the coordinate it
      parses to, so the two functions are inverse bijections between the
      8x8 grid and a1..h8. */
  lemma ParseThenName(name: string)
    requires ParseSquare(name).Some?
    ensures SquareName(ParseSquare(name).value.0, ParseSquare(name).value.1) == name
  {
  }

  /** Distinct coordinates get distinct names. */
  lemma SquareNameInjective(r1: int, c1: int, r2: int, c2: int)
    requires OnBoard(r1, c1) && OnBoard(r2, c2)
    requires SquareName(r1, c1) == SquareName(r2, c2)
    ensures r1 == r2 && c1 == c2
  {
  }

  /** Row 0 is rank 8 and row 7 is rank 1; column c is the c-th file. */
  lemma RanksAndFiles(col: int)
    requires 0 <= col < 8
    ensures SquareName(0, col)[1] == '8' && SquareName(7, col)[1] == '1'
    ensures SquareName(0, 0) == "a8" && SquareName(7, 7) == "h1"
    ensures SquareName(7, 0) == "a1" && SquareName(0, 7) == "h8"
  {
  }

  /** handleMove: the move sent to the server for a drag from `source` to
      `target`. It always asks for promotion to a queen. */
  function HandleMove(source: (int, int), target: (int, int)): (m: Move)
    requires OnBoard(source.0, source.1) && OnBoard(target.0, target.1)
    ensures m.promotion == "q"
    ensures ParseSquare(m.from) == Some(source) && ParseSquare(m.to) == Some(target)
  {
    Move(SquareName(source.0, source.1), SquareName(target.0, target.1), "q")
  }

  // ---------------------------------------------------------------- shading

  datatype Shade = Light | Dark

  /** `(rowIndex + squareIndex) % 2 === 0 ? "light" : "dark"`; the indices
      are never negative, so JavaScript's `%` and Dafny's agree. */
  function ShadeOf(row: nat, col: nat): (shade: Shade)
    ensures shade == Light <==> row % 2 == col % 2
  {
    if (row + col) % 2 == 0 then Light else Dark
  }

  /** Squares that share a side differ in shade; diagonal neighbours agree. */
  lemma NeighbouringShades(row: nat, col: nat)
    ensures ShadeOf(row, col) != ShadeOf(row + 1, col)
    ensures ShadeOf(row, col) != ShadeOf(row, col + 1)
    ensures ShadeOf(row, col) == ShadeOf(row + 1, col + 1)
  {
  }

  /** The board follows the chess convention: a1 and h8 are dark, h1 and
      a8 are light. */
  lemma CornerShades()
    ensures SquareName(7, 0) == "a1" && ShadeOf(7, 0) == Dark
    ensures SquareName(0, 7) == "h8" && ShadeOf(0, 7) == Dark
    ensures SquareName(7, 7) == "h1" && ShadeOf(7, 7) == Light
    ensures SquareName(0, 0) == "a8" && ShadeOf(0, 0) == Light
  {
  }

  // ---------------------------------------------------------------- roles

  /** The client's `playerRole`: null until the server assigns "w" or "b",
      or "spectator" once the spectator button was clicked. */
  datatype Role = NoRole | WhiteRole | BlackRole | SpectatorRole

  /** The string `playerRole` holds, None for null. */
  function RoleCode(role: Role): Option<string>
  {
    match role
    case NoRole => None
    case WhiteRole => Some("w")
    case BlackRole => Some("b")
    case SpectatorRole => Some("spectator")
  }

  /** A piece of chess.js's `board()`: its type is one of the lower-case
      letters p, n, b, r, q, k whatever its colour. */
  datatype Piece = Piece(kind: char, color: Side)

  predicate EngineKind(kind: char)
  {
    kind in "pnbrqk"
  }

  /** `playerRole === square.color`: a piece can be dragged exactly by the
      player of its colour, never with no role or as a spectator. */
  function Draggable(role: Role, piece: Piece): (r: bool)
    ensures r <==> ((role == WhiteRole && piece.color == White)
                    || (role == BlackRole && piece.color == Black))
    ensures role == NoRole || role == SpectatorRole ==> !r
  {
    RoleCode(role) == Some(SideCode(piece.color))
  }

  /** The board carries the "flipped" class exactly for the black player. */
  function Flipped(role: Role): (r: bool)
    ensures r <==> role == BlackRole
  {
    RoleCode(role) == Some("b")
  }

  /** The client's "playerRole" handler takes the role the server sends.
      There is no handler for "spectatorRole", so every other event leaves
      the role as it was. */
  function OnServerEvent(role: Role, ev: Handlers.Event): (r: Role)
    ensures ev.PlayerRole? ==> RoleCode(r) == Some(SideCode(ev.side))
    ensures !ev.PlayerRole? ==> r == role
  {
    match ev
    case PlayerRole(White) => WhiteRole
    case PlayerRole(Black) => BlackRole
    case _ => role
  }

  /** The role a client holds after receiving the events addressed to it,
      in order. */
  function RoleAfter(role: Role, effects: seq<Handlers.Effect>, conn: ConnId): Role
    decreases |effects|
  {
    if |effects| == 0 then role
    else
      var next := if effects[0].ToSelf? && effects[0].conn == conn
                  then OnServerEvent(role, effects[0].event) else role;
      RoleAfter(next, effects[1..], conn)
  }

  // ---------------------------------------------------------------- glyphs

  /** The table of getPieceUnicode: lower-case letters map to the outlined
      ("white") glyphs, upper-case letters to the filled ("black") ones. */
  const Glyphs: map<char, char> := map[
    'p' := '♙', 'r' := '♖', 'n' := '♘', 'b' := '♗',
    'q' := '♕', 'k' := '♔', 'P' := '♟', 'R' := '♜',
    'N' := '♞', 'B' := '♝', 'Q' := '♛', 'K' := '♚'
  ]

  /** getPieceUnicode: the glyph for a piece type, or "" for any type not in
      the table. The type is a single character, so it cannot name one of
      the keys a JavaScript object inherits. */
  function PieceGlyph(kind: char): (g: string)
    ensures |g| <= 1
    ensures g == "" <==> kind !in Glyphs
    ensures g != "" ==> '♔' <= g[0] <= '♟'
  {
    if kind in Glyphs then [Glyphs[kind]] else ""
  }

  /** The twelve glyphs are all different. */
  lemma GlyphsDistinct(a: char, b: char)
    requires a in Glyphs && b in Glyphs && a != b
    ensures PieceGlyph(a) != PieceGlyph(b)
  {
  }

  /** chess.js reports piece types in lower case, so a piece on the board
      gets an outlined glyph whichever its colour: the upper-case rows of
      the table are never used, and the two colours are told apart only by
      the "white"/"black" class. */
  lemma BoardGlyphIgnoresColour(kind: char)
    requires EngineKind(kind)
    ensures PieceGlyph(kind) != ""
    ensures '♔' <= PieceGlyph(kind)[0] <= '♙'
  {
  }

  // ---------------------------------------------------------------- buttons

  datatype Buttons = Buttons(play: bool, invite: bool, challenge: bool, spectator: bool, popup: bool)

  /** updateUI: hides everything, then shows play and invite to the white
      player before the game starts, or spectate and challenge to a client
      with no role before the game starts. */
  function UpdateUI(role: Role, started: bool): (b: Buttons)
    ensures b.play <==> role == WhiteRole && !started
    ensures b.invite <==> role == WhiteRole && !started
    ensures b.challenge <==> role == NoRole && !started
    ensures b.spectator <==> role == NoRole && !started
    ensures !(b.play && b.challenge) && !(b.invite && b.spectator)
    ensures !b.popup
  {
    if RoleCode(role) == Some("w") && !started then
      Buttons(true, true, false, false, false)
    else if !started && RoleCode(role).None? then
      Buttons(false, false, true, true, false)
    else
      Buttons(false, false, false, false, false)
  }

  /** Once the game has started no button is shown, whatever the role. */
  lemma StartedHidesEverything(role: Role)
    ensures UpdateUI(role, true) == Buttons(false, false, false, false, false)
  {
  }

  /** The black player and a client that chose to spectate never see a
      button. */
  lemma BlackAndSpectatorSeeNothing(started: bool)
    ensures UpdateUI(BlackRole, started) == Buttons(false, false, false, false, false)
    ensures UpdateUI(SpectatorRole, started) == Buttons(false, false, false, false, false)
  {
  }
}
