/**
 * The chess-piece data model of src/piece.py: a `Piece` object whose fields
 * the rest of the application reads and writes, the six fixed variants
 * (pawn, knight, bishop, rook, queen, king), the signed material value and
 * the texture path derived from colour, name and image size.
 */
module Pieces {
  import opened Options
  import opened Decimal

  /** An entry of `moves`; filled in by move generation, which is not part of this model. */
  type Move

  /** The four numbers a renderer passes as `texture_rect`; only stored here. */
  datatype Rect = Rect(left: real, top: real, width: real, height: real)

  /** The six variants; each one only fixes a name and a base value. */
  datatype Kind = Pawn | Knight | Bishop | Rook | Queen | King

  /** Image size used when none is given. */
  const DefaultSize: int := 80

  function KindName(k: Kind): string {
    match k
    case Pawn => "pawn"
    case Knight => "knight"
    case Bishop => "bishop"
    case Rook => "rook"
    case Queen => "queen"
    case King => "king"
  }

  /** Unsigned material worth of a variant. */
  function BaseValue(k: Kind): (b: real)
    ensures b >= 1.0
  {
    match k
    case Pawn => 1.0
    case Knight => 3.0
    case Bishop => 3.0
    case Rook => 5.0
    case Queen => 9.0
    case King => 10000.0
  }

  /** The sign of a colour: only the exact string "white" is positive; any other string counts as black. */
  function Sign(color: string): (s: int)
    ensures s == 1 || s == -1
    ensures s == 1 <==> color == "white"
  {
    if color == "white" then 1 else -1
  }

  /** The value a piece of base value `base` carries for `color`. */
  function SignedValue(base: real, color: string): (v: real)
    ensures color == "white" ==> v == base
    ensures color != "white" ==> v == -base
  {
    base * Sign(color) as real
  }

  /** A pawn's rank increment: opposite to its colour's sign, so white moves toward lower ranks. */
  function PawnDir(color: string): (d: int)
    ensures d == -Sign(color)
  {
    if color == "white" then -1 else 1
  }

  function Abs(x: real): real {
    if x < 0.0 then -x else x
  }

  /** Image path for a given size, colour and name. */
  function TexturePath(size: int, color: string, name: string): string {
    "assets/images/imgs-" + IntToString(size) + "px/" + color + "_" + name + ".png"
  }

  /** Recovers the size from a texture path of the given colour and name, if it is one. */
  function TextureSize(path: string, color: string, name: string): Option<int> {
    var head := "assets/images/imgs-";
    var tail := "px/" + color + "_" + name + ".png";
    if |path| >= |head| + |tail| && path[..|head|] == head && path[|path| - |tail|..] == tail then
      ParseInt(path[|head|..|path| - |tail|])
    else
      None
  }

  /** Every field of a piece at one moment; `dir` is `None` for a piece that has no such attribute. */
  datatype PieceState = PieceState(
    name: string,
    color: string,
    value: real,
    texture: string,
    textureRect: Option<Rect>,
    moves: seq<Move>,
    moved: bool,
    dir: Option<int>)

  /** The state `Piece.__init__` leaves behind. */
  function InitialState(name: string, color: string, base: real, textureRect: Option<Rect>): PieceState {
    PieceState(name, color, SignedValue(base, color), TexturePath(DefaultSize, color, name),
               textureRect, [], false, None)
  }

  /** The state a variant's constructor leaves behind. */
  function VariantState(k: Kind, color: string): PieceState {
    InitialState(KindName(k), color, BaseValue(k), None)
      .(dir := if k == Pawn then Some(PawnDir(color)) else None)
  }

  /** The state after `set_texture(size)`. */
  function WithTexture(st: PieceState, size: int): PieceState {
    st.(texture := TexturePath(size, st.color, st.name))
  }

  class Piece {
    var name: string
    var color: string
    var value: real
    var texture: string
    var textureRect: Option<Rect>
    var moves: seq<Move>
    var moved: bool
    var dir: Option<int>

    function State(): PieceState
      reads this
    {
      PieceState(name, color, value, texture, textureRect, moves, moved, dir)
    }

    /** `Piece.__init__`: the `texture` argument is accepted and then overwritten. */
    constructor (name: string, color: string, value: real,
                 texture: Option<string> := None, textureRect: Option<Rect> := None)
      ensures State() == InitialState(name, color, value, textureRect)
    {
      this.name := name;
      this.color := color;
      this.value := SignedValue(value, color);
      this.moves := [];
      this.moved := false;
      this.dir := None;
      new;
      SetTexture();
      this.textureRect := textureRect;
    }

    /** Recomputes `texture` for an image size; no other field changes. */
    method SetTexture(size: int := DefaultSize)
      modifies this`texture
      ensures State() == WithTexture(old(State()), size)
    {
      texture := TexturePath(size, color, name);
    }
  }

  /** The constructors `Pawn(color)` … `King(color)`: a base piece with the variant's name and value, plus `dir` for a pawn. */
  method NewPiece(k: Kind, color: string) returns (p: Piece)
    ensures fresh(p)
    ensures p.State() == VariantState(k, color)
  {
    var d := if k == Pawn then Some(PawnDir(color)) else None;
    p := new Piece(KindName(k), color, BaseValue(k));
    p.dir := d;
  }

  // ---------------------------------------------------------------------
  // Properties of the model

  /** The sign is decided by the colour alone and flips between white and anything else. */
  lemma NonWhiteIsBlack(base: real, color: string)
    requires color != "white"
    ensures SignedValue(base, color) == SignedValue(base, "black") == -SignedValue(base, "white")
  {
  }

  lemma DefaultSizeRendering()
    ensures IntToString(DefaultSize) == "80"
  {
    assert NatToString(8) == "8";
  }

  /** A fresh piece: signed value, empty bookkeeping, default-size texture, rectangle as given. */
  lemma InitialStateFacts(name: string, color: string, base: real, textureRect: Option<Rect>)
    ensures var st := InitialState(name, color, base, textureRect);
      && st.name == name && st.color == color
      && st.value == (if color == "white" then base else -base)
      && st.moves == [] && !st.moved
      && st.texture == "assets/images/imgs-80px/" + color + "_" + name + ".png"
      && st.textureRect == textureRect
      && st.dir == None
  {
    DefaultSizeRendering();
  }

  /** The table of variants: names, values for both colours, and a pawn's direction. */
  lemma VariantTable(color: string)
    ensures var w := if color == "white" then 1.0 else -1.0;
      && VariantState(Pawn, color).name == "pawn" && VariantState(Pawn, color).value == w
      && VariantState(Knight, color).name == "knight" && VariantState(Knight, color).value == 3.0 * w
      && VariantState(Bishop, color).name == "bishop" && VariantState(Bishop, color).value == 3.0 * w
      && VariantState(Rook, color).name == "rook" && VariantState(Rook, color).value == 5.0 * w
      && VariantState(Queen, color).name == "queen" && VariantState(Queen, color).value == 9.0 * w
      && VariantState(King, color).name == "king" && VariantState(King, color).value == 10000.0 * w
      && VariantState(Pawn, color).dir == Some(if color == "white" then -1 else 1)
  {
  }

  /** Only a pawn has `dir`; every variant starts unmoved with no moves and no rectangle. */
  lemma VariantStateFacts(k: Kind, color: string)
    ensures var st := VariantState(k, color);
      && st.name == KindName(k) && st.color == color
      && st.value == SignedValue(BaseValue(k), color)
      && st.moves == [] && !st.moved && st.textureRect == None
      && st.texture == TexturePath(DefaultSize, color, KindName(k))
      && (st.dir.Some? <==> k == Pawn)
  {
  }

  /** Distinct variants have distinct names. */
  lemma KindNameInjective(j: Kind, k: Kind)
    requires KindName(j) == KindName(k)
    ensures j == k
  {
  }

  /** A king outweighs every other piece, whatever the two colours. */
  lemma KingOutweighs(k: Kind, c1: string, c2: string)
    requires k != King
    ensures Abs(SignedValue(BaseValue(k), c1)) < Abs(SignedValue(BaseValue(King), c2))
  {
  }

  /** The texture path determines the size it was built from. */
  lemma TextureSizeOfPath(size: int, color: string, name: string)
    ensures TextureSize(TexturePath(size, color, name), color, name) == Some(size)
  {
    var head, digits := "assets/images/imgs-", IntToString(size);
    var tail := "px/" + color + "_" + name + ".png";
    var path := TexturePath(size, color, name);
    assert path == head + digits + tail;
    assert path[..|head|] == head;
    assert path[|path| - |tail|..] == tail;
    assert path[|head|..|path| - |tail|] == digits;
    ParseIntToString(size);
  }

  /** Every path that reads back as a size is the texture path of that size. */
  lemma TexturePathOfSize(path: string, color: string, name: string, size: int)
    requires TextureSize(path, color, name) == Some(size)
    ensures TexturePath(size, color, name) == path
  {
    var head := "assets/images/imgs-";
    var tail := "px/" + color + "_" + name + ".png";
    var digits := path[|head|..|path| - |tail|];
    IntToStringParse(digits, size);
    assert path == head + digits + tail;
  }

  /** Two sizes give the same path only if they are equal. */
  lemma TexturePathInjective(s1: int, s2: int, color: string, name: string)
    requires TexturePath(s1, color, name) == TexturePath(s2, color, name)
    ensures s1 == s2
  {
    TextureSizeOfPath(s1, color, name);
    TextureSizeOfPath(s2, color, name);
  }

  /** Setting the texture twice with the same size is the same as once; the last size wins. */
  lemma WithTextureLastWins(st: PieceState, s1: int, s2: int)
    ensures WithTexture(WithTexture(st, s1), s2) == WithTexture(st, s2)
    ensures WithTexture(WithTexture(st, s1), s1) == WithTexture(st, s1)
  {
  }

  /** `set_texture` changes nothing but the texture, so a variant's identity survives it. */
  lemma WithTextureKeepsIdentity(st: PieceState, size: int)
    ensures var st' := WithTexture(st, size);
      && st'.(texture := st.texture) == st
      && TextureSize(st'.texture, st.color, st.name) == Some(size)
  {
    TextureSizeOfPath(size, st.color, st.name);
  }
}
