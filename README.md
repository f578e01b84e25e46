# Chess pieces

A Dafny model of the chess-piece data model of a Python chess GUI
(`src/piece.py`). A `Piece` is an object with public fields: `name`,
`color`, `value`, `texture`, `texture_rect`, `moves` and `moved`. A pawn
also has `dir`. The six variants (`Pawn`, `Knight`, `Bishop`, `Rook`,
`Queen`, `King`) differ only in the literal name and base value they pass
to the base constructor, plus the pawn's direction.

Layout:

- `options.dfy` (module `Options`): `Option`, standing for Python's `None`
  versus a present value.
- `decimal.dfy` (module `Decimal`): how the f-string renders the integer
  image size (`IntToString`), with its inverse `ParseInt` and both
  round-trip lemmas.
- `piece.dfy` (module `Pieces`):
  - the variants, as the datatype `Kind` with `KindName` and `BaseValue`;
  - the sign and value rule (`Sign`, `SignedValue`) and the pawn direction
    (`PawnDir`);
  - the texture path (`TexturePath`) and its reader (`TextureSize`);
  - the class `Piece`, whose fields the methods update in place. Its
    `State()` is a snapshot of every field, and pure functions
    (`InitialState`, `VariantState`, `WithTexture`) give the state each
    operation leaves behind.

`Piece.__init__` is the class constructor. The six variant constructors
are `NewPiece(kind, color)`, which calls the base constructor with the
variant's name and value and then sets `dir` for a pawn. `set_texture` is
`Piece.SetTexture`. Its frame (`modifies this`texture`) and its
postcondition say that only `texture` changes.

Any colour string other than exactly `"white"` gets the negative sign and
the pawn direction `+1`. The model keeps this unvalidated behaviour;
`Sign` and `NonWhiteIsBlack` state it.

## Model

| member | source | states |
|---|---|---|
| `Pieces.Sign` | src/piece.py:30 | the sign is +1 or -1, and +1 exactly when the colour is the string "white" |
| `Pieces.SignedValue` | src/piece.py:30-31 | a white piece carries its base value; a piece of any other colour carries its negation |
| `Pieces.NonWhiteIsBlack` | src/piece.py:30 | any colour string other than "white", valid or not, gives the same value as "black", which is the negation of the white value |
| `Pieces.PawnDir` | src/piece.py:63 | a pawn's direction is the opposite of its colour's sign: -1 for "white", +1 for every other string |
| `Pieces.KindName` | src/piece.py:64-134 | defines each variant's name as the literal its constructor passes: "pawn", "knight", "bishop", "rook", "queen", "king" |
| `Pieces.TexturePath` | src/piece.py:44-46 | defines the path as "assets/images/imgs-" + decimal size + "px/" + colour + "_" + name + ".png" |
| `Pieces.InitialState` | src/piece.py:28-35 | defines the state `Piece.__init__` leaves: the given name, colour and rectangle, the signed value, the texture for size 80, no moves, not moved and no `dir` |
| `Pieces.VariantState` | src/piece.py:56-134 | defines the state a variant's constructor leaves: the initial state for the variant's name and base value with no rectangle, plus `dir` from the colour for a pawn only |
| `Pieces.WithTexture` | src/piece.py:44-46 | defines the state after `set_texture(size)`: the old state with `texture` replaced by the path for that size and the state's own colour and name |
| `Pieces.BaseValue` | src/piece.py:64-134 | every variant's base value is at least 1 |
| `Pieces.Piece.constructor` | src/piece.py:17-35 | the new object's state is `InitialState(name, color, value, textureRect)`, which holds the given name, colour and rectangle, the signed value, the default-size texture, no moves, not moved and no `dir`, and does not depend on the `texture` argument |
| `Pieces.Piece.SetTexture` | src/piece.py:37-46 | `texture` becomes the path for the given size (default 80) and every other field keeps its value |
| `Pieces.NewPiece` | src/piece.py:48-134 | a variant's constructor yields a fresh piece whose state is the base construction with the variant's name and base value, and a `dir` only for a pawn |
| `Pieces.InitialStateFacts` | src/piece.py:28-35 | after construction: value is base for "white" and -base otherwise, moves empty, moved false, texture "assets/images/imgs-80px/" + colour + "_" + name + ".png", rectangle as passed |
| `Pieces.DefaultSizeRendering` | src/piece.py:37 | the default size 80 renders as the text "80" in the path |
| `Pieces.VariantTable` | src/piece.py:63-134 | the names and values per variant (pawn 1, knight 3, bishop 3, rook 5, queen 9, king 10000), positive for "white" and negative otherwise, and the pawn's direction |
| `Pieces.VariantStateFacts` | src/piece.py:56-134 | every variant starts unmoved, with no moves, no rectangle and the default texture, and has `dir` exactly when it is a pawn |
| `Pieces.KindNameInjective` | src/piece.py:64-134 | distinct variants carry distinct names |
| `Pieces.KingOutweighs` | src/piece.py:134 | the absolute value of a king exceeds that of every other variant, for any two colours |
| `Pieces.TextureSizeOfPath` | src/piece.py:44-46 | the size can be read back from the path built for it |
| `Pieces.TexturePathOfSize` | src/piece.py:44-46 | every path that reads back as a size is exactly the path built for that size |
| `Pieces.TexturePathInjective` | src/piece.py:44-46 | different sizes give different paths for the same colour and name |
| `Pieces.WithTextureLastWins` | src/piece.py:37-46 | setting the texture twice leaves the state of the second call alone; with the same size twice, the same state as once |
| `Pieces.WithTextureKeepsIdentity` | src/piece.py:44-46 | after setting the texture, the state differs from before only in `texture`, and that texture reads back as the requested size |
| `Decimal.IntToString` | src/piece.py:45 | the rendering of any integer is non-empty: a minus sign for a negative number, followed by the canonical digits of its magnitude |
| `Decimal.NatToString` | src/piece.py:45 | a natural number renders as non-empty decimal digits with no leading zero |
| `Decimal.ParseNatToString` | src/piece.py:45 | reading the rendered digits gives back the number |
| `Decimal.NatToStringParse` | src/piece.py:45 | every canonical digit string is the rendering of the number it denotes |
| `Decimal.ParseIntToString` | src/piece.py:45 | the rendering of any integer, negatives included, reads back as that integer |
| `Decimal.IntToStringParse` | src/piece.py:45 | every string that reads back as an integer is that integer's rendering |
| `Decimal.IntToStringInjective` | src/piece.py:45 | different integers render differently |

## Left out

- Floating point: Python stores `value` as a float. Every constant is a whole number and the only operation is a multiplication by +1 or -1, so the model uses exact `real` arithmetic.
- Platform paths: `os.path.join` gets one argument and returns it unchanged, so the path is plain string concatenation. Separators are not modelled.
- Size rendering: the model takes `size` as an integer and renders it in canonical decimal. Python would also accept other types there (a float, a string) and render them with `str`; those are not modelled. Python also refuses, by default, to render an integer of more than 4300 digits and raises `ValueError` in `set_texture`; the model renders every integer and has no such error path.
- Moves and movement: `moves` and `moved` are only given their initial values. Move generation and move application write them from outside this file and are not part of this model. A move is an abstract type.
- Texture rectangle: `texture_rect` is stored as given and never interpreted. The model gives it four numbers.
- Dynamic attributes: in Python only a `Pawn` object has a `dir` attribute. The model gives every piece a `dir` field, `None` when the attribute is absent.
- Class hierarchy: the six subclasses become one `Kind` datatype and one method `NewPiece`, because no subclass overrides any behaviour. Python sets a pawn's `dir` before calling the base constructor, while `NewPiece` sets it afterwards. Python's `Piece.__init__` does not touch `dir`; the model's constructor sets it to `None`, and `NewPiece` overwrites it for a pawn, so the resulting state is the same. A Python object also keeps its class, so `isinstance(p, Pawn)` works; a model `Piece` does not record its variant, which shows only through its writable `name` and `dir` fields.
