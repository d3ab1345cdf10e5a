/** The draw step as the list of canvas calls it makes: clear the canvas,
    tile the grass background, then blit one cell of the walk or idle sheet. */
module Render {
  import opened Geometry
  import opened Motion

  /** The three images loaded at start-up. */
  datatype Image = Walk | Idle | Grass

  /** One canvas call with the numbers passed to it. */
  datatype DrawCall =
    | ClearRect(area: Rect)
    | DrawImage(image: Image, dest: Rect)
    | DrawSubImage(image: Image, source: Rect, dest: Rect)

  // ---------------------------------------------------------------------------
  // drawGrass

  /** The first n tiles of grid row `row`, left to right. */
  function TileRow(row: nat, n: nat): seq<DrawCall>
  {
    seq(n, c requires 0 <= c < n => DrawImage(Grass, GrassTile(row, c)))
  }

  /** The tiles of the first `rows` grid rows, row by row. */
  function Tiles(rows: nat, cols: nat): seq<DrawCall>
  {
    if rows == 0 then [] else Tiles(rows - 1, cols) + TileRow(rows - 1, cols)
  }

  /** The calls drawGrass makes on a canvas of the given size. */
  function GrassCalls(width: nat, height: nat): seq<DrawCall>
  {
    Tiles(TileCount(height, TileSize), TileCount(width, TileSize))
  }

  /** drawGrass: a tile for every cell, rows outside, columns inside. */
  method DrawGrass(width: nat, height: nat) returns (calls: seq<DrawCall>)
    ensures calls == GrassCalls(width, height)
  {
    var rows := TileCount(height, TileSize);
    var cols := TileCount(width, TileSize);
    calls := [];
    var y := 0;
    while y < rows
      invariant 0 <= y <= rows
      invariant calls == Tiles(y, cols)
    {
      var x := 0;
      while x < cols
        invariant 0 <= x <= cols
        invariant calls == Tiles(y, cols) + TileRow(y, x)
      {
        assert TileRow(y, x + 1) == TileRow(y, x) + [DrawImage(Grass, GrassTile(y, x))];
        calls := calls + [DrawImage(Grass, GrassTile(y, x))];
        x := x + 1;
      }
      y := y + 1;
    }
  }

  lemma {:induction false} TilesLength(rows: nat, cols: nat)
    ensures |Tiles(rows, cols)| == rows * cols
  {
    if rows > 0 {
      TilesLength(rows - 1, cols);
      assert (rows - 1) * cols + cols == rows * cols;
    }
  }

  /** Distinct cells have distinct tiles. */
  lemma GrassTileInjective(r1: int, c1: int, r2: int, c2: int)
    requires GrassTile(r1, c1) == GrassTile(r2, c2)
    ensures r1 == r2 && c1 == c2
  {
  }

  /** The tile of cell (r, c) is drawn exactly when the cell lies in the grid,
      and nothing but grass tiles is drawn. */
  lemma {:induction false} TileDrawn(rows: nat, cols: nat, r: int, c: int)
    ensures DrawImage(Grass, GrassTile(r, c)) in Tiles(rows, cols) <==> 0 <= r < rows && 0 <= c < cols
    ensures forall call | call in Tiles(rows, cols) :: call.DrawImage? && call.image == Grass
  {
    if rows > 0 {
      TileDrawn(rows - 1, cols, r, c);
      var row := TileRow(rows - 1, cols);
      var t := DrawImage(Grass, GrassTile(r, c));
      if t in row {
        var k :| 0 <= k < cols && row[k] == t;
        GrassTileInjective(rows - 1, k, r, c);
      }
      if r == rows - 1 && 0 <= c < cols {
        assert row[c] == t;
      }
    }
  }

  /** The grass tiles cover every pixel of the canvas. */
  lemma GrassCoversCanvas(width: nat, height: nat, px: nat, py: nat)
    requires px < width && py < height
    ensures var tile := GrassTile(py / TileSize, px / TileSize);
      DrawImage(Grass, tile) in GrassCalls(width, height) && ContainsPixel(tile, px, py)
  {
    var rows := TileCount(height, TileSize);
    var cols := TileCount(width, TileSize);
    assert (py / TileSize) * TileSize <= py < rows * TileSize;
    assert (px / TileSize) * TileSize <= px < cols * TileSize;
    TileDrawn(rows, cols, py / TileSize, px / TileSize);
    PixelInTile(px, py);
  }

  // ---------------------------------------------------------------------------
  // drawSprite and draw

  /** drawSprite: cut cell (frameRow, frameCol) out of the sheet and draw it
      at the player position (px, py). */
  function DrawSprite(image: Image, sheet: Sheet, frameRow: int, frameCol: int, offset: Offset, px: real, py: real): DrawCall
  {
    DrawSubImage(image, SpriteSource(sheet, frameRow, frameCol), SpriteDest(px, py, offset))
  }

  /** The blit draw() asks drawSprite for: the walk sheet at (frame, direction)
      while moving, the idle sheet at (0, lastDirection) otherwise. */
  function SpriteCall(s: PlayerState, walk: Sheet, idle: Sheet): DrawCall
  {
    if s.moving then DrawSprite(Walk, walk, s.frame, s.direction, WalkOffset, s.x, s.y)
    else DrawSprite(Idle, idle, 0, s.lastDirection, IdleOffset, s.x, s.y)
  }

  /** In a valid state the sprite cell lies inside the chosen sheet, and the
      sprite stands with its bottom-centre 5 pixels below the player position. */
  lemma SpriteInsideSheet(s: PlayerState, walk: Sheet, idle: Sheet)
    requires Valid(s)
    ensures var call := SpriteCall(s, walk, idle);
      var sheet := if s.moving then walk else idle;
      call.DrawSubImage? && (call.image == Walk <==> s.moving) &&
      0.0 <= call.source.x && call.source.x + call.source.w <= sheet.width as real &&
      0.0 <= call.source.y && call.source.y + call.source.h <= sheet.height as real &&
      call.dest.x + call.dest.w / 2.0 == s.x && call.dest.y + call.dest.h == s.y + 5.0
  {
    if s.moving {
      SourceInsideSheet(walk, s.frame, s.direction);
    } else {
      SourceInsideSheet(idle, 0, s.lastDirection);
    }
  }

  /** The idle pose does not depend on the animation frame or the current facing. */
  lemma IdlePoseIgnoresFrame(s: PlayerState, walk: Sheet, idle: Sheet, frame: int, direction: int)
    requires !s.moving
    ensures SpriteCall(s, walk, idle) == SpriteCall(s.(frame := frame, direction := direction), walk, idle)
  {
  }

  /** After a moving tick, releasing every input shows the idle sheet facing
      the way the player last moved. */
  lemma ReleaseKeepsFacing(s: PlayerState, keys: Keys, joy: Joystick, walk: Sheet, idle: Sheet)
    requires Step(s, keys, joy).moving
    ensures var t := Step(s, keys, joy);
      var call := SpriteCall(Step(t, map[], Joystick(0.0, 0.0, false)), walk, idle);
      call.image == Idle && call.source == SpriteSource(idle, 0, t.direction)
  {
  }

  /** What draw() puts on the canvas for one state. */
  function Frame(s: PlayerState, walk: Sheet, idle: Sheet): seq<DrawCall>
  {
    [ClearRect(Rect(0.0, 0.0, CanvasWidth as real, CanvasHeight as real))]
    + GrassCalls(CanvasWidth, CanvasHeight)
    + [SpriteCall(s, walk, idle)]
  }

  /** A frame clears the whole canvas first, then draws the 17 x 27 grass
      tiles, and draws the sprite last, over the grass. */
  lemma FrameOrder(s: PlayerState, walk: Sheet, idle: Sheet)
    ensures var f := Frame(s, walk, idle);
      |f| == 2 + 17 * 27 &&
      f[0] == ClearRect(Rect(0.0, 0.0, 800.0, 500.0)) &&
      f[|f| - 1] == SpriteCall(s, walk, idle) &&
      forall i | 0 < i < |f| - 1 :: f[i].DrawImage? && f[i].image == Grass
  {
    var f := Frame(s, walk, idle);
    var g := GrassCalls(CanvasWidth, CanvasHeight);
    CanvasGrid();
    TilesLength(17, 27);
    TileDrawn(17, 27, 0, 0);
    forall i | 0 < i < |f| - 1
      ensures f[i].DrawImage? && f[i].image == Grass
    {
      assert f[i] == g[i - 1];
    }
  }
}
