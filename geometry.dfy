/** The integer and rectangle arithmetic of the renderer: how many background
    tiles cover the canvas, where each tile goes, which cell of a sprite sheet
    is cut out and where on the canvas it is placed. */
module Geometry {

  /** An axis-aligned rectangle as drawImage and clearRect receive it. */
  datatype Rect = Rect(x: real, y: real, w: real, h: real)

  /** A pixel square [px, px+1) x [py, py+1) lies inside r. */
  predicate ContainsPixel(r: Rect, px: int, py: int)
  {
    r.x <= px as real && px as real + 1.0 <= r.x + r.w &&
    r.y <= py as real && py as real + 1.0 <= r.y + r.h
  }

  /** Two rectangles share no interior point. */
  predicate Disjoint(a: Rect, b: Rect)
  {
    a.x + a.w <= b.x || b.x + b.w <= a.x || a.y + a.h <= b.y || b.y + b.h <= a.y
  }

  // ---------------------------------------------------------------------------
  // The background grid

  /** The canvas size set at start-up. */
  const CanvasWidth: nat := 800
  const CanvasHeight: nat := 500
  /** TILE_SIZE: the side of one grass tile in canvas pixels. */
  const TileSize: nat := 30

  /** Math.ceil. */
  function Ceil(r: real): (c: int)
    ensures r <= c as real < r + 1.0
  {
    -((-r).Floor)
  }

  /** Math.ceil(extent / tile): the fewest tiles of side `tile` whose row
      reaches across `extent` pixels. */
  function TileCount(extent: nat, tile: nat): (n: nat)
    requires tile > 0
    ensures n * tile >= extent
    ensures n == 0 || (n - 1) * tile < extent
  {
    var q := extent as real / tile as real;
    var c := Ceil(q);
    CeilScaled(extent, tile, c);
    c
  }

  lemma CeilScaled(extent: nat, tile: nat, c: int)
    requires tile > 0
    requires extent as real / tile as real <= c as real < extent as real / tile as real + 1.0
    ensures c >= 0 && c * tile >= extent && (c == 0 || (c - 1) * tile < extent)
  {
    var e, t := extent as real, tile as real;
    DivMul(e, t);
    AtLeast(e / t, c, tile, e);
    Below(e / t, c - 1, tile, e);
  }

  /** a <= c, scaled by tile. */
  lemma AtLeast(a: real, c: int, tile: nat, e: real)
    requires tile > 0 && a * tile as real == e && a <= c as real
    ensures (c * tile) as real >= e
  {
    ScaleLe(a, c as real, tile as real);
    IntRealMul(c, tile);
  }

  /** c < a, scaled by tile. */
  lemma Below(a: real, c: int, tile: nat, e: real)
    requires tile > 0 && a * tile as real == e && c as real < a
    ensures (c * tile) as real < e
  {
    ScaleLt(c as real, a, tile as real);
    IntRealMul(c, tile);
  }

  lemma DivMul(e: real, t: real)
    requires t > 0.0
    ensures (e / t) * t == e
  {
  }

  lemma IntRealMul(a: int, b: int)
    ensures (a * b) as real == a as real * b as real
  {
  }

  lemma ScaleLe(a: real, b: real, t: real)
    requires a <= b && t > 0.0
    ensures a * t <= b * t
  {
  }

  lemma ScaleLt(a: real, b: real, t: real)
    requires a < b && t > 0.0
    ensures a * t < b * t
  {
  }

  /** The background grid of the 800 x 500 canvas: 17 rows of 27 tiles. */
  lemma CanvasGrid()
    ensures TileCount(CanvasHeight, TileSize) == 17
    ensures TileCount(CanvasWidth, TileSize) == 27
  {
  }

  /** Where the grass tile of grid cell (row, col) is drawn. */
  function GrassTile(row: int, col: int): (r: Rect)
    ensures r.w == TileSize as real && r.h == TileSize as real
  {
    Rect((col * TileSize) as real, (row * TileSize) as real, TileSize as real, TileSize as real)
  }

  /** Every pixel lies in the tile of cell (py / TileSize, px / TileSize). */
  lemma PixelInTile(px: nat, py: nat)
    ensures ContainsPixel(GrassTile(py / TileSize, px / TileSize), px, py)
  {
  }

  /** The tiles of distinct cells do not overlap. */
  lemma TilesDisjoint(r1: int, c1: int, r2: int, c2: int)
    requires (r1, c1) != (r2, c2)
    ensures Disjoint(GrassTile(r1, c1), GrassTile(r2, c2))
  {
    if c1 < c2 {
      assert (c1 + 1) * TileSize <= c2 * TileSize;
    } else if c2 < c1 {
      assert (c2 + 1) * TileSize <= c1 * TileSize;
    } else if r1 < r2 {
      assert (r1 + 1) * TileSize <= r2 * TileSize;
    } else {
      assert (r2 + 1) * TileSize <= r1 * TileSize;
    }
  }

  // ---------------------------------------------------------------------------
  // Sprite sheets

  /** The natural pixel size of a loaded image. */
  datatype Sheet = Sheet(width: nat, height: nat)

  /** WALK_COLS and WALK_ROWS: drawSprite cuts every sheet into this grid, and
      WALK_ROWS is also the length of the walk cycle update() counts through. */
  const WalkCols: nat := 4
  const WalkRows: nat := 4

  /** The size of one cell of the sheet (sheet.width / WALK_COLS, sheet.height / WALK_ROWS). */
  function CellWidth(sheet: Sheet): real
  {
    sheet.width as real / WalkCols as real
  }

  function CellHeight(sheet: Sheet): real
  {
    sheet.height as real / WalkRows as real
  }

  /** The source rectangle drawSprite cuts for (frameRow, frameCol). */
  function SpriteSource(sheet: Sheet, row: int, col: int): Rect
  {
    Rect(col as real * CellWidth(sheet), row as real * CellHeight(sheet), CellWidth(sheet), CellHeight(sheet))
  }

  /** A cell of the 4 x 4 grid is a quarter of the sheet each way and lies
      inside the sheet. */
  lemma SourceInsideSheet(sheet: Sheet, row: int, col: int)
    requires 0 <= row < WalkRows as int && 0 <= col < WalkCols as int
    ensures var r := SpriteSource(sheet, row, col);
      WalkCols as real * r.w == sheet.width as real &&
      WalkRows as real * r.h == sheet.height as real &&
      0.0 <= r.x && r.x + r.w <= sheet.width as real &&
      0.0 <= r.y && r.y + r.h <= sheet.height as real
  {
    var w, h := CellWidth(sheet), CellHeight(sheet);
    assert 4.0 * w == sheet.width as real && 4.0 * h == sheet.height as real;
    assert col as real * w + w == (col + 1) as real * w;
    assert row as real * h + h == (row + 1) as real * h;
    assert (col + 1) as real * w <= 4.0 * w;
    assert (row + 1) as real * h <= 4.0 * h;
  }

  /** Distinct cells of a sheet do not overlap. */
  lemma SourceCellsDisjoint(sheet: Sheet, r1: int, c1: int, r2: int, c2: int)
    requires (r1, c1) != (r2, c2)
    ensures Disjoint(SpriteSource(sheet, r1, c1), SpriteSource(sheet, r2, c2))
  {
    var w, h := CellWidth(sheet), CellHeight(sheet);
    var a, b := SpriteSource(sheet, r1, c1), SpriteSource(sheet, r2, c2);
    if c1 < c2 {
      CellsApart(a.x, b.x, c1, c2, a.w);
    } else if c2 < c1 {
      CellsApart(b.x, a.x, c2, c1, a.w);
    } else if r1 < r2 {
      CellsApart(a.y, b.y, r1, r2, a.h);
    } else {
      CellsApart(b.y, a.y, r2, r1, a.h);
    }
  }

  /** A cell of size w at a lower index ends where a later one may start. */
  lemma CellsApart(start1: real, start2: real, i: int, j: int, w: real)
    requires i < j && w >= 0.0
    requires start1 == i as real * w && start2 == j as real * w
    ensures start1 + w <= start2
  {
    var k := (j - i) as real;
    assert start2 - start1 == k * w;
    assert k >= 1.0;
    assert k * w - w == (k - 1.0) * w;
    assert (k - 1.0) * w >= 0.0;
  }

  /** playerBlock.width and playerBlock.height: the size the sprite is drawn at. */
  const PlayerWidth: real := 64.0
  const PlayerHeight: real := 80.0

  /** walkOffset and idleOffset: per-pose nudges of the drawn sprite. */
  datatype Offset = Offset(x: real, y: real)
  const WalkOffset: Offset := Offset(0.0, 5.0)
  const IdleOffset: Offset := Offset(0.0, 5.0)

  /** The destination drawSprite uses: the player block's size, placed so that
      its bottom-centre point is the player position moved by the offset. */
  function SpriteDest(px: real, py: real, offset: Offset): (r: Rect)
    ensures r.w == PlayerWidth && r.h == PlayerHeight
    ensures r.x + r.w / 2.0 == px + offset.x
    ensures r.y + r.h == py + offset.y
  {
    Rect(px - PlayerWidth / 2.0 + offset.x, py - PlayerHeight + offset.y, PlayerWidth, PlayerHeight)
  }
}
