# Pixel-Life-Simulator: the player state machine and renderer geometry

This project models the page script `app.js` of a small browser game. An
animated player sprite walks over a tiled grass background. Four on-screen
direction buttons and a virtual joystick steer it. The model covers:

- **update()**: one tick of the player state machine. Each pressed key moves
  the player block by `speed` and sets its facing. An active joystick adds
  its scaled vector and may overwrite the facing. `lastDirection` follows
  `direction` while moving. A tick counter wraps every `SPEED` ticks and then
  advances the walk frame modulo `WALK_ROWS`, or resets it to 0 when idle.
- **checkStart()**: the asset-readiness counter. It schedules the frame loop
  on the third image load.
- **drawGrass(), drawSprite(), draw()**: the numbers passed to the canvas.
  These are the tile-grid size and tile positions, the sprite-sheet cell that
  is cut out, and the destination rectangle it is drawn into.

Layout:

- `motion.dfy` (module `Motion`): the state, the phases of `update()` as
  functions (`KeyPhase`, `JoystickPhase`, `RecordFacing`, `Animate`, composed
  into `Step`), `Run` for n ticks under a held input, and the lemmas about them.
- `geometry.dfy` (module `Geometry`): rectangles, `Math.ceil`, the tile count,
  tile rectangles, sprite-sheet cells and the sprite's destination anchor.
- `render.dfy` (module `Render`): each canvas call as a `DrawCall` value.
  `DrawGrass` is the nested loop. `Frame` is the list of calls `draw()` makes.
- `app.dfy` (module `App`): class `Game` holds the module-level `playerBlock`
  position, the mutable `player` fields and `timer`. `Update` changes them in
  place and is proved equal to `Step`. `Draw` returns the frame's calls, and
  `Tick` is one iteration of `loop()`.
- `loading.dfy` (module `Loading`): class `Loader` with the `loaded` counter
  and `CheckStart`.

Modelling choices:

- Positions and the joystick vector are `real`. With integer coordinates and
  `speed = 2`, keyboard motion is exact integer arithmetic.
- `keys` is a `map<string, bool>`. A name that is missing counts as not
  pressed, as `keys["up"]` being `undefined` does in JavaScript.
- `frame + 1` is reduced with JavaScript's truncating `%` (`JsRem`). From the
  initial state the frame is never negative, so this agrees with `%`.
- The sprite sheets' pixel sizes belong to the loaded images, so they are
  parameters (`Sheet`).

Details of the code that are easy to misread:

- Joystick ties: when `|dx| == |dy| != 0` the `else if` branch wins, so the
  player faces vertically, not horizontally (`Motion.JoystickFacing`).
- When movement stops, the frame index does not return to 0 at once. It is
  reset on the next wrap of the timer (`Motion.RunIdle`). The idle pose is
  always drawn from row 0 whatever the frame is (`Render.IdlePoseIgnoresFrame`).
- The 30-pixel tile does not divide the 500-pixel height. The 17 rows reach
  510 pixels (`Geometry.CanvasGrid`, `Render.GrassCoversCanvas`).
- Sheet layout: `drawSprite` takes the cell row from `frame` and the column
  from the facing. Both sheets are cut into `WALK_COLS` x `WALK_ROWS` cells.
  `IDLE_ROWS` and `IDLE_COLS` are never read.

## Model

| member | source | states |
|---|---|---|
| `Motion.JsRem` | app.js:148 | the remainder of JavaScript `%`: for a non-negative dividend it equals Dafny's `%` and lies in [0, n); for a negative one it lies in (-n, 0], is 0 exactly when Dafny's `%` is 0, and otherwise equals `a % n - n` |
| `Motion.KeyPhase` | app.js:118-124 | definition: `moving` cleared, then each pressed key in the order up, right, down, left moves one axis by `speed` and sets its facing; its properties are proved by `StepPosition`, `SingleKey`, `OppositeKeysCancel`, `KeyFacing` and `StepMoving` |
| `Motion.JoystickPhase` | app.js:127-140 | definition: an active stick adds `x*speed*5`, `y*speed*5` and picks the facing from the larger component (ties and a centred stick as written); its properties are proved by `StepPosition`, `JoystickFacing`, `JoystickFullRight` and `StepMoving` |
| `Motion.RecordFacing` | app.js:142 | definition: `lastDirection` takes `direction` on a moving tick only; its property is proved by `StepMoving` |
| `Motion.Animate` | app.js:144-152 | definition: the timer rises, and on reaching `SPEED` wraps to 0 while the frame advances modulo `WALK_ROWS` or resets to 0; its properties are proved by `StepAnimation`, `RunWalking` and `RunIdle` |
| `Motion.Step` | app.js:117-153 | definition: one `update()`, the four phases in source order; its properties are proved by `StepKeepsValid`, `StepPosition`, `StepMoving`, `KeyFacing` and `JoystickFacing`, and `App.Game.Update` is proved equal to it |
| `Motion.Run` | app.js:225-229 | definition: n successive `update()` calls of the frame loop under one held input; its properties are proved by `RunPosition`, `RunWalking`, `RunIdle` and `HoldRight` |
| `Motion.StepAnimation` | app.js:144-152 | given `0 <= timer < SPEED`: the timer stays in range and is 0 exactly after the tick that started at `SPEED - 1`; on every other tick it rises by one and the frame is unchanged; on the wrap tick the frame becomes `(frame + 1) % WALK_ROWS` when moving and 0 when idle |
| `Motion.StepKeepsValid` | app.js:117-153 | one tick keeps `direction`, `lastDirection` in [0, 4), `frame` in [0, WALK_ROWS) and `timer` in [0, SPEED), whatever the input |
| `Motion.StepPosition` | app.js:121-131 | x changes by exactly `speed*(right - left) + x_joy*speed*5` (joystick term only when active), and y by `speed*(down - up) + y_joy*speed*5` |
| `Motion.SingleKey` | app.js:121-124 | one pressed key alone, joystick released: up gives `y - speed`, right `x + speed`, down `y + speed`, left `x - speed`; the other axis is unchanged and the facing is that key's |
| `Motion.OppositeKeysCancel` | app.js:121-124 | with the joystick released, up with down leaves y unchanged, and right with left leaves x unchanged |
| `Motion.KeyFacing` | app.js:121-124 | with the joystick released, the facing is that of the last pressed key in the order up, right, down, left (an independent reference, `LastPressed`); with no key pressed it is unchanged |
| `Motion.JoystickFacing` | app.js:127-140 | with the joystick active: `|x| > |y|` faces right or left by the sign of x, overriding keys; otherwise a non-zero y faces back or forward by its sign (ties face vertically); a centred stick keeps the facing the keys chose |
| `Motion.StepMoving` | app.js:118-142 | `moving` holds iff some key is pressed or the joystick is active; `lastDirection` becomes the new direction when moving and is unchanged otherwise; an idle tick changes neither position nor direction |
| `Motion.JoystickFullRight` | app.js:127-135 | a full push right, `(1, 0)`, for one tick moves x by 10, keeps y, and faces right |
| `Motion.RunPosition` | app.js:121-131 | holding one input for n ticks moves the player by n times the one-tick displacement on each axis |
| `Motion.RunWalking` | app.js:144-152 | while an input is held, after n ticks `timer = (timer0 + n) % SPEED` and `frame = (frame0 + (timer0 + n) / SPEED) % WALK_ROWS`: one frame advance every SPEED ticks, never more or fewer |
| `Motion.RunIdle` | app.js:142-152 | with every input released, position and both facings are unchanged and `moving` is false; the frame is kept until the timer first wraps and is 0 from then on |
| `Motion.HoldRight` | app.js:121-152 | from a wrap boundary, ten ticks of "right" alone add 20 to x, face right, record right as last facing and advance the frame by exactly one |
| `Motion.HoldRightTenTicks` | app.js:117-153 | from the start state (300, 300) of app.js:27-45 with `timer = 0` from app.js:111, ten ticks of "right" end at (320, 300), facing right, on frame 1, timer 0 |
| `Geometry.Ceil` | app.js:161-162 | `Math.ceil`: the result c satisfies `r <= c < r + 1` |
| `Geometry.TileCount` | app.js:161-162 | `ceil(extent / tile)` tiles reach across the extent (`n*tile >= extent`), and one fewer would not |
| `Geometry.CanvasGrid` | app.js:158-162 | on the 800 x 500 canvas with 30-pixel tiles the grid is 17 rows by 27 columns |
| `Geometry.GrassTile` | app.js:166 | definition: the tile of cell (row, col) at (col * 30, row * 30), 30 x 30; its placement is proved by `PixelInTile`, `TilesDisjoint`, `TileDrawn` and `GrassCoversCanvas` |
| `Geometry.PixelInTile` | app.js:164-168 | every pixel (px, py) lies inside the tile of cell (py / 30, px / 30) |
| `Geometry.TilesDisjoint` | app.js:164-168 | tiles of distinct cells do not overlap |
| `Geometry.SpriteSource` | app.js:175-183 | definition: the cell at (frameCol * srcW, frameRow * srcH) of size srcW x srcH, with `srcW = sheet.width / WALK_COLS` and `srcH = sheet.height / WALK_ROWS`; its properties are proved by `SourceInsideSheet` and `SourceCellsDisjoint` |
| `Geometry.SourceInsideSheet` | app.js:174-183 | a cell of the 4 x 4 grid is a quarter of the sheet each way and lies inside the sheet |
| `Geometry.SourceCellsDisjoint` | app.js:174-183 | distinct cells of any sheet do not overlap |
| `Geometry.SpriteDest` | app.js:184-187 | the destination has the player block's 64 x 80 size, and its bottom-centre point is the player position moved by the offset |
| `Render.TileRow` | app.js:165-167 | definition: the inner loop's calls for one row, one grass tile per column, left to right; its properties are proved with `Tiles` by `TilesLength` and `TileDrawn` |
| `Render.Tiles` | app.js:164-168 | definition: the calls of the first `rows` rows of the nested loop, row by row; its properties are proved by `TilesLength` and `TileDrawn` |
| `Render.GrassCalls` | app.js:160-169 | definition: drawGrass's calls for the canvas size, with `Math.ceil` row and column counts; its properties are proved by `GrassCoversCanvas` and `FrameOrder`, and `DrawGrass` is proved equal to it |
| `Render.DrawGrass` | app.js:160-169 | the nested row/column loop issues exactly the row-major tile list `GrassCalls(width, height)` |
| `Render.TilesLength` | app.js:164-168 | the grid issues rows x cols draw calls |
| `Render.TileDrawn` | app.js:164-168 | the tile of cell (r, c) is drawn iff `0 <= r < rows` and `0 <= c < cols`, and every call is a grass tile |
| `Render.GrassCoversCanvas` | app.js:160-169 | every pixel of the canvas lies inside a drawn grass tile |
| `Render.DrawSprite` | app.js:174-189 | definition: one `drawImage` of the cell `SpriteSource` into `SpriteDest`; its properties are proved by `SourceInsideSheet`, `SourceCellsDisjoint` and `SpriteDest` |
| `Render.SpriteCall` | app.js:200-205 | definition: the walk sheet at (frame, direction) with the walk offset while moving, otherwise the idle sheet at (0, lastDirection) with the idle offset; its properties are proved by `SpriteInsideSheet`, `IdlePoseIgnoresFrame` and `ReleaseKeepsFacing` |
| `Render.Frame` | app.js:194-206 | definition: the clear of the whole canvas, then the grass calls, then the sprite call; its properties are proved by `FrameOrder`, and `App.Game.Draw` is proved equal to it |
| `Render.SpriteInsideSheet` | app.js:174-205 | in a valid state, the walk sheet is used iff moving; the cut-out cell lies inside that sheet; the sprite's bottom-centre is 5 pixels below the player position |
| `Render.IdlePoseIgnoresFrame` | app.js:203-205 | when idle, the sprite drawn depends on neither the animation frame nor the current facing |
| `Render.ReleaseKeepsFacing` | app.js:142 | after a moving tick, releasing all inputs draws the idle sheet at row 0 and the column of the last moving facing |
| `Render.FrameOrder` | app.js:194-206 | a frame is 461 calls: first a clear of the whole 800 x 500 canvas, then only grass tiles, then the sprite last, on top |
| `App.Game.constructor` | app.js:27-45 | the game starts at the initial state: (300, 300), facing forward, frame 0, idle, and timer 0 (the module-level `let timer = 0` at app.js:111), which is a valid state (`Update` keeps it valid) |
| `App.Game.Update` | app.js:117-153 | the in-place update leaves the fields equal to `Step` of the old state, and keeps the state valid |
| `App.Game.MoveByKeys` | app.js:118-124 | the key checks leave the fields equal to `KeyPhase` of the old state |
| `App.Game.MoveByJoystick` | app.js:127-140 | the joystick branch leaves the fields equal to `JoystickPhase` of the old state |
| `App.Game.Draw` | app.js:194-206 | the calls returned are `Frame` of the current state |
| `App.Game.Tick` | app.js:225-229 | one loop iteration: the state advances by `Step` and the calls are the `Frame` of the new state |
| `Loading.Requests` | app.js:211-217 | definition: how many of the first n `checkStart()` calls from `loaded = 0` schedule the loop, one when the counter reaches 3; its property is proved by `RequestedOnce` |
| `Loading.RequestedOnce` | app.js:211-217 | after n calls from `loaded = 0`, the loop has been scheduled once when n >= 3 and never when n < 3 |
| `Loading.Loader.constructor` | app.js:211 | the counter starts at 0 with no frame requested |
| `Loading.Loader.CheckStart` | app.js:212-217 | `loaded` rises by one; the loop is scheduled on this call iff `loaded` is now 3; the number of `requestAnimationFrame(loop)` calls made by `checkStart` (app.js:215) is 1 after the third load and 0 before |

## Left out

- `moveStick` (app.js:82-100): it uses `Math.hypot`, `atan2`, `cos` and `sin` on DOM geometry and writes a CSS transform. Its output vector is an input of `Update`. Nothing in `update()` depends on the vector having magnitude at most 1, so that is not assumed.
- Event-listener wiring for the buttons and the joystick (app.js:57-80): the `keys` map and the joystick record are given to `Update` each tick. The action button (app.js:103-106) only logs.
- Image construction and the `onload` hooks (app.js:4-12, 218-220): only the counter they call is modelled.
- Canvas and context setup, `clearRect` and `drawImage` (app.js:17-22, 166, 178-188, 195): the numbers passed are modelled as `DrawCall` values, not the pixels painted.
- The `requestAnimationFrame` loop (app.js:225-229): it is host scheduling and never ends. `Game.Tick` models one iteration. `Loader.frameRequests` counts only the `requestAnimationFrame(loop)` calls made by `checkStart` (app.js:215); the loop's own rescheduling on every iteration (app.js:228) is not counted.
- Floating point: positions, the joystick displacement and the sheet cell size `sheet.width / 4` are exact reals, so double-precision rounding is not modelled.
- `sw.js`: the offline-cache service worker runs on the browser's Cache Storage API. sw.js is not part of this model.
- Motion.StepAnimation: the wrap-tick frame value is stated for a non-negative frame only. A negative frame cannot arise from the initial state (`StepKeepsValid`), and there JavaScript's `%` differs from Dafny's.
