/** The page script's mutable state and the two operations of one animation
    frame: update() moves the player, draw() paints it. */
module App {
  import opened Motion
  import opened Geometry
  import opened Render

  /** The module-level `playerBlock` position, the mutable fields of `player`
      and the animation `timer`. */
  class Game {
    var x: real
    var y: real
    var direction: int
    var lastDirection: int
    var frame: int
    var moving: bool
    var timer: int

    ghost function State(): PlayerState
      reads this
    {
      PlayerState(x, y, direction, lastDirection, frame, moving, timer)
    }

    /** The values the page script starts with. */
    constructor ()
      ensures State() == Initial
      ensures Valid(State())
    {
      x, y := 300.0, 300.0;
      direction, lastDirection, frame := Forward, Forward, 0;
      moving := false;
      timer := 0;
    }

    /** update(): one tick of the state machine. */
    method Update(keys: Keys, joy: Joystick)
      modifies this
      ensures State() == Step(old(State()), keys, joy)
      ensures Valid(old(State())) ==> Valid(State())
    {
      MoveByKeys(keys);
      MoveByJoystick(joy);

      if moving { lastDirection := direction; }

      timer := timer + 1;
      if timer >= TicksPerFrame {
        timer := 0;
        if moving {
          frame := JsRem(frame + 1, WalkRows);
        } else {
          frame := 0;
        }
      }
      if Valid(old(State())) {
        StepKeepsValid(old(State()), keys, joy);
      }
    }

    /** The keyboard part of update(): clear `moving`, then each pressed key
        in turn moves the block by Speed and sets the facing. */
    method MoveByKeys(keys: Keys)
      modifies this
      ensures State() == KeyPhase(old(State()), keys)
    {
      moving := false;
      if Pressed(keys, "up") { y := y - Speed; direction := Forward; moving := true; }
      if Pressed(keys, "right") { x := x + Speed; direction := Right; moving := true; }
      if Pressed(keys, "down") { y := y + Speed; direction := Back; moving := true; }
      if Pressed(keys, "left") { x := x - Speed; direction := Left; moving := true; }
    }

    /** The joystick part of update(): an active stick adds its scaled vector
        and chooses the facing from its larger component. */
    method MoveByJoystick(joy: Joystick)
      modifies this
      ensures State() == JoystickPhase(old(State()), joy)
    {
      if joy.active {
        var dx := joy.x * Speed * JoystickScale;
        var dy := joy.y * Speed * JoystickScale;
        x := x + dx;
        y := y + dy;
        if Abs(dx) > Abs(dy) {
          direction := if dx > 0.0 then Right else Left;
        } else if Abs(dy) > 0.0 {
          direction := if dy > 0.0 then Back else Forward;
        }
        moving := true;
      }
    }

    /** draw(): clear, tile the grass, then blit the current pose. */
    method Draw(walk: Sheet, idle: Sheet) returns (calls: seq<DrawCall>)
      ensures calls == Frame(State(), walk, idle)
    {
      var grass := DrawGrass(CanvasWidth, CanvasHeight);
      var sprite;
      if moving {
        sprite := DrawSprite(Walk, walk, frame, direction, WalkOffset, x, y);
      } else {
        sprite := DrawSprite(Idle, idle, 0, lastDirection, IdleOffset, x, y);
      }
      calls := [ClearRect(Rect(0.0, 0.0, CanvasWidth as real, CanvasHeight as real))] + grass + [sprite];
    }

    /** One iteration of loop(): update, then draw the new state. */
    method Tick(keys: Keys, joy: Joystick, walk: Sheet, idle: Sheet) returns (calls: seq<DrawCall>)
      modifies this
      ensures State() == Step(old(State()), keys, joy)
      ensures calls == Frame(State(), walk, idle)
    {
      Update(keys, joy);
      calls := Draw(walk, idle);
    }
  }
}
