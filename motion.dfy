/** The per-tick player state machine: direction keys and a virtual joystick
    move the player block, choose its facing and drive the walk animation. */
module Motion {
  import opened Geometry

  /** player.speed: pixels moved per tick by one pressed direction key. */
  const Speed: real := 2.0
  /** The factor by which update() scales the joystick vector on top of Speed. */
  const JoystickScale: real := 5.0
  /** SPEED: the number of ticks between two animation-frame changes. */
  const TicksPerFrame: int := 10

  /** Facing directions (0 = forward, 1 = right, 2 = back, 3 = left). */
  const Forward: int := 0
  const Right: int := 1
  const Back: int := 2
  const Left: int := 3

  /** The `keys` record: direction name to pressed flag. A name that was never
      touched is absent, which JavaScript reads as false. */
  type Keys = map<string, bool>

  predicate Pressed(keys: Keys, name: string)
  {
    name in keys && keys[name]
  }

  predicate AnyPressed(keys: Keys)
  {
    Pressed(keys, "up") || Pressed(keys, "right") || Pressed(keys, "down") || Pressed(keys, "left")
  }

  /** The `joystickData` record: the normalised stick vector and whether a touch holds it. */
  datatype Joystick = Joystick(x: real, y: real, active: bool)

  /** Everything update() reads and writes: the position of `playerBlock`, the
      mutable fields of `player`, and the module-level animation `timer`. */
  datatype PlayerState = PlayerState(
    x: real, y: real,
    direction: int, lastDirection: int,
    frame: int, moving: bool,
    timer: int)

  /** The state at page load. */
  const Initial: PlayerState := PlayerState(300.0, 300.0, Forward, Forward, 0, false, 0)

  /** The ranges the state keeps once it starts from Initial. */
  predicate Valid(s: PlayerState)
  {
    0 <= s.direction < 4 && 0 <= s.lastDirection < 4 &&
    0 <= s.frame < WalkRows && 0 <= s.timer < TicksPerFrame
  }

  function Abs(r: real): real
  {
    if r < 0.0 then -r else r
  }

  /** JavaScript's `%` on integers: the remainder takes the sign of the dividend. */
  function JsRem(a: int, n: int): (r: int)
    requires n > 0
    ensures a >= 0 ==> r == a % n && 0 <= r < n
    ensures a < 0 ==> -n < r <= 0
    ensures a < 0 ==> (r == 0 <==> a % n == 0) && (r != 0 ==> r == a % n - n)
  {
    if a >= 0 then a % n
    else
      NegRem(a, n);
      -((-a) % n)
  }

  /** The truncated remainder of a negative dividend, in terms of Dafny's `%`. */
  lemma NegRem(a: int, n: int)
    requires a < 0 && n > 0
    ensures var m := (-a) % n;
      (m == 0 <==> a % n == 0) && (m != 0 ==> -m == a % n - n)
  {
    var q, m := (-a) / n, (-a) % n;
    assert -a == q * n + m;
    if m == 0 {
      assert a == (-q) * n + 0;
      ModUnique(a, n, -q, 0);
    } else {
      assert a == (-q - 1) * n + (n - m);
      ModUnique(a, n, -q - 1, n - m);
    }
  }

  /** Dafny's `%` is the unique remainder in [0, n). */
  lemma ModUnique(a: int, n: int, k: int, t: int)
    requires n > 0 && a == k * n + t && 0 <= t < n
    ensures a % n == t
  {
    var d := k - a / n;
    assert a == (a / n) * n + a % n;
    assert d * n == a % n - t;
    MultipleBounds(d, n);
  }

  /** A non-zero multiple of n is at least n away from 0. */
  lemma MultipleBounds(d: int, n: int)
    requires n > 0
    ensures d >= 1 ==> d * n >= n
    ensures d <= -1 ==> d * n <= -n
  {
    if d >= 1 {
      assert d * n == (d - 1) * n + n;
    } else if d <= -1 {
      assert d * n == (d + 1) * n - n;
    }
  }

  // ---------------------------------------------------------------------------
  // update(), phase by phase, in the order the source runs them

  /** Clear `moving`, then apply the four key checks in turn (up, right, down, left). */
  function KeyPhase(s: PlayerState, keys: Keys): PlayerState
  {
    var s0 := s.(moving := false);
    var s1 := if Pressed(keys, "up") then s0.(y := s0.y - Speed, direction := Forward, moving := true) else s0;
    var s2 := if Pressed(keys, "right") then s1.(x := s1.x + Speed, direction := Right, moving := true) else s1;
    var s3 := if Pressed(keys, "down") then s2.(y := s2.y + Speed, direction := Back, moving := true) else s2;
    if Pressed(keys, "left") then s3.(x := s3.x - Speed, direction := Left, moving := true) else s3
  }

  /** An active joystick adds its scaled vector and may overwrite the facing. */
  function JoystickPhase(s: PlayerState, joy: Joystick): PlayerState
  {
    if !joy.active then s
    else
      var dx := joy.x * Speed * JoystickScale;
      var dy := joy.y * Speed * JoystickScale;
      var d :=
        if Abs(dx) > Abs(dy) then (if dx > 0.0 then Right else Left)
        else if Abs(dy) > 0.0 then (if dy > 0.0 then Back else Forward)
        else s.direction;
      s.(x := s.x + dx, y := s.y + dy, direction := d, moving := true)
  }

  /** `lastDirection` follows `direction` on a moving tick only. */
  function RecordFacing(s: PlayerState): PlayerState
  {
    if s.moving then s.(lastDirection := s.direction) else s
  }

  /** Advance the tick counter; on the wrap tick advance or reset the frame. */
  function Animate(s: PlayerState): PlayerState
  {
    var t := s.timer + 1;
    if t >= TicksPerFrame then
      s.(timer := 0, frame := if s.moving then JsRem(s.frame + 1, WalkRows) else 0)
    else
      s.(timer := t)
  }

  /** One call of update(). */
  function Step(s: PlayerState, keys: Keys, joy: Joystick): PlayerState
  {
    Animate(RecordFacing(JoystickPhase(KeyPhase(s, keys), joy)))
  }

  /** n consecutive ticks under the same input. */
  function Run(s: PlayerState, keys: Keys, joy: Joystick, n: nat): PlayerState
    decreases n
  {
    if n == 0 then s else Step(Run(s, keys, joy, n - 1), keys, joy)
  }

  // ---------------------------------------------------------------------------
  // Reference definitions the lemmas compare Step with

  function Bit(b: bool): real
  {
    if b then 1.0 else 0.0
  }

  /** Horizontal displacement of one tick: right minus left keys, plus the scaled joystick. */
  function TickDx(keys: Keys, joy: Joystick): real
  {
    Speed * (Bit(Pressed(keys, "right")) - Bit(Pressed(keys, "left")))
    + (if joy.active then joy.x * Speed * JoystickScale else 0.0)
  }

  /** Vertical displacement of one tick: down minus up keys, plus the scaled joystick. */
  function TickDy(keys: Keys, joy: Joystick): real
  {
    Speed * (Bit(Pressed(keys, "down")) - Bit(Pressed(keys, "up")))
    + (if joy.active then joy.y * Speed * JoystickScale else 0.0)
  }

  /** The facing of the pressed key that comes last in the order up, right,
      down, left, or `d` when no key is pressed. */
  function LastPressed(keys: Keys, d: int): int
  {
    if Pressed(keys, "left") then Left
    else if Pressed(keys, "down") then Back
    else if Pressed(keys, "right") then Right
    else if Pressed(keys, "up") then Forward
    else d
  }

  // ---------------------------------------------------------------------------
  // Properties of one tick

  /** The timer stays in [0, TicksPerFrame); the frame changes only on the tick
      where the timer wraps, and then advances by one (moving) or resets (idle). */
  lemma StepAnimation(s: PlayerState, keys: Keys, joy: Joystick)
    requires 0 <= s.timer < TicksPerFrame
    ensures var t := Step(s, keys, joy);
      0 <= t.timer < TicksPerFrame &&
      (t.timer == 0 <==> s.timer == TicksPerFrame - 1) &&
      (s.timer < TicksPerFrame - 1 ==> t.timer == s.timer + 1 && t.frame == s.frame) &&
      (s.timer == TicksPerFrame - 1 && 0 <= s.frame ==>
         t.frame == if t.moving then (s.frame + 1) % WalkRows else 0)
  {
  }

  /** Every range of Valid survives a tick, whatever the input. */
  lemma StepKeepsValid(s: PlayerState, keys: Keys, joy: Joystick)
    requires Valid(s)
    ensures Valid(Step(s, keys, joy))
  {
  }

  /** Position changes by exactly the key and joystick displacements. */
  lemma StepPosition(s: PlayerState, keys: Keys, joy: Joystick)
    ensures Step(s, keys, joy).x == s.x + TickDx(keys, joy)
    ensures Step(s, keys, joy).y == s.y + TickDy(keys, joy)
  {
  }

  /** One pressed key alone, with the joystick released, moves exactly one axis
      by exactly Speed and turns the player that way. */
  lemma SingleKey(s: PlayerState, name: string, joy: Joystick)
    requires name in {"up", "right", "down", "left"}
    requires !joy.active
    ensures var t := Step(s, map[name := true], joy);
      (name == "up" ==> t.x == s.x && t.y == s.y - Speed && t.direction == Forward) &&
      (name == "right" ==> t.x == s.x + Speed && t.y == s.y && t.direction == Right) &&
      (name == "down" ==> t.x == s.x && t.y == s.y + Speed && t.direction == Back) &&
      (name == "left" ==> t.x == s.x - Speed && t.y == s.y && t.direction == Left)
  {
  }

  /** Opposite keys cancel: with the joystick released, holding up and down
      leaves y unchanged, holding right and left leaves x unchanged. */
  lemma OppositeKeysCancel(s: PlayerState, keys: Keys, joy: Joystick)
    requires !joy.active
    ensures Pressed(keys, "up") && Pressed(keys, "down") ==> Step(s, keys, joy).y == s.y
    ensures Pressed(keys, "right") && Pressed(keys, "left") ==> Step(s, keys, joy).x == s.x
  {
  }

  /** With the joystick released, the facing is that of the last pressed key
      in the check order, and unchanged when no key is pressed. */
  lemma KeyFacing(s: PlayerState, keys: Keys, joy: Joystick)
    requires !joy.active
    ensures Step(s, keys, joy).direction == LastPressed(keys, s.direction)
    ensures !AnyPressed(keys) ==> Step(s, keys, joy).direction == s.direction
  {
  }

  /** With the joystick held, its vector decides the facing over any key:
      horizontal when |x| > |y|, otherwise vertical when y != 0 (so a diagonal
      tie faces vertically); a centred stick keeps the facing the keys chose. */
  lemma JoystickFacing(s: PlayerState, keys: Keys, joy: Joystick)
    requires joy.active
    ensures var d := Step(s, keys, joy).direction;
      (Abs(joy.x) > Abs(joy.y) ==> d == if joy.x > 0.0 then Right else Left) &&
      (Abs(joy.x) <= Abs(joy.y) && joy.y != 0.0 ==> d == if joy.y > 0.0 then Back else Forward) &&
      (joy.x == 0.0 && joy.y == 0.0 ==> d == LastPressed(keys, s.direction))
  {
  }

  /** `moving` is the OR of all inputs; `lastDirection` tracks `direction` while
      moving and keeps the last facing when idle; an idle tick moves nothing. */
  lemma StepMoving(s: PlayerState, keys: Keys, joy: Joystick)
    ensures var t := Step(s, keys, joy);
      (t.moving <==> AnyPressed(keys) || joy.active) &&
      t.lastDirection == (if t.moving then t.direction else s.lastDirection) &&
      (!t.moving ==> t.x == s.x && t.y == s.y && t.direction == s.direction)
  {
  }

  /** A full push to the right for one tick moves ten pixels right and faces right. */
  lemma JoystickFullRight(s: PlayerState)
    ensures var t := Step(s, map[], Joystick(1.0, 0.0, true));
      t.x == s.x + 10.0 && t.y == s.y && t.direction == Right
  {
  }

  // ---------------------------------------------------------------------------
  // Properties of many ticks under a held input

  /** How the tick count m + 1 splits into whole frames and remaining ticks. */
  lemma NextTick(m: nat)
    ensures m % TicksPerFrame == TicksPerFrame - 1 ==>
      (m + 1) % TicksPerFrame == 0 && (m + 1) / TicksPerFrame == m / TicksPerFrame + 1
    ensures m % TicksPerFrame < TicksPerFrame - 1 ==>
      (m + 1) % TicksPerFrame == m % TicksPerFrame + 1 && (m + 1) / TicksPerFrame == m / TicksPerFrame
  {
  }

  lemma CycleSucc(a: nat)
    ensures (a % WalkRows + 1) % WalkRows == (a + 1) % WalkRows
  {
  }

  /** The distance covered by n ticks of displacement d, tick by tick. */
  function Travel(n: nat, d: real): real
  {
    if n == 0 then 0.0 else Travel(n - 1, d) + d
  }

  lemma {:induction false} TravelIsProduct(n: nat, d: real)
    ensures Travel(n, d) == n as real * d
  {
    if n > 0 {
      TravelIsProduct(n - 1, d);
    }
  }

  lemma {:induction false} RunTravel(s: PlayerState, keys: Keys, joy: Joystick, n: nat)
    ensures Run(s, keys, joy, n).x == s.x + Travel(n, TickDx(keys, joy))
    ensures Run(s, keys, joy, n).y == s.y + Travel(n, TickDy(keys, joy))
  {
    if n > 0 {
      RunTravel(s, keys, joy, n - 1);
      StepPosition(Run(s, keys, joy, n - 1), keys, joy);
    }
  }

  /** Holding the same input for n ticks moves the player n times the one-tick displacement. */
  lemma RunPosition(s: PlayerState, keys: Keys, joy: Joystick, n: nat)
    ensures Run(s, keys, joy, n).x == s.x + n as real * TickDx(keys, joy)
    ensures Run(s, keys, joy, n).y == s.y + n as real * TickDy(keys, joy)
  {
    RunTravel(s, keys, joy, n);
    TravelIsProduct(n, TickDx(keys, joy));
    TravelIsProduct(n, TickDy(keys, joy));
  }

  /** While some input is held, the frame advances exactly once every
      TicksPerFrame ticks, cycling through [0, WalkRows). */
  lemma {:induction false} RunWalking(s: PlayerState, keys: Keys, joy: Joystick, n: nat)
    requires AnyPressed(keys) || joy.active
    requires Valid(s)
    ensures var t := Run(s, keys, joy, n);
      t.timer == (s.timer + n) % TicksPerFrame &&
      t.frame == (s.frame + (s.timer + n) / TicksPerFrame) % WalkRows
  {
    if n > 0 {
      var p := Run(s, keys, joy, n - 1);
      RunWalking(s, keys, joy, n - 1);
      StepMoving(p, keys, joy);
      StepAnimation(p, keys, joy);
      var m := s.timer + n - 1;
      NextTick(m);
      CycleSucc(s.frame + m / TicksPerFrame);
    }
  }

  /** With every input released the player stands still, keeps both facings,
      and the frame returns to 0 on the first wrap of the timer (not before). */
  lemma {:induction false} RunIdle(s: PlayerState, keys: Keys, joy: Joystick, n: nat)
    requires !AnyPressed(keys) && !joy.active
    requires Valid(s)
    ensures var t := Run(s, keys, joy, n);
      t.x == s.x && t.y == s.y &&
      t.direction == s.direction && t.lastDirection == s.lastDirection &&
      (n > 0 ==> !t.moving) &&
      t.timer == (s.timer + n) % TicksPerFrame &&
      t.frame == (if s.timer + n < TicksPerFrame then s.frame else 0)
  {
    if n > 0 {
      var p := Run(s, keys, joy, n - 1);
      RunIdle(s, keys, joy, n - 1);
      StepMoving(p, keys, joy);
      StepAnimation(p, keys, joy);
      NextTick(s.timer + n - 1);
    }
  }

  /** Holding "right" alone for ten ticks from a wrap boundary: twenty pixels
      to the right, facing right, and exactly one frame further. */
  lemma HoldRight(s: PlayerState, keys: Keys, joy: Joystick)
    requires Valid(s) && s.timer == 0
    requires Pressed(keys, "right") && !Pressed(keys, "up") && !Pressed(keys, "down") && !Pressed(keys, "left")
    requires !joy.active
    ensures Run(s, keys, joy, 10) ==
      s.(x := s.x + 20.0, direction := Right, lastDirection := Right,
         frame := (s.frame + 1) % WalkRows, moving := true)
  {
  }

  /** From the start position, ten ticks of "right" end at (320, 300), facing right, on frame 1. */
  lemma HoldRightTenTicks()
    ensures Run(Initial, map["right" := true], Joystick(0.0, 0.0, false), 10)
         == PlayerState(320.0, 300.0, Right, Right, 1, true, 0)
  {
    HoldRight(Initial, map["right" := true], Joystick(0.0, 0.0, false));
  }
}
