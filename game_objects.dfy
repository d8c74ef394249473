/** The entities of the brick-breaker: the paddle and the ball, whose state
    changes in place from tick to tick, and the bricks, falling power-ups and
    rising laser shots, which the session keeps as values in its lists. */
module GameObjects {
  import opened Geometry

  // ---------------------------------------------------------------------
  // Power-up kinds and their display table

  datatype PowerUpKind = Grow | Laser | Glue | Slow | Multi | Fast | Wide | Shield

  datatype Option<T> = None | Some(value: T)

  /** The message the property table shows when a power-up is caught. Each
      kind has its own: the message tells which kind was caught. */
  function Message(kind: PowerUpKind): (m: string)
    ensures Announced(m) == Some(kind)
  {
    match kind
    case Grow => "PADDLE GROW"
    case Laser => "LASER CANNONS"
    case Glue => "CATCH PADDLE"
    case Slow => "SLOW BALL"
    case Multi => "MULTI BALL"
    case Fast => "FAST BALL"
    case Wide => "WIDE PADDLE"
    case Shield => "SHIELD UP"
  }

  /** The kind a message of the property table announces, if any. */
  function Announced(m: string): Option<PowerUpKind>
  {
    if m == "PADDLE GROW" then Some(Grow)
    else if m == "LASER CANNONS" then Some(Laser)
    else if m == "CATCH PADDLE" then Some(Glue)
    else if m == "SLOW BALL" then Some(Slow)
    else if m == "MULTI BALL" then Some(Multi)
    else if m == "FAST BALL" then Some(Fast)
    else if m == "WIDE PADDLE" then Some(Wide)
    else if m == "SHIELD UP" then Some(Shield)
    else None
  }

  // ---------------------------------------------------------------------
  // Paddle

  const PaddleWidth := 100
  const GrowWidth := 150
  const WideWidth := 200
  const PaddleHeight := 10
  const PaddleSpeed := 7
  /** Default duration of a paddle power-up, in ticks. */
  const PowerUpDuration := 600

  /** The paddle's remaining ticks per power-up kind: a dictionary whose keys
      are exactly the eight kinds. */
  datatype Timers = Timers(grow: nat, laser: nat, glue: nat, slow: nat,
                           multi: nat, fast: nat, wide: nat, shield: nat)
  {
    function Get(k: PowerUpKind): nat
    {
      match k
      case Grow => grow
      case Laser => laser
      case Glue => glue
      case Slow => slow
      case Multi => multi
      case Fast => fast
      case Wide => wide
      case Shield => shield
    }

    function Set(k: PowerUpKind, n: nat): (t: Timers)
      ensures t.Get(k) == n
      ensures forall j :: j != k ==> t.Get(j) == Get(j)
    {
      match k
      case Grow => this.(grow := n)
      case Laser => this.(laser := n)
      case Glue => this.(glue := n)
      case Slow => this.(slow := n)
      case Multi => this.(multi := n)
      case Fast => this.(fast := n)
      case Wide => this.(wide := n)
      case Shield => this.(shield := n)
    }
  }

  /** Every timer at zero. */
  const NoTimers := Timers(0, 0, 0, 0, 0, 0, 0, 0)

  function TickDown(n: nat): nat
  {
    if n > 0 then n - 1 else 0
  }

  /** One tick of every countdown: a running timer loses exactly one tick, a
      stopped one stays at zero. */
  function Countdown(t: Timers): (r: Timers)
    ensures forall k :: t.Get(k) > 0 ==> r.Get(k) == t.Get(k) - 1
    ensures forall k :: t.Get(k) == 0 ==> r.Get(k) == 0
  {
    Timers(TickDown(t.grow), TickDown(t.laser), TickDown(t.glue), TickDown(t.slow),
           TickDown(t.multi), TickDown(t.fast), TickDown(t.wide), TickDown(t.shield))
  }

  /** The timer of `k` runs out on this tick. */
  predicate ExpiresNow(t: Timers, k: PowerUpKind)
  {
    t.Get(k) == 1
  }

  /** Net horizontal displacement for the two arrow keys: both keys apply,
      so holding both cancels out. */
  function Steer(left: bool, right: bool): (dx: int)
    ensures left == right ==> dx == 0
    ensures left && !right ==> dx == -PaddleSpeed
    ensures right && !left ==> dx == PaddleSpeed
  {
    (if right then PaddleSpeed else 0) - (if left then PaddleSpeed else 0)
  }

  /** The boundary check: a left edge past 0 is put back at 0, then a right
      edge past the screen is put back at the screen edge. */
  function Clamped(r: Rect, screenWidth: int): (c: Rect)
    ensures c.y == r.y && c.w == r.w && c.h == r.h
    ensures 0 <= r.w <= screenWidth ==> 0 <= c.Left() && c.Right() <= screenWidth
    ensures 0 <= r.Left() && r.Right() <= screenWidth ==> c == r
  {
    var r1 := if r.Left() < 0 then r.(x := 0) else r;
    if r1.Right() > screenWidth then r1.WithRight(screenWidth) else r1
  }

  /** Everything of a paddle that a tick of play changes. */
  datatype PaddleState = PaddleState(rect: Rect, timers: Timers, hasLaser: bool, hasGlue: bool, hasShield: bool)

  class Paddle {
    const screenWidth: int
    const screenHeight: int
    var rect: Rect
    var timers: Timers
    var hasLaser: bool
    var hasGlue: bool
    var hasShield: bool
    /** The single-timer power-up of an earlier design; never switched on. */
    var powerUpActive: bool
    var powerUpTimer: int

    /** The width is the normal one or a resized one whose timer still runs,
        and each capability flag is on exactly while its timer runs. */
    ghost predicate Valid()
      reads this
    {
      && rect.h == PaddleHeight
      && (rect.w == PaddleWidth || rect.w == GrowWidth || rect.w == WideWidth)
      && (rect.w == GrowWidth ==> timers.grow > 0)
      && (rect.w == WideWidth ==> timers.wide > 0)
      && hasLaser == (timers.laser > 0)
      && hasGlue == (timers.glue > 0)
      && hasShield == (timers.shield > 0)
      && !powerUpActive
    }

    function State(): PaddleState
      reads this
    {
      PaddleState(rect, timers, hasLaser, hasGlue, hasShield)
    }

    /** One tick of `Update` from the state `before`: steered by the arrow
        keys and clamped to the screen, back to the normal width when grow
        or wide expires now, every running timer one tick shorter, and a
        capability gone when its timer expires now. */
    predicate Stepped(before: PaddleState, left: bool, right: bool)
      reads this
    {
      var kept := Clamped(before.rect.MovedBy(Steer(left, right), 0), screenWidth);
      && rect == (if ExpiresNow(before.timers, Grow) || ExpiresNow(before.timers, Wide)
                  then kept.Resized(PaddleWidth) else kept)
      && timers == Countdown(before.timers)
      && hasLaser == (before.hasLaser && !ExpiresNow(before.timers, Laser))
      && hasGlue == (before.hasGlue && !ExpiresNow(before.timers, Glue))
      && hasShield == (before.hasShield && !ExpiresNow(before.timers, Shield))
    }

    constructor (screenWidth: int, screenHeight: int)
      ensures Valid()
      ensures this.screenWidth == screenWidth && this.screenHeight == screenHeight
      ensures rect == Rect(screenWidth / 2 - PaddleWidth / 2, screenHeight - 30, PaddleWidth, PaddleHeight)
      ensures timers == NoTimers && !hasLaser && !hasGlue && !hasShield
      ensures powerUpTimer == 0
    {
      this.screenWidth := screenWidth;
      this.screenHeight := screenHeight;
      rect := Rect(screenWidth / 2 - PaddleWidth / 2, screenHeight - 30, PaddleWidth, PaddleHeight);
      timers := NoTimers;
      hasLaser, hasGlue, hasShield := false, false, false;
      powerUpActive, powerUpTimer := false, 0;
    }

    /** One tick: move by the held arrow keys, keep the paddle on screen, then
        run the power-up countdowns. */
    method Update(left: bool, right: bool)
      requires Valid()
      modifies this
      ensures Valid()
      ensures Stepped(old(State()), left, right)
      ensures powerUpTimer == old(powerUpTimer)
      ensures old(rect.w) <= screenWidth ==> 0 <= rect.Left() && rect.Right() <= screenWidth
    {
      Move(left, right);
      ghost var kept := rect;
      UpdatePowerUps();
      if old(rect.w) <= screenWidth {
        ShrinkStaysInside(kept, PaddleWidth, 0, screenWidth);
      }
    }

    /** The keyboard part of a tick: each held arrow key moves the paddle by
        its speed, then the boundary check puts it back on screen. */
    method Move(left: bool, right: bool)
      modifies this`rect
      ensures rect == Clamped(old(rect).MovedBy(Steer(left, right), 0), screenWidth)
    {
      if left {
        rect := rect.(x := rect.x - PaddleSpeed);
      }
      if right {
        rect := rect.(x := rect.x + PaddleSpeed);
      }
      if rect.Left() < 0 {
        rect := rect.(x := 0);
      }
      if rect.Right() > screenWidth {
        rect := rect.WithRight(screenWidth);
      }
    }

    /** Puts the paddle back at the bottom center with normal width and no
        power-up. The new left edge is computed from the width before the
        reset, so a widened paddle comes back off-center. */
    method Reset()
      requires Valid()
      modifies this
      ensures Valid()
      ensures rect == Rect(screenWidth / 2 - old(rect.w) / 2, old(rect.y), PaddleWidth, PaddleHeight)
      ensures timers == NoTimers && !hasLaser && !hasGlue && !hasShield
      ensures powerUpTimer == 0
    {
      rect := rect.(x := screenWidth / 2 - rect.w / 2);
      rect := rect.(w := PaddleWidth);
      powerUpActive := false;
      powerUpTimer := 0;
      hasLaser := false;
      hasGlue := false;
      hasShield := false;
      timers := NoTimers;
    }

    /** Starts (or restarts) the timer of `kind`. Grow and wide resize the
        paddle about its center only when their timer is not already
        running; laser, glue and shield switch their capability on; slow,
        multi and fast only arm their timer. */
    method ActivatePowerUp(kind: PowerUpKind, duration: nat)
      requires Valid()
      requires duration > 0
      modifies this
      ensures Valid()
      ensures timers == old(timers).Set(kind, duration)
      ensures rect == if kind == Grow && old(timers).grow == 0 then old(rect).Resized(GrowWidth)
                      else if kind == Wide && old(timers).wide == 0 then old(rect).Resized(WideWidth)
                      else old(rect)
      ensures hasLaser == (old(hasLaser) || kind == Laser)
      ensures hasGlue == (old(hasGlue) || kind == Glue)
      ensures hasShield == (old(hasShield) || kind == Shield)
      ensures powerUpTimer == old(powerUpTimer)
    {
      match kind
      case Grow =>
        if timers.grow <= 0 {
          var center := rect.CenterX();
          rect := rect.(w := GrowWidth);
          rect := rect.WithCenterX(center);
        }
        timers := timers.(grow := duration);
      case Laser =>
        hasLaser := true;
        timers := timers.(laser := duration);
      case Glue =>
        hasGlue := true;
        timers := timers.(glue := duration);
      case Slow =>
        timers := timers.(slow := duration);
      case Multi =>
        timers := timers.(multi := duration);
      case Fast =>
        timers := timers.(fast := duration);
      case Wide =>
        if timers.wide <= 0 {
          var center := rect.CenterX();
          rect := rect.(w := WideWidth);
          rect := rect.WithCenterX(center);
        }
        timers := timers.(wide := duration);
      case Shield =>
        hasShield := true;
        timers := timers.(shield := duration);
    }

    /** One tick of every power-up countdown. When grow or wide runs out the
        paddle returns to its normal width about its center; when laser, glue
        or shield runs out its capability is switched off; slow, multi and
        fast running out has no effect. */
    method UpdatePowerUps()
      requires Valid()
      modifies this
      ensures Valid()
      ensures timers == Countdown(old(timers))
      ensures rect == if ExpiresNow(old(timers), Grow) || ExpiresNow(old(timers), Wide)
                      then old(rect).Resized(PaddleWidth) else old(rect)
      ensures hasLaser == (old(hasLaser) && !ExpiresNow(old(timers), Laser))
      ensures hasGlue == (old(hasGlue) && !ExpiresNow(old(timers), Glue))
      ensures hasShield == (old(hasShield) && !ExpiresNow(old(timers), Shield))
      ensures powerUpTimer == old(powerUpTimer)
    {
      ResizedTwice(rect, PaddleWidth);
      CountDown(Grow);
      CountDown(Laser);
      CountDown(Glue);
      CountDown(Slow);
      CountDown(Multi);
      CountDown(Fast);
      CountDown(Wide);
      CountDown(Shield);
    }

    /** One tick of the timer of `kind`, if it runs, and the end of that
        power-up's effect if the timer has just run out. */
    method CountDown(kind: PowerUpKind)
      modifies this
      ensures timers == old(timers).Set(kind, TickDown(old(timers).Get(kind)))
      ensures rect == if (kind == Grow || kind == Wide) && ExpiresNow(old(timers), kind)
                      then old(rect).Resized(PaddleWidth) else old(rect)
      ensures hasLaser == (old(hasLaser) && !(kind == Laser && ExpiresNow(old(timers), kind)))
      ensures hasGlue == (old(hasGlue) && !(kind == Glue && ExpiresNow(old(timers), kind)))
      ensures hasShield == (old(hasShield) && !(kind == Shield && ExpiresNow(old(timers), kind)))
      ensures powerUpActive == old(powerUpActive) && powerUpTimer == old(powerUpTimer)
    {
      if timers.Get(kind) > 0 {
        timers := timers.Set(kind, timers.Get(kind) - 1);
        if timers.Get(kind) <= 0 {
          match kind
          case Grow | Wide =>
            rect := rect.Resized(PaddleWidth);
          case Laser =>
            hasLaser := false;
          case Glue =>
            hasGlue := false;
          case Shield =>
            hasShield := false;
          case Slow | Multi | Fast =>
            // the effect of these lives on the ball, or is not implemented
        }
      }
    }
  }

  // ---------------------------------------------------------------------
  // Ball

  /** The ball's bounding square: twice its radius of 10. */
  const BallSize := 20
  const BaseSpeed := 6
  const SlowDuration := 600
  const FastDuration := 600

  datatype BallStatus = InPlay | Lost

  /** What the ball touched on a tick, reported for sound and particles. */
  datatype Collision = NoCollision | HitWall | PaddleBounce | PaddleGlue

  /** Python's `v // 2`: halving rounded toward minus infinity. */
  function Halved(v: int): (r: int)
    ensures 2 * r <= v < 2 * r + 2
  {
    v / 2
  }

  /** Python's `int(v * 1.5)`: the product truncated toward zero. */
  function Boosted(v: int): (r: int)
    ensures v >= 0 ==> 0 <= r && 2 * r <= 3 * v < 2 * r + 2
    ensures v < 0 ==> r < 0 && 3 * v <= 2 * r < 3 * v + 2
  {
    if v >= 0 then 3 * v / 2 else -(-3 * v / 2)
  }

  /** The horizontal launch speed for the outcome of the random direction. */
  function LaunchSpeed(rightward: bool): (s: int)
    ensures s == BaseSpeed || s == -BaseSpeed
    ensures (s > 0) == rightward
  {
    if rightward then BaseSpeed else -BaseSpeed
  }

  /** Everything of a ball that changes during play. */
  datatype BallState = BallState(rect: Rect, speedX: int, speedY: int, isGlued: bool,
                                 isSlowed: bool, slowTimer: int, isFast: bool, fastTimer: int)
  {
    /** A ball in this state falls out of play on its next tick: it is
        free, and its next move, at the speed the slow timer leaves it,
        takes its top below `screenHeight`. */
    predicate FallsOut(screenHeight: int) {
      var vy := if isSlowed && slowTimer <= 1 then 2 * speedY else speedY;
      !isGlued && rect.Top() + vy > screenHeight
    }
  }

  class Ball {
    const screenWidth: int
    const screenHeight: int
    var rect: Rect
    var speedX: int
    var speedY: int
    var isGlued: bool
    var isSlowed: bool
    var slowTimer: int
    var isFast: bool
    var fastTimer: int

    ghost predicate Valid()
      reads this
    {
      && rect.w == BallSize && rect.h == BallSize
      && (isSlowed ==> 0 < slowTimer <= SlowDuration)
    }

    function State(): BallState
      reads this
    {
      BallState(rect, speedX, speedY, isGlued, isSlowed, slowTimer, isFast, fastTimer)
    }

    /** A new ball starts as `Reset` leaves it; `rightward` is the outcome of
        the random launch direction. */
    constructor (screenWidth: int, screenHeight: int, rightward: bool)
      ensures Valid()
      ensures this.screenWidth == screenWidth && this.screenHeight == screenHeight
      ensures rect.CenterX() == screenWidth / 2 && rect.CenterY() == screenHeight / 2
      ensures speedX == LaunchSpeed(rightward) && speedY == -BaseSpeed
      ensures !isGlued && !isSlowed && slowTimer == 0 && !isFast && fastTimer == 0
    {
      this.screenWidth := screenWidth;
      this.screenHeight := screenHeight;
      rect := Rect(0, 0, BallSize, BallSize);
      isGlued, isSlowed, slowTimer := false, false, 0;
      isFast, fastTimer := false, 0;
      new;
      Reset(rightward);
    }

    /** Back to the screen center, launched upward in the given horizontal
        direction, unglued and no longer slowed. The fast state survives. */
    method Reset(rightward: bool)
      requires Valid()
      modifies this
      ensures Valid()
      ensures rect == old(rect).WithCenter(screenWidth / 2, screenHeight / 2)
      ensures speedX == LaunchSpeed(rightward) && speedY == -BaseSpeed
      ensures !isGlued && !isSlowed && slowTimer == 0
      ensures isFast == old(isFast) && fastTimer == old(fastTimer)
    {
      rect := rect.WithCenter(screenWidth / 2, screenHeight / 2);
      speedX := LaunchSpeed(rightward);
      speedY := -BaseSpeed;
      isGlued := false;
      isSlowed := false;
      slowTimer := 0;
    }

    /** One tick of `Update` for a ball that was glued in the state
        `before`: it rides on `paddle` and leaves it when `launch` is
        pressed. */
    predicate GluedStep(before: BallState, paddle: Paddle, launch: bool, rightward: bool, status: BallStatus, hit: Collision)
      reads this, paddle
    {
      && rect == before.rect.WithCenterX(paddle.rect.CenterX()).WithBottom(paddle.rect.Top())
      && status == InPlay && hit == NoCollision
      && isGlued == !launch
      && speedX == (if launch then LaunchSpeed(rightward) else before.speedX)
      && speedY == (if launch then -BaseSpeed else before.speedY)
      && isSlowed == before.isSlowed && slowTimer == before.slowTimer
    }

    /** One tick of `Update` for a ball that was free in the state `before`,
        against `paddle` as it stands. */
    predicate FreeStep(before: BallState, paddle: Paddle, status: BallStatus, hit: Collision)
      reads this, paddle
    {
      var expired := before.isSlowed && before.slowTimer <= 1;
      var vx := if expired then 2 * before.speedX else before.speedX;
      var vy := if expired then 2 * before.speedY else before.speedY;
      var moved := before.rect.MovedBy(vx, vy);
      var topWall := moved.Top() <= 0;
      var sideWall := moved.Left() <= 0 || moved.Right() >= screenWidth;
      var vy1 := if topWall then -vy else vy;
      var onPaddle := moved.Collides(paddle.rect) && vy1 > 0;
      && rect == moved
      && isSlowed == (before.isSlowed && !expired)
      && slowTimer == (if before.isSlowed then before.slowTimer - 1 else before.slowTimer)
      && speedX == (if sideWall then -vx else vx)
      && speedY == (if onPaddle && !paddle.hasGlue then -vy1 else vy1)
      && isGlued == (onPaddle && paddle.hasGlue)
      && status == (if moved.Top() > screenHeight then Lost else InPlay)
      && hit == (if status == Lost then NoCollision
                 else if onPaddle then (if paddle.hasGlue then PaddleGlue else PaddleBounce)
                 else if topWall || sideWall then HitWall
                 else NoCollision)
    }

    /** One tick of `Update`, from the state `before` to the ball's state
        now. */
    predicate Stepped(before: BallState, paddle: Paddle, launch: bool, rightward: bool, status: BallStatus, hit: Collision)
      reads this, paddle
    {
      if before.isGlued then GluedStep(before, paddle, launch, rightward, status, hit)
      else FreeStep(before, paddle, status, hit)
    }

    /** A tick reports the ball lost exactly when it started in a state
        that falls out of play. */
    lemma LostIffFallsOut(before: BallState, paddle: Paddle, launch: bool, rightward: bool, status: BallStatus, hit: Collision)
      requires Stepped(before, paddle, launch, rightward, status, hit)
      ensures (status == Lost) == before.FallsOut(screenHeight)
    {
    }

    /** One tick of the ball against the walls and `paddle`. A glued ball
        sits on the paddle and, when `launch` is pressed, leaves it upward in
        the direction `rightward`. A free ball counts its slow timer down
        (doubling its speed when it runs out), moves, bounces off the top and
        side walls, bounces off (or sticks to) the paddle when coming down
        onto it, and is reported lost once its top is below the screen. */
    method Update(paddle: Paddle, launch: bool, rightward: bool) returns (status: BallStatus, hit: Collision)
      requires Valid()
      modifies this
      ensures Valid()
      ensures isFast == old(isFast) && fastTimer == old(fastTimer)
      ensures Stepped(old(State()), paddle, launch, rightward, status, hit)
    {
      hit := NoCollision;
      if isGlued {
        rect := rect.WithCenterX(paddle.rect.CenterX());
        rect := rect.WithBottom(paddle.rect.Top());
        if launch {
          isGlued := false;
          speedX := LaunchSpeed(rightward);
          speedY := -BaseSpeed;
        }
        return InPlay, NoCollision;
      }
      CountDownSlow();
      rect := rect.MovedBy(speedX, speedY);
      var wall := BounceOffWalls();
      var onPaddle := MeetPaddle(paddle);
      if rect.Top() > screenHeight {
        return Lost, NoCollision;
      }
      hit := if onPaddle then (if paddle.hasGlue then PaddleGlue else PaddleBounce)
             else if wall then HitWall
             else NoCollision;
      status := InPlay;
    }

    /** Reflects the vertical speed off the top wall and the horizontal
        speed off a side wall; `wall` tells whether either happened. */
    method BounceOffWalls() returns (wall: bool)
      modifies this`speedX, this`speedY
      ensures wall == (rect.Top() <= 0 || rect.Left() <= 0 || rect.Right() >= screenWidth)
      ensures speedY == (if rect.Top() <= 0 then -old(speedY) else old(speedY))
      ensures speedX == (if rect.Left() <= 0 || rect.Right() >= screenWidth then -old(speedX) else old(speedX))
    {
      wall := false;
      if rect.Top() <= 0 {
        speedY := -speedY;
        wall := true;
      }
      if rect.Left() <= 0 || rect.Right() >= screenWidth {
        speedX := -speedX;
        wall := true;
      }
    }

    /** A ball touching `paddle` while moving down is caught by it: it
        sticks when the paddle has glue and bounces back up otherwise. */
    method MeetPaddle(paddle: Paddle) returns (onPaddle: bool)
      modifies this`speedY, this`isGlued
      ensures onPaddle == (rect.Collides(paddle.rect) && old(speedY) > 0)
      ensures speedY == (if onPaddle && !paddle.hasGlue then -old(speedY) else old(speedY))
      ensures isGlued == (if onPaddle && paddle.hasGlue then true else old(isGlued))
    {
      onPaddle := false;
      if rect.Collides(paddle.rect) {
        if speedY > 0 {
          onPaddle := true;
          if paddle.hasGlue {
            isGlued := true;
          } else {
            speedY := -speedY;
          }
        }
      }
    }

    /** One tick of the slow timer, if the ball is slowed; when it runs out
        both speed components are doubled and the ball is no longer slowed. */
    method CountDownSlow()
      requires Valid()
      modifies this`speedX, this`speedY, this`isSlowed, this`slowTimer
      ensures Valid()
      ensures var expired := old(isSlowed) && old(slowTimer) <= 1;
        && speedX == (if expired then 2 * old(speedX) else old(speedX))
        && speedY == (if expired then 2 * old(speedY) else old(speedY))
        && isSlowed == (old(isSlowed) && !expired)
        && slowTimer == (if old(isSlowed) then old(slowTimer) - 1 else old(slowTimer))
    {
      if isSlowed {
        slowTimer := slowTimer - 1;
        if slowTimer <= 0 {
          speedX := speedX * 2;
          speedY := speedY * 2;
          isSlowed := false;
        }
      }
    }

    /** Halves both speed components (rounding down) and starts the slow
        timer, unless the ball is already slowed. */
    method ApplySlow()
      requires Valid()
      modifies this
      ensures Valid()
      ensures old(isSlowed) ==> speedX == old(speedX) && speedY == old(speedY) && slowTimer == old(slowTimer)
      ensures !old(isSlowed) ==> speedX == Halved(old(speedX)) && speedY == Halved(old(speedY)) && slowTimer == SlowDuration
      ensures isSlowed
      ensures rect == old(rect) && isGlued == old(isGlued)
      ensures isFast == old(isFast) && fastTimer == old(fastTimer)
    {
      if !isSlowed {
        speedX := Halved(speedX);
        speedY := Halved(speedY);
        isSlowed := true;
        slowTimer := SlowDuration;
      }
    }

    /** Scales both speed components by 1.5 (truncating toward zero) and
        arms the fast timer, unless the ball is already fast. Nothing ever
        clears the fast state, so this works once per ball. */
    method ApplyFast()
      requires Valid()
      modifies this
      ensures Valid()
      ensures old(isFast) ==> speedX == old(speedX) && speedY == old(speedY) && fastTimer == old(fastTimer)
      ensures !old(isFast) ==> speedX == Boosted(old(speedX)) && speedY == Boosted(old(speedY)) && fastTimer == FastDuration
      ensures isFast
      ensures rect == old(rect) && isGlued == old(isGlued)
      ensures isSlowed == old(isSlowed) && slowTimer == old(slowTimer)
    {
      if !isFast {
        speedX := Boosted(speedX);
        speedY := Boosted(speedY);
        isFast := true;
        fastTimer := FastDuration;
      }
    }
  }

  /** A slowed speed component doubled back on expiry loses the odd unit:
      positive odd speeds come back one slower, negative odd ones one faster. */
  lemma SlowRoundTrip(v: int)
    ensures 2 * Halved(v) == v - v % 2
    ensures v % 2 == 0 ==> 2 * Halved(v) == v
    ensures v % 2 == 1 && v > 0 ==> 2 * Halved(v) == v - 1 && 2 * Halved(v) < v
    ensures v % 2 == 1 && v < 0 ==> 2 * Halved(v) == v - 1 && -(2 * Halved(v)) > -v
  {
  }

  // ---------------------------------------------------------------------
  // Bricks, power-ups and laser shots

  datatype Color = Color(r: int, g: int, b: int)

  datatype Brick = Brick(rect: Rect, color: Color)

  const PowerUpWidth := 30
  const PowerUpHeight := 15
  const PowerUpFallSpeed := 3

  datatype PowerUp = PowerUp(rect: Rect, kind: PowerUpKind) {
    /** One tick of falling. */
    function Fallen(): (p: PowerUp)
      ensures p.rect == rect.(y := rect.y + PowerUpFallSpeed) && p.kind == kind
    {
      this.(rect := rect.MovedBy(0, PowerUpFallSpeed))
    }
  }

  /** A new power-up with its top-left corner at (x, y). */
  function NewPowerUp(x: int, y: int, kind: PowerUpKind): (p: PowerUp)
    ensures p.rect.Left() == x && p.rect.Top() == y && p.kind == kind
    ensures p.rect.w == PowerUpWidth && p.rect.h == PowerUpHeight
  {
    PowerUp(Rect(x, y, PowerUpWidth, PowerUpHeight), kind)
  }

  const LaserWidth := 5
  const LaserHeight := 15
  const LaserRiseSpeed := 8

  datatype LaserShot = LaserShot(rect: Rect) {
    /** One tick of rising. */
    function Risen(): (l: LaserShot)
      ensures l.rect == rect.(y := rect.y - LaserRiseSpeed)
    {
      this.(rect := rect.MovedBy(0, -LaserRiseSpeed))
    }
  }

  /** A new laser shot with its top-left corner at (x, y). */
  function NewLaser(x: int, y: int): (l: LaserShot)
    ensures l.rect.Left() == x && l.rect.Top() == y
    ensures l.rect.w == LaserWidth && l.rect.h == LaserHeight
  {
    LaserShot(Rect(x, y, LaserWidth, LaserHeight))
  }
}
