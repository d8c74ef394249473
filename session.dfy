/** The game session: the state the main loop keeps between frames (score,
    lives, level, game state, on-screen message, and the brick, power-up and
    laser collections) and one frame of the loop as `Session.Tick`. The
    keyboard and the random module are replaced by an `Input` and a `Chance`
    record given to each tick. */
module Arkanoid {
  import opened Geometry
  import opened GameObjects
  import opened Levels

  const ScreenWidth := 800
  const ScreenHeight := 600
  const MaxLevels := 5
  const StartLives := 3
  const BrickPoints := 10
  /** The probability that a brick broken by the ball drops a power-up. */
  const DropChance: real := 0.2
  const MessageTicks := 120
  const LevelMessageTicks := 180
  /** The distance of each laser cannon from the paddle's center. */
  const CannonOffset := 30
  const MultiBallMessage := "MULTI-BALL (Coming Soon!)"

  datatype GameState = TitleScreen | Playing | GameOver | YouWin

  /** The keyboard during one frame: whether space or M was pressed, and
      whether the arrow keys are held. */
  datatype Input = Input(space: bool, mute: bool, left: bool, right: bool)

  /** The outcomes of the random draws one frame may make: the launch
      direction of each ball reset or launch, the roll deciding a power-up
      drop, and the kind of the dropped power-up. */
  datatype Chance = Chance(restartRightward: bool, launchRightward: bool,
                           lifeRightward: bool, levelRightward: bool,
                           dropRoll: real, dropKind: PowerUpKind)

  // ---------------------------------------------------------------------
  // Collections

  /** The list with its `i`-th element removed. */
  function RemoveAt<T>(s: seq<T>, i: nat): (r: seq<T>)
    requires i < |s|
    ensures |r| == |s| - 1
  {
    s[..i] + s[i + 1..]
  }

  /** Removing the `i`-th element keeps the elements before it and after it
      in order and takes exactly that one element out of the multiset. */
  lemma RemoveAtKeeps<T>(s: seq<T>, i: nat)
    requires i < |s|
    ensures forall k :: 0 <= k < i ==> RemoveAt(s, i)[k] == s[k]
    ensures forall k :: i <= k < |s| - 1 ==> RemoveAt(s, i)[k] == s[k + 1]
    ensures multiset(RemoveAt(s, i)) + multiset{s[i]} == multiset(s)
  {
    assert s == s[..i] + [s[i]] + s[i + 1..];
  }

  /** The index of the first brick whose rectangle overlaps `r`, or -1 when
      none does. */
  function FirstOverlap(r: Rect, bricks: seq<Brick>): (i: int)
    ensures -1 <= i < |bricks|
  {
    if bricks == [] then -1
    else if r.Collides(bricks[0].rect) then 0
    else
      var k := FirstOverlap(r, bricks[1..]);
      if k < 0 then -1 else k + 1
  }

  /** The scan over the bricks that stops at the first one `r` hits. */
  method FindHit(r: Rect, bricks: seq<Brick>) returns (i: int)
    ensures i == FirstOverlap(r, bricks)
  {
    i := 0;
    while i < |bricks|
      invariant 0 <= i <= |bricks|
      invariant forall k :: 0 <= k < i ==> !r.Collides(bricks[k].rect)
    {
      if r.Collides(bricks[i].rect) {
        FirstOverlapIsFirst(r, bricks, i);
        return;
      }
      i := i + 1;
    }
    FirstOverlapIsFirst(r, bricks, -1);
    i := -1;
  }

  /** `FirstOverlap` hits, and no brick before it does; with -1 no brick
      does. */
  lemma {:induction false} FirstOverlapHits(r: Rect, bricks: seq<Brick>)
    ensures var i := FirstOverlap(r, bricks);
            && (i >= 0 ==> r.Collides(bricks[i].rect))
            && (forall k :: 0 <= k < |bricks| && (i < 0 || k < i) ==> !r.Collides(bricks[k].rect))
  {
    if bricks != [] && !r.Collides(bricks[0].rect) {
      FirstOverlapHits(r, bricks[1..]);
    }
  }

  /** `FirstOverlap` is the only index that hits and has no hit before it. */
  lemma {:induction false} FirstOverlapIsFirst(r: Rect, bricks: seq<Brick>, i: int)
    requires -1 <= i < |bricks|
    requires i >= 0 ==> r.Collides(bricks[i].rect)
    requires forall k :: 0 <= k < |bricks| && (i < 0 || k < i) ==> !r.Collides(bricks[k].rect)
    ensures i == FirstOverlap(r, bricks)
  {
    if bricks != [] && i != 0 {
      FirstOverlapIsFirst(r, bricks[1..], if i < 0 then -1 else i - 1);
    }
  }

  /** What the lasers leave behind after one frame: the shots still flying,
      the remaining bricks and the number of bricks broken. */
  datatype ShotsOutcome = ShotsOutcome(kept: seq<LaserShot>, bricks: seq<Brick>, hits: nat)

  /** One laser shot's frame: it rises; once its bottom has left the top of
      the screen it is dropped; otherwise it breaks the first brick it
      overlaps and disappears with it, or flies on. */
  function Fire(laser: LaserShot, bricks: seq<Brick>): (v: ShotsOutcome)
    ensures v.hits <= 1 && |v.kept| + v.hits <= 1
    ensures |v.bricks| + v.hits == |bricks|
  {
    var shot := laser.Risen();
    if shot.rect.Bottom() < 0 then ShotsOutcome([], bricks, 0)
    else
      var j := FirstOverlap(shot.rect, bricks);
      if j < 0 then ShotsOutcome([shot], bricks, 0)
      else ShotsOutcome([], RemoveAt(bricks, j), 1)
  }

  /** A shot that flies on is the risen shot, still on screen; a shot that
      misses leaves the wall alone; a hit takes one brick out and nothing
      else. */
  lemma FireBounds(laser: LaserShot, bricks: seq<Brick>)
    ensures var v := Fire(laser, bricks);
            && (v.kept == [] || (v.kept == [laser.Risen()] && laser.Risen().rect.Bottom() >= 0))
            && (v.hits == 0 ==> v.bricks == bricks)
            && multiset(v.bricks) <= multiset(bricks)
  {
    var shot := laser.Risen();
    var j := FirstOverlap(shot.rect, bricks);
    if shot.rect.Bottom() >= 0 && j >= 0 {
      RemoveAtKeeps(bricks, j);
    }
  }

  /** One frame of all laser shots, taken in order, each meeting the bricks
      the shots before it left. */
  function Shoot(lasers: seq<LaserShot>, bricks: seq<Brick>): (v: ShotsOutcome)
    ensures |v.bricks| + v.hits == |bricks|
  {
    if lasers == [] then ShotsOutcome([], bricks, 0)
    else
      var n := |lasers| - 1;
      var front := Shoot(lasers[..n], bricks);
      var last := Fire(lasers[n], front.bricks);
      ShotsOutcome(front.kept + last.kept, last.bricks, front.hits + last.hits)
  }

  /** A frame of shots never adds bricks and never keeps more shots than were
      fired; every shot it keeps is still on screen, and a frame of shots that hits
      nothing leaves the wall alone. */
  lemma {:induction false} ShootBounds(lasers: seq<LaserShot>, bricks: seq<Brick>)
    ensures var v := Shoot(lasers, bricks);
            && |v.kept| + v.hits <= |lasers|
            && multiset(v.bricks) <= multiset(bricks)
            && (forall k :: 0 <= k < |v.kept| ==> v.kept[k].rect.Bottom() >= 0)
            && (v.hits == 0 ==> v.bricks == bricks)
  {
    if lasers != [] {
      var n := |lasers| - 1;
      ShootBounds(lasers[..n], bricks);
      FireBounds(lasers[n], Shoot(lasers[..n], bricks).bricks);
    }
  }

  /** The frame of one laser shot: the shot if it flies on, the bricks it
      leaves, and how many it broke. */
  method FireShot(laser: LaserShot, bricks: seq<Brick>) returns (flying: seq<LaserShot>, rest: seq<Brick>, hits: nat)
    ensures ShotsOutcome(flying, rest, hits) == Fire(laser, bricks)
  {
    var shot := laser.Risen();
    flying, rest, hits := [], bricks, 0;
    if shot.rect.Bottom() >= 0 {
      var j := FindHit(shot.rect, bricks);
      if j < 0 {
        flying := [shot];
      } else {
        rest, hits := RemoveAt(bricks, j), 1;
      }
    }
  }

  /** The shots of one frame, in list order, against a shrinking wall. */
  method ShootAll(shots: seq<LaserShot>, wall: seq<Brick>) returns (kept: seq<LaserShot>, bricks: seq<Brick>, hits: nat)
    ensures ShotsOutcome(kept, bricks, hits) == Shoot(shots, wall)
  {
    kept, bricks, hits := [], wall, 0;
    var i := 0;
    while i < |shots|
      invariant 0 <= i <= |shots|
      invariant ShotsOutcome(kept, bricks, hits) == Shoot(shots[..i], wall)
    {
      assert shots[..i + 1][..i] == shots[..i];
      var flying, rest, n := FireShot(shots[i], bricks);
      kept, bricks, hits := kept + flying, rest, hits + n;
      i := i + 1;
    }
    assert shots[..i] == shots;
  }

  /** The paddle as the power-ups meet it: its rectangle and its timers
      (its capability flags follow the timers). */
  datatype Pad = Pad(rect: Rect, timers: Timers)

  function PadOf(p: Paddle): Pad
    reads p
  {
    Pad(p.rect, p.timers)
  }

  /** The kinds a caught power-up hands to the paddle's `activate_power_up`;
      slow and fast go to the ball and multi-ball only announces itself. */
  predicate PaddleKind(kind: PowerUpKind)
  {
    kind != Slow && kind != Fast && kind != Multi
  }

  /** The paddle after catching `kind`: the kind's timer starts at the
      standard duration, and grow and wide resize the paddle about its
      center when their timer was not running. */
  function PadCatch(pad: Pad, kind: PowerUpKind): (q: Pad)
    ensures q.rect.CenterX() == pad.rect.CenterX() && q.rect.y == pad.rect.y
  {
    if !PaddleKind(kind) then pad
    else
      Pad(if kind == Grow && pad.timers.grow == 0 then pad.rect.Resized(GrowWidth)
          else if kind == Wide && pad.timers.wide == 0 then pad.rect.Resized(WideWidth)
          else pad.rect,
          pad.timers.Set(kind, PowerUpDuration))
  }

  /** The ball after catching `kind`: slow halves the speeds (rounding down)
      unless the ball is slowed already, fast scales them by 1.5 unless the
      ball is fast already, and the other kinds leave the ball alone. */
  function BallCatch(m: BallState, kind: PowerUpKind): BallState
  {
    if kind == Slow && !m.isSlowed then
      m.(speedX := Halved(m.speedX), speedY := Halved(m.speedY), isSlowed := true, slowTimer := SlowDuration)
    else if kind == Fast && !m.isFast then
      m.(speedX := Boosted(m.speedX), speedY := Boosted(m.speedY), isFast := true, fastTimer := FastDuration)
    else m
  }

  /** The message a catch of `kind` shows. */
  function Announcement(kind: PowerUpKind): string
  {
    if kind == Multi then MultiBallMessage else Message(kind)
  }

  /** The catches of one frame so far: the paddle and ball as they stand,
      the message showing and its timer, whether each power-up met was
      caught, and the kinds caught, in order. */
  datatype CatchState = CatchState(pad: Pad, ball: BallState, message: string, messageTimer: nat,
                       caught: seq<bool>, kinds: seq<PowerUpKind>)

  /** One power-up falls and meets the paddle as it stands: still on screen
      and touching the paddle, it is caught and applied. */
  function Catch(h: CatchState, p: PowerUp): CatchState
  {
    var q := p.Fallen();
    if q.rect.Top() <= ScreenHeight && h.pad.rect.Collides(q.rect)
    then CatchState(PadCatch(h.pad, p.kind), BallCatch(h.ball, p.kind), Announcement(p.kind), MessageTicks,
              h.caught + [true], h.kinds + [p.kind])
    else h.(caught := h.caught + [false])
  }

  /** The power-ups of a frame, in list order, each meeting the paddle the
      catches before it left. Catches never move the paddle's center or
      row. */
  function Collect(falling: seq<PowerUp>, start: CatchState): (h: CatchState)
    ensures |h.caught| == |start.caught| + |falling|
    ensures |h.kinds| <= |start.kinds| + |falling|
    ensures h.pad.rect.CenterX() == start.pad.rect.CenterX() && h.pad.rect.y == start.pad.rect.y
  {
    if falling == [] then start
    else
      var n := |falling| - 1;
      Catch(Collect(falling[..n], start), falling[n])
  }

  /** One more power-up of the frame. */
  lemma CollectStep(falling: seq<PowerUp>, i: nat, start: CatchState)
    requires i < |falling|
    ensures Collect(falling[..i + 1], start) == Catch(Collect(falling[..i], start), falling[i])
  {
    assert falling[..i + 1][..i] == falling[..i];
  }

  /** Each power-up is caught exactly when, after its fall, it is still on
      screen and touches the paddle as the catches before it left it. */
  lemma {:induction false} CollectEach(falling: seq<PowerUp>, start: CatchState)
    requires start.caught == []
    ensures forall k :: 0 <= k < |falling| ==>
              var q := falling[k].Fallen();
              Collect(falling, start).caught[k]
              == (q.rect.Top() <= ScreenHeight && Collect(falling[..k], start).pad.rect.Collides(q.rect))
  {
    if falling != [] {
      var n := |falling| - 1;
      var before := Collect(falling[..n], start);
      CollectEach(falling[..n], start);
      var q := falling[n].Fallen();
      var last := q.rect.Top() <= ScreenHeight && before.pad.rect.Collides(q.rect);
      assert Collect(falling, start).caught == before.caught + [last];
      forall k | 0 <= k < |falling|
        ensures Collect(falling, start).caught[k]
                == (falling[k].Fallen().rect.Top() <= ScreenHeight
                    && Collect(falling[..k], start).pad.rect.Collides(falling[k].Fallen().rect))
      {
        if k < n {
          assert falling[..n][..k] == falling[..k];
        } else {
          assert falling[..k] == falling[..n];
        }
      }
    }
  }

  /** After the catches, the message showing is the last catch's, for two
      seconds; with no catch the message and its timer are as they were. */
  lemma {:induction false} CollectMessage(falling: seq<PowerUp>, start: CatchState)
    requires start.kinds == []
    ensures var h := Collect(falling, start);
            && (h.kinds == [] ==> h.message == start.message && h.messageTimer == start.messageTimer)
            && (h.kinds != [] ==> h.message == Announcement(h.kinds[|h.kinds| - 1]) && h.messageTimer == MessageTicks)
  {
    if falling != [] {
      CollectMessage(falling[..|falling| - 1], start);
    }
  }

  /** After the catches, the timer of every kind the paddle takes that was
      caught stands at the standard duration; every other timer is as it
      was. */
  lemma {:induction false} CollectTimers(falling: seq<PowerUp>, start: CatchState, kind: PowerUpKind)
    requires start.kinds == []
    ensures Collect(falling, start).pad.timers.Get(kind)
            == if PaddleKind(kind) && kind in Collect(falling, start).kinds then PowerUpDuration
               else start.pad.timers.Get(kind)
  {
    if falling != [] {
      CollectTimers(falling[..|falling| - 1], start, kind);
    }
  }

  /** The power-ups still falling after one frame: every power-up falls, and
      those caught by the paddle or below the screen are gone. */
  function Survivors(powerUps: seq<PowerUp>, caught: seq<bool>): (s: seq<PowerUp>)
    requires |caught| == |powerUps|
    ensures |s| <= |powerUps|
  {
    if powerUps == [] then []
    else
      var n := |powerUps| - 1;
      var p := powerUps[n].Fallen();
      Survivors(powerUps[..n], caught[..n])
      + (if !caught[n] && p.rect.Top() <= ScreenHeight then [p] else [])
  }


  /** No more power-ups are left than before, all of them on screen; when
      none is caught and none falls off the screen, none is lost. */
  lemma {:induction false} SurvivorsBounds(powerUps: seq<PowerUp>, caught: seq<bool>)
    requires |caught| == |powerUps|
    ensures forall k :: 0 <= k < |Survivors(powerUps, caught)| ==> Survivors(powerUps, caught)[k].rect.Top() <= ScreenHeight
    ensures (forall k :: 0 <= k < |caught| ==> !caught[k])
            && (forall k :: 0 <= k < |powerUps| ==> powerUps[k].rect.Top() + PowerUpFallSpeed <= ScreenHeight)
            ==> |Survivors(powerUps, caught)| == |powerUps|
  {
    if powerUps != [] {
      var n := |powerUps| - 1;
      SurvivorsBounds(powerUps[..n], caught[..n]);
    }
  }

  /** The survivors of one more power-up. */
  lemma SurvivorsStep(falling: seq<PowerUp>, i: nat, caught: seq<bool>, hit: bool)
    requires i < |falling| && |caught| == i
    ensures Survivors(falling[..i + 1], caught + [hit])
            == Survivors(falling[..i], caught)
               + (if !hit && falling[i].Fallen().rect.Top() <= ScreenHeight then [falling[i].Fallen()] else [])
  {
    assert falling[..i + 1][..i] == falling[..i];
    assert (caught + [hit])[..i] == caught;
  }

  function DigitChar(d: nat): (c: char)
    requires d < 10
    ensures '0' <= c <= '9' && c as int - '0' as int == d
  {
    "0123456789"[d]
  }

  /** The decimal numeral of `n`: digits only, without leading zeros. */
  function NatToString(n: nat): (s: string)
    ensures |s| >= 1
    ensures forall k :: 0 <= k < |s| ==> '0' <= s[k] <= '9'
    ensures s[0] == '0' ==> n == 0
  {
    if n < 10 then [DigitChar(n)] else NatToString(n / 10) + [DigitChar(n % 10)]
  }

  /** The number a string of decimal digits denotes. */
  function Numeral(s: string): int
  {
    if s == [] then 0 else 10 * Numeral(s[..|s| - 1]) + (s[|s| - 1] as int - '0' as int)
  }

  /** Reading back the numeral of `n` gives `n`: the level number in the
      level message is written out exactly. */
  lemma {:induction false} NumeralOfNatToString(n: nat)
    ensures Numeral(NatToString(n)) == n
  {
    if n >= 10 {
      var s := NatToString(n);
      assert s[..|s| - 1] == NatToString(n / 10);
      NumeralOfNatToString(n / 10);
    }
  }

  /** A power-up whose top-left corner is the center of a broken brick,
      left when the roll is below the drop chance. */
  function Drop(brick: Brick, roll: real, kind: PowerUpKind): (d: seq<PowerUp>)
    ensures roll < DropChance ==>
              |d| == 1 && d[0].kind == kind
              && d[0].rect.Left() == brick.rect.CenterX() && d[0].rect.Top() == brick.rect.CenterY()
    ensures roll >= DropChance ==> d == []
  {
    if roll < DropChance then [NewPowerUp(brick.rect.CenterX(), brick.rect.CenterY(), kind)] else []
  }

  /** The banner of a new level: "LEVEL ", the level's number, "!". */
  function LevelMessage(level: nat): (m: string)
    ensures |m| >= 8
  {
    "LEVEL " + NatToString(level) + "!"
  }

  /** The banner reads back: "LEVEL ", digits that spell the level, "!". */
  lemma LevelMessageReads(level: nat)
    ensures var m := LevelMessage(level);
            && m[..6] == "LEVEL " && m[|m| - 1] == '!'
            && Numeral(m[6..|m| - 1]) == level
  {
    var digits := NatToString(level);
    NumeralOfNatToString(level);
    assert LevelMessage(level)[6..|digits| + 6] == digits;
  }

  // ---------------------------------------------------------------------
  // The session

  /** The main loop's own variables: the game state, score, lives and
      level, the bricks, falling power-ups and laser shots, the on-screen
      message with its countdown, and whether sound is on. */
  datatype Game = Game(state: GameState, score: nat, lives: nat, level: nat,
                       bricks: seq<Brick>, powerUps: seq<PowerUp>, lasers: seq<LaserShot>,
                       message: string, messageTimer: nat, soundOn: bool)

  /** A fresh game on level 1: no score, three lives, level 1's wall, and
      nothing falling or flying. */
  predicate FreshGame(g: Game)
  {
    && g.score == 0 && g.lives == StartLives && g.level == 1
    && g.bricks == Wall(1) && g.powerUps == [] && g.lasers == []
  }

  class Session {
    const paddle: Paddle
    const ball: Ball
    var game: Game

    /** The paddle and ball are consistent and live on an 800 by 600
        screen; the level is one of the five; the game is only played with a
        life left; and the title screen always shows a fresh game. */
    ghost predicate Valid()
      reads this, paddle, ball
    {
      && paddle.Valid() && ball.Valid()
      && paddle.screenWidth == ScreenWidth && paddle.screenHeight == ScreenHeight
      && ball.screenWidth == ScreenWidth && ball.screenHeight == ScreenHeight
      && 1 <= game.level <= MaxLevels
      && game.lives <= StartLives
      && (game.state == Playing ==> game.lives >= 1)
      && (game.state == TitleScreen ==> FreshGame(game))
    }

    /** The ball and the paddle start afresh from `ballBefore` and
        `paddleBefore`: the ball at the screen's center, launched upward in
        the direction `rightward`, neither glued nor slowed (a fast ball
        stays fast); the paddle at normal width with no power-up, its left
        edge placed from its width before the reset. */
    predicate Restarted(rightward: bool, ballBefore: BallState, paddleBefore: Pad)
      reads paddle, ball
    {
      && ball.State() == ballBefore.(rect := ballBefore.rect.WithCenter(ScreenWidth / 2, ScreenHeight / 2),
                                     speedX := LaunchSpeed(rightward), speedY := -BaseSpeed,
                                     isGlued := false, isSlowed := false, slowTimer := 0)
      && paddle.rect == Rect(ScreenWidth / 2 - paddleBefore.rect.w / 2, paddleBefore.rect.y, PaddleWidth, PaddleHeight)
      && paddle.timers == NoTimers && !paddle.hasLaser && !paddle.hasGlue && !paddle.hasShield
    }

    /** Both start afresh, as `Restarted` describes. */
    method Restart(rightward: bool)
      requires Valid()
      modifies paddle, ball
      ensures Valid()
      ensures Restarted(rightward, old(ball.State()), old(PadOf(paddle)))
    {
      ball.Reset(rightward);
      paddle.Reset();
    }

    /** The program's start: level 1's wall, three lives, the title
        screen. */
    constructor (rightward: bool)
      ensures Valid()
      ensures game.state == TitleScreen && FreshGame(game)
      ensures game.message == "" && game.messageTimer == 0 && game.soundOn
      ensures paddle.rect == Rect(ScreenWidth / 2 - PaddleWidth / 2, ScreenHeight - 30, PaddleWidth, PaddleHeight)
      ensures paddle.timers == NoTimers && !paddle.hasLaser && !paddle.hasGlue && !paddle.hasShield
      ensures ball.rect.CenterX() == ScreenWidth / 2 && ball.rect.CenterY() == ScreenHeight / 2
      ensures ball.speedX == LaunchSpeed(rightward) && ball.speedY == -BaseSpeed
      ensures !ball.isGlued && !ball.isSlowed && !ball.isFast
    {
      var wall := CreateBrickWall(1);
      paddle := new Paddle(ScreenWidth, ScreenHeight);
      ball := new Ball(ScreenWidth, ScreenHeight, rightward);
      game := Game(TitleScreen, 0, StartLives, 1, wall, [], [], "", 0, true);
    }

    /** One frame: the space and M key presses, then, while playing, the
        paddle, the ball, the bricks, the power-ups, the lasers and the
        level check, and finally the message countdown. */
    method Tick(input: Input, chance: Chance)
      requires Valid()
      modifies this, paddle, ball
      ensures Valid()
      ensures old(game.state) == TitleScreen && !input.space ==> game.state == TitleScreen
      ensures old(game.state) == TitleScreen && input.space ==>
                game.state == Playing && game.level == 1 && game.lives >= StartLives - 1
      ensures (old(game.state) == GameOver || old(game.state) == YouWin) && input.space ==>
                game.state == TitleScreen && FreshGame(game)
      ensures (old(game.state) == GameOver || old(game.state) == YouWin) && !input.space ==>
                game == old(game).(message := game.message, messageTimer := game.messageTimer,
                                   soundOn := game.soundOn)
      ensures old(game.state) == Playing ==>
                && game.state != TitleScreen
                && game.score >= old(game.score)
                && (game.lives == old(game.lives) || game.lives == old(game.lives) - 1)
                && (game.state == GameOver ==> game.lives == 0)
                && (game.state == YouWin ==> old(game.level) == MaxLevels && game.bricks == [])
      ensures old(game.state) != Playing && !input.space ==> unchanged(paddle, ball)
    {
      HandleKeys(input, chance.restartRightward);
      if game.state == Playing {
        if old(game.state) == TitleScreen {
          WallSize1();
        }
        PlayingStep(input, chance);
      }
      CountDownMessage();
    }

    /** The key presses of a frame: the space key, then the M key. Only the
        space key changes the state, and during play neither key touches
        the score, the lives, the level or the bricks. */
    method HandleKeys(input: Input, restartRightward: bool)
      requires Valid()
      modifies this, paddle, ball
      ensures Valid()
      ensures old(game.state) == TitleScreen && !input.space ==> game.state == TitleScreen
      ensures old(game.state) == TitleScreen && input.space ==>
                game.state == Playing && FreshGame(game)
      ensures (old(game.state) == GameOver || old(game.state) == YouWin) && input.space ==>
                game.state == TitleScreen && FreshGame(game)
      ensures (old(game.state) == GameOver || old(game.state) == YouWin) && !input.space ==>
                game == old(game).(message := game.message, messageTimer := game.messageTimer,
                                   soundOn := game.soundOn)
      ensures old(game.state) == Playing ==>
                game == old(game).(message := game.message, messageTimer := game.messageTimer,
                                   soundOn := game.soundOn, lasers := game.lasers)
      ensures !input.space ==> unchanged(paddle, ball)
    {
      if input.space {
        PressSpace(restartRightward);
      }
      if input.mute {
        ToggleMute();
      }
    }

    /** The space key: starts the game from the title screen, returns from
        the game-over and victory screens to a fresh game on the title
        screen, and during play fires the two laser cannons when the paddle
        has them. */
    method PressSpace(restartRightward: bool)
      requires Valid()
      modifies this, paddle, ball
      ensures Valid()
      ensures old(game.state) == TitleScreen ==>
                game == old(game).(state := Playing) && unchanged(paddle, ball)
      ensures old(game.state) == GameOver || old(game.state) == YouWin ==>
                && game == old(game).(state := TitleScreen, score := 0, lives := StartLives, level := 1,
                                      bricks := Wall(1), powerUps := [], lasers := [])
                && Restarted(restartRightward, old(ball.State()), old(PadOf(paddle)))
      ensures old(game.state) == Playing ==>
                && unchanged(paddle, ball)
                && game == old(game).(lasers := old(game.lasers) + Cannons())
    {
      if game.state == TitleScreen {
        game := game.(state := Playing);
      } else if game.state != Playing {
        Restart(restartRightward);
        var wall := CreateBrickWall(1);
        game := game.(state := TitleScreen, score := 0, lives := StartLives, level := 1,
                      bricks := wall, powerUps := [], lasers := []);
      } else {
        game := game.(lasers := game.lasers + Cannons());
      }
    }

    /** The shots the laser cannons fire when the paddle has the laser
        power-up: their left edges 30 pixels left and 30 pixels right of the
        paddle's center, their tops at the paddle's top. */
    function Cannons(): (shots: seq<LaserShot>)
      reads paddle
      ensures paddle.hasLaser ==> |shots| == 2
      ensures !paddle.hasLaser ==> shots == []
      ensures forall k :: 0 <= k < |shots| ==> shots[k].rect.Top() == paddle.rect.Top()
      ensures |shots| == 2 ==>
                shots[0].rect.Left() == paddle.rect.CenterX() - CannonOffset
                && shots[1].rect.Left() == paddle.rect.CenterX() + CannonOffset
    {
      if paddle.hasLaser
      then [NewLaser(paddle.rect.CenterX() - CannonOffset, paddle.rect.Top()),
            NewLaser(paddle.rect.CenterX() + CannonOffset, paddle.rect.Top())]
      else []
    }

    /** The M key: flips the sound switch and says so for two seconds. */
    method ToggleMute()
      modifies this`game
      ensures game == old(game).(soundOn := !old(game.soundOn),
                                 message := if old(game.soundOn) then "SOUND MUTED" else "SOUND ON",
                                 messageTimer := MessageTicks)
    {
      var on := !game.soundOn;
      game := game.(soundOn := on, message := if !on then "SOUND MUTED" else "SOUND ON",
                    messageTimer := MessageTicks);
    }

    /** The part of a frame that only runs while playing. The game leaves
        play only when the last life is lost or the last level is
        cleared. */
    method PlayingStep(input: Input, chance: Chance)
      requires Valid() && game.state == Playing
      modifies this, paddle, ball
      ensures Valid()
      ensures game.state != TitleScreen
      ensures game.score >= old(game.score)
      ensures game.lives == old(game.lives) || game.lives == old(game.lives) - 1
      ensures (game.lives == old(game.lives) - 1) == old(ball.State()).FallsOut(ScreenHeight)
      ensures game.state == GameOver ==> game.lives == 0
      ensures game.state == YouWin ==> old(game.level) == MaxLevels && game.bricks == []
      ensures game.level == old(game.level)
              || (game.level == old(game.level) + 1 && game.bricks == Wall(game.level)
                  && game.powerUps == [] && game.lasers == [])
      ensures old(game.lives) > 1 && |old(game.bricks)| > |old(game.lasers)| + 1 ==>
                game.state == Playing && game.level == old(game.level)
    {
      MoveAndServe(input, chance);
      Collide(chance);
      CheckCleared(chance.levelRightward);
    }

    /** The level check at the end of a playing frame: an empty wall clears
        the level, anything else leaves the frame as it is. */
    method CheckCleared(rightward: bool)
      requires Valid() && game.state != TitleScreen
      modifies this`game, paddle, ball
      ensures Valid()
      ensures old(game.bricks) != [] ==> game == old(game) && unchanged(paddle, ball)
      ensures old(game.bricks) == [] && old(game.level) >= MaxLevels ==>
                game == old(game).(state := YouWin) && unchanged(paddle, ball)
      ensures old(game.bricks) == [] && old(game.level) < MaxLevels ==>
                && game == old(game).(level := old(game.level) + 1, bricks := Wall(old(game.level) + 1),
                                      score := old(game.score) + 100 * (old(game.level) + 1),
                                      message := LevelMessage(old(game.level) + 1),
                                      messageTimer := LevelMessageTicks, powerUps := [], lasers := [])
                && Restarted(rightward, old(ball.State()), old(PadOf(paddle)))
      ensures game.state == old(game.state)
              || (game.state == YouWin && old(game.level) == MaxLevels && game.bricks == [])
      ensures game.lives == old(game.lives) && game.score >= old(game.score)
      ensures game.level == old(game.level)
              || (game.level == old(game.level) + 1 && game.bricks == Wall(game.level)
                  && game.powerUps == [] && game.lasers == [])
    {
      if game.bricks == [] {
        ClearLevel(rightward);
      }
    }

    /** The paddle moves, the ball moves (or is launched off the glued
        paddle), and a ball lost below the screen costs a life. Only the
        lives and the game state can change here. */
    method MoveAndServe(input: Input, chance: Chance)
      requires Valid() && game.state == Playing
      modifies this`game, paddle, ball
      ensures Valid()
      ensures game == old(game).(lives := game.lives, state := game.state)
      ensures game.lives == old(game.lives) || game.lives == old(game.lives) - 1
      ensures game.state == Playing || (game.state == GameOver && game.lives == 0)
      ensures (game.lives == old(game.lives) - 1) == old(ball.State()).FallsOut(ScreenHeight)
    {
      var status, hit := Move(input, chance);
      if status == Lost {
        LoseBall(chance.lifeRightward);
      }
    }

    /** The paddle follows the arrow keys, then the ball moves against the
        moved paddle; the ball reports whether it was lost. */
    method Move(input: Input, chance: Chance) returns (status: BallStatus, hit: Collision)
      requires Valid()
      modifies paddle, ball
      ensures Valid()
      ensures 0 <= paddle.rect.Left() && paddle.rect.Right() <= ScreenWidth
      ensures paddle.Stepped(old(paddle.State()), input.left, input.right)
      ensures ball.Stepped(old(ball.State()), paddle, input.space, chance.launchRightward, status, hit)
      ensures (status == Lost) == old(ball.State()).FallsOut(ScreenHeight)
    {
      ghost var ball0 := ball.State();
      paddle.Update(input.left, input.right);
      ghost var paddle1 := paddle.State();
      assert ball.State() == ball0;
      status, hit := ball.Update(paddle, input.space, chance.launchRightward);
      assert paddle.State() == paddle1;
      ball.LostIffFallsOut(ball0, paddle, input.space, chance.launchRightward, status, hit);
    }

    /** The ball against the bricks, the falling power-ups against the
        paddle, and the laser shots against the bricks. The state, lives
        and level stay; the score only grows; at most one brick goes to the
        ball and at most one to each shot. */
    method Collide(chance: Chance)
      requires Valid() && game.state != TitleScreen
      modifies this`game, paddle, ball
      ensures Valid()
      ensures game.state == old(game.state) && game.lives == old(game.lives) && game.level == old(game.level)
      ensures game.score >= old(game.score)
      ensures |game.bricks| + 1 + |old(game.lasers)| >= |old(game.bricks)|
    {
      BallVsBricks(chance.dropRoll, chance.dropKind);
      CollectPowerUps();
      ghost var before := game;
      UpdateLasers();
      ShootBounds(before.lasers, before.bricks);
    }

    /** A ball below the screen costs a life. Without lives left the game is
        over; otherwise ball and paddle start afresh. */
    method LoseBall(rightward: bool)
      requires Valid() && game.state == Playing
      modifies this`game, paddle, ball
      ensures Valid()
      ensures game.lives == old(game.lives) - 1
      ensures game.lives == 0 ==> game == old(game).(lives := 0, state := GameOver) && unchanged(paddle, ball)
      ensures game.lives > 0 ==>
                && game == old(game).(lives := game.lives)
                && Restarted(rightward, old(ball.State()), old(PadOf(paddle)))
    {
      var lives := game.lives - 1;
      if lives <= 0 {
        game := game.(lives := lives, state := GameOver);
      } else {
        game := game.(lives := lives);
        Restart(rightward);
      }
    }

    /** The ball breaks at most one brick a frame: the first one in the list
        it overlaps. That brick scores ten points, turns the ball back
        vertically and, when the roll is below the drop chance, leaves a
        power-up of the drawn kind at its center. */
    method BallVsBricks(roll: real, kind: PowerUpKind)
      requires Valid() && game.state != TitleScreen
      modifies this`game, ball`speedY
      ensures Valid()
      ensures var i := FirstOverlap(ball.rect, old(game.bricks));
              && (i < 0 ==> game == old(game) && ball.speedY == old(ball.speedY))
              && (i >= 0 ==>
                    && game == old(game).(bricks := RemoveAt(old(game.bricks), i),
                                          score := old(game.score) + BrickPoints,
                                          powerUps := old(game.powerUps) + Drop(old(game.bricks)[i], roll, kind))
                    && ball.speedY == -old(ball.speedY))
    {
      var i := FindHit(ball.rect, game.bricks);
      if i >= 0 {
        BreakBrick(i, roll, kind);
      }
    }

    /** The ball breaks brick `i`: it bounces vertically, the brick goes,
        the score rises and the roll may leave a power-up. */
    method BreakBrick(i: nat, roll: real, kind: PowerUpKind)
      requires Valid() && game.state != TitleScreen && i < |game.bricks|
      modifies this`game, ball`speedY
      ensures Valid()
      ensures game == old(game).(bricks := RemoveAt(old(game.bricks), i),
                                 score := old(game.score) + BrickPoints,
                                 powerUps := old(game.powerUps) + Drop(old(game.bricks)[i], roll, kind))
      ensures ball.speedY == -old(ball.speedY)
    {
      var brick := game.bricks[i];
      ball.speedY := -ball.speedY;
      game := game.(bricks := RemoveAt(game.bricks, i), score := game.score + BrickPoints,
                    powerUps := game.powerUps + Drop(brick, roll, kind));
    }

    /** Every power-up falls; one below the screen is dropped, one touching
        the paddle is caught and applied, the others fall on. A catch may
        resize the paddle about its center, so later power-ups meet the
        resized paddle. The message left showing is the last catch's. */
    method CollectPowerUps()
      requires Valid() && game.state != TitleScreen
      modifies this`game, paddle, ball
      ensures Valid()
      ensures var h := Collect(old(game.powerUps), old(CatchSnapshot()));
              && PadOf(paddle) == h.pad && ball.State() == h.ball
              && game == old(game).(powerUps := Survivors(old(game.powerUps), h.caught),
                                    message := h.message, messageTimer := h.messageTimer)
    {
      var falling := game.powerUps;
      var kept := [];
      ghost var start := CatchSnapshot();
      ghost var h := start;
      var i := 0;
      while i < |falling|
        invariant 0 <= i <= |falling|
        invariant Valid()
        invariant h == Collect(falling[..i], start)
        invariant PadOf(paddle) == h.pad && ball.State() == h.ball
        invariant game == old(game).(message := h.message, messageTimer := h.messageTimer)
        invariant kept == Survivors(falling[..i], h.caught)
      {
        var p := falling[i].Fallen();
        var hit := CatchPowerUp(falling[i], h);
        CollectStep(falling, i, start);
        SurvivorsStep(falling, i, h.caught, hit);
        ghost var next := Catch(h, falling[i]);
        assert next == Collect(falling[..i + 1], start);
        assert next.caught == h.caught + [hit];
        if !hit && p.rect.Top() <= ScreenHeight {
          kept := kept + [p];
        }
        assert kept == Survivors(falling[..i + 1], next.caught);
        h := next;
        i := i + 1;
      }
      assert falling[..i] == falling;
      game := game.(powerUps := kept);
    }

    /** The paddle, ball and message as the catches of a frame start from. */
    ghost function CatchSnapshot(): CatchState
      reads this, paddle, ball
    {
      CatchState(PadOf(paddle), ball.State(), game.message, game.messageTimer, [], [])
    }

    /** One power-up falls and meets the paddle: when it is still on screen
        and overlaps the paddle it is caught and applied, as `Catch` says
        for the catches `h` so far. */
    method CatchPowerUp(p: PowerUp, ghost h: CatchState) returns (hit: bool)
      requires Valid()
      requires PadOf(paddle) == h.pad && ball.State() == h.ball
      requires game.message == h.message && game.messageTimer == h.messageTimer
      modifies this`game, paddle, ball
      ensures Valid()
      ensures hit == (p.Fallen().rect.Top() <= ScreenHeight && old(paddle.rect).Collides(p.Fallen().rect))
      ensures var n := Catch(h, p);
              && n.caught == h.caught + [hit]
              && PadOf(paddle) == n.pad && ball.State() == n.ball
              && game == old(game).(message := n.message, messageTimer := n.messageTimer)
    {
      var q := p.Fallen();
      hit := q.rect.Top() <= ScreenHeight && paddle.rect.Collides(q.rect);
      if hit {
        ApplyPowerUp(p.kind);
      }
    }

    /** A caught power-up: slow and fast act on the ball, multi-ball only
        announces itself, and the other kinds start the paddle's power-up
        with the standard duration. Each shows its message for two
        seconds. */
    method ApplyPowerUp(kind: PowerUpKind)
      requires Valid()
      modifies this`game, paddle, ball
      ensures Valid()
      ensures PadOf(paddle) == PadCatch(old(PadOf(paddle)), kind)
      ensures ball.State() == BallCatch(old(ball.State()), kind)
      ensures paddle.hasLaser == (old(paddle.hasLaser) || kind == Laser)
      ensures paddle.hasGlue == (old(paddle.hasGlue) || kind == Glue)
      ensures paddle.hasShield == (old(paddle.hasShield) || kind == Shield)
      ensures game == old(game).(message := Announcement(kind), messageTimer := MessageTicks)
    {
      if kind == Slow {
        ball.ApplySlow();
      } else if kind == Fast {
        ball.ApplyFast();
      } else if kind == Multi {
        game := game.(message := MultiBallMessage, messageTimer := MessageTicks);
        return;
      } else {
        paddle.ActivatePowerUp(kind, PowerUpDuration);
      }
      game := game.(message := Message(kind), messageTimer := MessageTicks);
    }

    /** Every laser shot rises, and each that is still on screen breaks the
        first brick it overlaps (ten points) and vanishes with it. */
    method UpdateLasers()
      requires Valid() && game.state != TitleScreen
      modifies this`game
      ensures Valid()
      ensures var v := Shoot(old(game.lasers), old(game.bricks));
              game == old(game).(lasers := v.kept, bricks := v.bricks, score := old(game.score) + 10 * v.hits)
    {
      var kept, bricks, hits := ShootAll(game.lasers, game.bricks);
      game := game.(lasers := kept, bricks := bricks, score := game.score + 10 * hits);
    }

    /** With no bricks left, the next level starts, or after the last level
        the game is won. */
    method ClearLevel(rightward: bool)
      requires Valid() && game.bricks == [] && game.state != TitleScreen
      modifies this`game, paddle, ball
      ensures Valid()
      ensures game.lives == old(game.lives) && game.score >= old(game.score)
      ensures game.state == old(game.state)
              || (game.state == YouWin && old(game.level) == MaxLevels && game.bricks == [])
      ensures game.level == old(game.level)
              || (game.level == old(game.level) + 1 && game.bricks == Wall(game.level)
                  && game.powerUps == [] && game.lasers == [])
      ensures old(game.level) >= MaxLevels ==>
                game == old(game).(state := YouWin) && unchanged(paddle, ball)
      ensures old(game.level) < MaxLevels ==>
                && game == old(game).(level := old(game.level) + 1, bricks := Wall(old(game.level) + 1),
                                      score := old(game.score) + 100 * (old(game.level) + 1),
                                      message := LevelMessage(old(game.level) + 1),
                                      messageTimer := LevelMessageTicks, powerUps := [], lasers := [])
                && Restarted(rightward, old(ball.State()), old(PadOf(paddle)))
    {
      if game.level < MaxLevels {
        NextLevel(rightward);
      } else {
        game := game.(state := YouWin);
      }
    }

    /** The next level: its wall, a fresh ball and paddle, a bonus of a
        hundred points per level number, its announcement for three
        seconds, and no falling power-ups or shots. */
    method NextLevel(rightward: bool)
      requires Valid() && game.level < MaxLevels && game.state != TitleScreen
      modifies this`game, paddle, ball
      ensures Valid()
      ensures game == old(game).(level := old(game.level) + 1, bricks := Wall(old(game.level) + 1),
                                 score := old(game.score) + 100 * (old(game.level) + 1),
                                 message := LevelMessage(old(game.level) + 1),
                                 messageTimer := LevelMessageTicks, powerUps := [], lasers := [])
      ensures Restarted(rightward, old(ball.State()), old(PadOf(paddle)))
    {
      Restart(rightward);
      EnterLevel(game.level + 1);
    }

    /** The game record of level `next`: its wall, the bonus, the
        announcement, and nothing falling or rising. */
    method EnterLevel(next: nat)
      requires Valid() && game.state != TitleScreen && next == game.level + 1 <= MaxLevels
      modifies this`game
      ensures Valid()
      ensures game == old(game).(level := next, bricks := Wall(next), score := old(game.score) + 100 * next,
                                 message := LevelMessage(next), messageTimer := LevelMessageTicks,
                                 powerUps := [], lasers := [])
    {
      var wall := CreateBrickWall(next);
      game := game.(level := next, bricks := wall, score := game.score + 100 * next,
                    message := LevelMessage(next), messageTimer := LevelMessageTicks,
                    powerUps := [], lasers := []);
    }

    /** The on-screen message counts down one frame and stops at zero. */
    method CountDownMessage()
      modifies this`game
      ensures old(game.messageTimer) > 0 ==> game == old(game).(messageTimer := old(game.messageTimer) - 1)
      ensures old(game.messageTimer) == 0 ==> game == old(game)
    {
      if game.messageTimer > 0 {
        game := game.(messageTimer := game.messageTimer - 1);
      }
    }
  }
}
