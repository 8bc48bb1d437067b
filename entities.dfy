/** The plain records of game.js (paddle, balls, bricks, falling rewards,
    laser bolts, particles, effect stacks, snapshots) and the small value
    rules that act on one record at a time: effect-stack clamping, the laser
    cooldown, speed-multiplier caps, a brick hit, explosions and the
    particle cap. */
module Entities {
  import opened Util
  import opened Rewards

  datatype BrickKind = Normal | Hard | Mover

  /** A brick. `dropId` is rolled once when the level is built. */
  datatype Brick = Brick(
    uid: int, dropId: PowerId, kind: BrickKind,
    x: real, y: real, w: real, h: real,
    hp: int, maxHp: int, alive: bool, vx: real)

  /** A ball; `stickyAngle` / `stickySpeed` are the pending release of a
      ball caught by the sticky effect (`null` when absent). */
  datatype Ball = Ball(
    r: real, x: real, y: real, vx: real, vy: real,
    speedMul: real, stuck: bool, alive: bool,
    stickyAngle: Option<real>, stickySpeed: Option<real>)

  datatype Paddle = Paddle(baseW: real, w: real, h: real, x: real, y: real, speed: real)

  /** A falling reward. */
  datatype Powerup = Powerup(id: PowerId, x: real, y: real, r: real, vy: real, alive: bool)

  /** A laser bolt. */
  datatype Bullet = Bullet(x: real, y: real, w: real, h: real, vy: real, alive: bool)

  datatype ParticleKind = Dot | Ring | Shard | Shock

  /** A cosmetic particle; only its kind is kept (motion and colour are
      rendering concerns), which is enough for the particle-count cap. */
  datatype Particle = Particle(kind: ParticleKind)

  /** The three effect stacks. */
  datatype Effects = Effects(pierce: int, laser: int, sticky: int)

  /** `makeSnapshot()`: everything the rewind restores. The speed ramp
      (`speedRampT`, `speedRampMul`) is not part of it. */
  datatype Snapshot = Snapshot(
    score: int, lives: int, level: int, paused: bool, running: bool,
    globalSpeedMul: real, shakeT: real, shakePow: real,
    effects: Effects, paddle: Paddle,
    balls: seq<Ball>, bricks: seq<Brick>, powerups: seq<Powerup>,
    bullets: seq<Bullet>, particles: seq<Particle>, shootCD: real)

  // ---------------------------------------------------------------------
  // Invariants of single records
  // ---------------------------------------------------------------------

  const MaxStack := 9

  predicate StackOk(n: int) { 0 <= n <= MaxStack }

  predicate EffectsOk(e: Effects) {
    StackOk(e.pierce) && StackOk(e.laser) && StackOk(e.sticky)
  }

  const NoEffects := Effects(0, 0, 0)

  /** A brick's hit points never go negative, never exceed its maximum, and
      it is alive exactly while it has some left. */
  predicate BrickOk(b: Brick) {
    0 <= b.hp <= b.maxHp && (b.alive <==> b.hp >= 1)
  }

  const MinBallMul := 0.70
  const MaxBallMul := 2.2

  predicate BallOk(b: Ball) {
    MinBallMul <= b.speedMul <= MaxBallMul
  }

  const MinGlobalMul := 0.65
  const MaxGlobalMul := 2.2

  predicate GlobalMulOk(g: real) {
    MinGlobalMul <= g <= MaxGlobalMul
  }

  predicate BallsOk(bs: seq<Ball>) {
    forall i :: 0 <= i < |bs| ==> BallOk(bs[i])
  }

  predicate BricksOk(bs: seq<Brick>) {
    forall i :: 0 <= i < |bs| ==> BrickOk(bs[i])
  }

  /** What every stored snapshot satisfies, so that restoring one keeps the
      live state's invariants. */
  predicate SnapshotOk(s: Snapshot) {
    && s.lives >= 0 && s.level >= 1
    && GlobalMulOk(s.globalSpeedMul)
    && EffectsOk(s.effects)
    && BallsOk(s.balls) && BricksOk(s.bricks)
    && s.paddle.w > 0.0 && s.shootCD >= 0.0
  }

  /** `balls.some(b => b.alive)`. */
  function AnyBallAlive(bs: seq<Ball>): (r: bool)
    ensures r <==> exists i :: 0 <= i < |bs| && bs[i].alive
  {
    if bs == [] then false else bs[0].alive || AnyBallAlive(bs[1..])
  }

  /** `balls.some(b => b.alive && !b.stuck)`. */
  function AnyBallMoving(bs: seq<Ball>): (r: bool)
    ensures r <==> exists i :: 0 <= i < |bs| && bs[i].alive && !bs[i].stuck
    ensures r ==> AnyBallAlive(bs)
  {
    if bs == [] then false else (bs[0].alive && !bs[0].stuck) || AnyBallMoving(bs[1..])
  }

  /** `bricks.some(br => br.alive)`. */
  function AnyBrickAlive(bs: seq<Brick>): (r: bool)
    ensures r <==> exists i :: 0 <= i < |bs| && bs[i].alive
  {
    if bs == [] then false else bs[0].alive || AnyBrickAlive(bs[1..])
  }

  // ---------------------------------------------------------------------
  // Constructors of records
  // ---------------------------------------------------------------------

  /** `makeBall()`. */
  function MakeBall(): (b: Ball)
    ensures BallOk(b) && b.alive && b.stuck
    ensures b.stickyAngle.None? && b.stickySpeed.None?
  {
    Ball(8.0, 0.0, 0.0, 220.0, -320.0, 1.0, true, true, None, None)
  }

  /** The paddle the game starts with. */
  const StartPaddle := Paddle(120.0, 120.0, 14.0, 0.0, 0.0, 780.0)

  /** What `syncStuckBalls` does to one ball: an alive ball resting on the
      paddle is placed on the paddle's centre, 2 pixels above it; only its
      position changes, and any other ball is left alone. */
  function SyncBall(b: Ball, p: Paddle): (r: Ball)
    ensures r == b.(x := r.x, y := r.y)
    ensures b.alive && b.stuck ==> r.x == p.x + p.w / 2.0 && r.y + r.r + 2.0 == p.y
    ensures !(b.alive && b.stuck) ==> r == b
  {
    if b.alive && b.stuck then b.(x := p.x + p.w / 2.0, y := p.y - b.r - 2.0) else b
  }

  /** What the level clear and the end of a rewind do to one ball: an alive
      ball is put back on the paddle with no pending sticky release. */
  function FreezeBall(b: Ball): (r: Ball)
    ensures r.alive == b.alive && (r.alive ==> r.stuck)
    ensures r.alive ==> r.stickyAngle.None? && r.stickySpeed.None?
    ensures r == b.(stuck := r.stuck, stickyAngle := r.stickyAngle, stickySpeed := r.stickySpeed)
    ensures !b.alive ==> r == b
  {
    if b.alive then b.(stuck := true, stickyAngle := None, stickySpeed := None) else b
  }

  /** The state the end of a rewind leaves: snapshot `s` applied, then
      stopped, unpaused, with every alive ball frozen and synced onto the
      restored paddle. Everything else is the snapshot's. */
  function RestoreFrozen(s: Snapshot): (r: Snapshot)
    ensures !r.running && !r.paused
    ensures |r.balls| == |s.balls|
    ensures forall i :: 0 <= i < |r.balls| ==> r.balls[i] == SyncBall(FreezeBall(s.balls[i]), s.paddle)
    ensures forall i :: 0 <= i < |r.balls| ==> (r.balls[i].alive <==> s.balls[i].alive)
    ensures forall i :: 0 <= i < |r.balls| && r.balls[i].alive ==>
      r.balls[i].stuck && r.balls[i].stickyAngle.None? && r.balls[i].stickySpeed.None?
    ensures r == s.(running := false, paused := false, balls := r.balls)
    ensures SnapshotOk(s) ==> SnapshotOk(r)
  {
    var balls := seq(|s.balls|, i requires 0 <= i < |s.balls| => SyncBall(FreezeBall(s.balls[i]), s.paddle));
    s.(running := false, paused := false, balls := balls)
  }

  // ---------------------------------------------------------------------
  // Effect stacks and clamps
  // ---------------------------------------------------------------------

  /** `addEffectStack`: for any amount added the stack stays within [0, 9],
      and moves by exactly the amount when that stays inside. */
  function AddStack(n: int, add: int): (r: int)
    ensures StackOk(r)
    ensures 0 <= n + add <= MaxStack ==> r == n + add
    ensures n + add > MaxStack ==> r == MaxStack
    ensures n + add < 0 ==> r == 0
  {
    if n + add > MaxStack then MaxStack else if n + add < 0 then 0 else n + add
  }

  /** `laserCooldown()`: a little shorter per laser stack, never below 0.26
      seconds nor above 0.55. */
  function LaserCooldown(laser: int): (cd: real)
    ensures 0.26 <= cd <= 0.55
    ensures laser <= 0 ==> cd == 0.55
    ensures laser >= 8 ==> cd == 0.26
  {
    Clamp(0.55 - laser as real * 0.04, 0.26, 0.55)
  }

  /** More laser stacks never make the cooldown longer. */
  lemma LaserCooldownMonotone(a: int, b: int)
    requires a <= b
    ensures LaserCooldown(b) <= LaserCooldown(a)
  {
  }

  /** Paddle-bounce speed growth (`Math.min(2.2, b.speedMul + 0.01)`). */
  function BounceMul(m: real): (r: real)
    ensures r <= MaxBallMul
    ensures m < MaxBallMul - 0.01 ==> r == m + 0.01
    ensures MinBallMul <= m ==> MinBallMul <= r
  {
    Min(MaxBallMul, m + 0.01)
  }

  /** The slow reward (`Math.max(0.70, b.speedMul * 0.82)`). */
  function SlowMul(m: real): (r: real)
    ensures r >= MinBallMul
    ensures m <= MaxBallMul ==> r <= MaxBallMul
    ensures m >= 0.0 ==> r <= m || r == MinBallMul
  {
    Max(MinBallMul, m * 0.82)
  }

  /** `n` paddle bounces in a row. */
  function Bounces(m: real, n: nat): real
    decreases n
  {
    if n == 0 then m else Bounces(BounceMul(m), n - 1)
  }

  /** Any number of paddle bounces keeps a ball's multiplier in range: it
      never exceeds 2.2, and never drops below its floor. */
  lemma {:induction false} BouncesStayInRange(m: real, n: nat)
    requires MinBallMul <= m <= MaxBallMul
    ensures MinBallMul <= Bounces(m, n) <= MaxBallMul
    ensures m <= Bounces(m, n)
    decreases n
  {
    if n > 0 {
      BouncesStayInRange(BounceMul(m), n - 1);
    }
  }

  /** The speed-up and speed-down buttons. */
  function SpeedUp(g: real): (r: real)
    ensures r <= MaxGlobalMul
    ensures g <= MaxGlobalMul ==> g <= r
    ensures MinGlobalMul <= g ==> MinGlobalMul <= r
  {
    Min(MaxGlobalMul, g + 0.12)
  }

  function SpeedDown(g: real): (r: real)
    ensures r >= MinGlobalMul
    ensures g >= MinGlobalMul ==> r <= g
    ensures g <= MaxGlobalMul ==> r <= MaxGlobalMul
  {
    Max(MinGlobalMul, g - 0.12)
  }

  // ---------------------------------------------------------------------
  // Bricks
  // ---------------------------------------------------------------------

  /** One hit, as both the ball and the laser code do it: `hp--`, and the
      brick dies when that leaves it with none. */
  function HitBrick(b: Brick): (r: Brick)
    requires BrickOk(b) && b.alive
    ensures BrickOk(r)
    ensures r.hp == b.hp - 1
    ensures !r.alive <==> b.hp == 1
    ensures r == b.(hp := r.hp, alive := r.alive)
  {
    var hp := b.hp - 1;
    b.(hp := hp, alive := if hp <= 0 then false else b.alive)
  }

  /** `n` hits on a brick, the way the game delivers them: a dead brick is
      skipped, so further hits change nothing. */
  function Hits(b: Brick, n: nat): Brick
    requires BrickOk(b)
    decreases n
  {
    if n == 0 || !b.alive then b else Hits(HitBrick(b), n - 1)
  }

  /** Brick lifetime: after n hits a brick is still alive exactly when n is
      less than the hit points it had, its hit points have dropped by n but
      never below 0, and nothing else about it changed. */
  lemma {:induction false} HitsLifetime(b: Brick, n: nat)
    requires BrickOk(b)
    ensures BrickOk(Hits(b, n))
    ensures Hits(b, n).alive <==> n < b.hp
    ensures Hits(b, n).hp == MaxInt(0, b.hp - n)
    ensures Hits(b, n) == b.(hp := Hits(b, n).hp, alive := Hits(b, n).alive)
    decreases n
  {
    if n > 0 && b.alive {
      HitsLifetime(HitBrick(b), n - 1);
    }
  }

  /** Points for a ball hit (10, plus 45 when it breaks the brick) and for a
      laser hit (8, plus 40). */
  function BallHitPoints(broke: bool): int { if broke then 10 + 45 else 10 }
  function BoltHitPoints(broke: bool): int { if broke then 8 + 40 else 8 }

  /** Points earned by n ball hits on one brick. */
  function BallPoints(b: Brick, n: nat): int
    requires BrickOk(b)
    decreases n
  {
    if n == 0 || !b.alive then 0
    else BallHitPoints(HitBrick(b).hp <= 0) + BallPoints(HitBrick(b), n - 1)
  }

  /** Breaking a brick with the ball alone is worth 10 per hit point plus a
      45-point bonus, however many extra hits are delivered. */
  lemma {:induction false} BallPointsForBreak(b: Brick, n: nat)
    requires BrickOk(b) && b.alive && n >= b.hp
    ensures BallPoints(b, n) == 10 * b.hp + 45
    decreases n
  {
    if b.hp == 1 {
      assert !HitBrick(b).alive;
      assert BallPoints(HitBrick(b), n - 1) == 0;
    } else {
      BallPointsForBreak(HitBrick(b), n - 1);
    }
  }

  /** The particles of `spawnExplosion(type)`: one shock ring plus a burst
      whose size and shape depend on the brick type. */
  function ExplosionParticles(kind: BrickKind): (ps: seq<Particle>)
    ensures |ps| >= 1 && ps[0] == Particle(Shock)
    ensures kind == Normal ==> |ps| == 1 + 24 && forall i :: 1 <= i < |ps| ==> ps[i].kind == Dot
    ensures kind == Hard ==> |ps| == 1 + 38 && forall i :: 1 <= i < |ps| ==> ps[i].kind == Shard
    ensures kind == Mover ==> |ps| == 1 + 30 && forall i :: 1 <= i < |ps| ==> ps[i].kind == Ring
  {
    var count := match kind case Normal => 24 case Hard => 38 case Mover => 30;
    var shape := match kind case Normal => Dot case Hard => Shard case Mover => Ring;
    [Particle(Shock)] + seq(count, _ => Particle(shape))
  }

  const MaxParticles := 1400

  /** The particle cap: when over 1400, the oldest are dropped so that the
      newest 1400 remain, in order. */
  function CapParticles(ps: seq<Particle>): (r: seq<Particle>)
    ensures |r| == if |ps| > MaxParticles then MaxParticles else |ps|
    ensures r == ps[|ps| - |r|..]
  {
    if |ps| > MaxParticles then ps[|ps| - MaxParticles..] else ps
  }
}
