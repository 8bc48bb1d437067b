/** The live state of game.js as one object: the snapshot-copied play
    state, the speed ramp, the reward tables and the rewind history, with
    the operations of the game core that update them in place. */
module Game {
  import opened Util
  import opened Rewards
  import opened Entities
  import opened Collide
  import opened Levels
  import opened History
  import Flow

  /** The floating-point library calls the core makes. */
  datatype Trig = Trig(sin: real -> real, cos: real -> real, hypot: (real, real) -> real)

  /** `bulletCfg`. */
  const BoltW := 4.0
  const BoltH := 12.0
  const BoltVy := -900.0

  /** A reward's radius. */
  const PowerupR := 12.0

  /** The cruising speed of a launched ball. */
  const LaunchSpeed := 380.0

  /** The UI weights are the clamped integers the inputs accept, the
      applied tables hold every identity and no negative weight. */
  predicate TablesInv(chanceUI: Weights, enabledApplied: Flags, chanceApplied: Weights) {
    && (forall id :: 0 <= Chance(chanceUI, id) <= 100)
    && (forall id :: id in enabledApplied && id in chanceApplied)
    && NonNegTable(chanceApplied)
  }

  /** Checkpoints are ordered frames of the history, the rewind target is a
      frame of it, the accumulator is never negative, a rewind never runs on
      an empty history, and every stored snapshot satisfies the live
      invariants. */
  predicate HistoryInv(history: seq<Snapshot>, checkpoints: seq<int>, rewindTarget: Option<int>,
    rewindActive: bool, rewindAcc: real)
  {
    && Increasing(checkpoints) && Below(checkpoints, |history|)
    && rewindAcc >= 0.0
    && (rewindTarget.Some? ==> 0 <= rewindTarget.value < |history|)
    && (rewindActive ==> |history| >= 1)
    && (forall i :: 0 <= i < |history| ==> SnapshotOk(history[i]))
  }

  /** The bolt pair of `fireBulletPair`: at a fifth and four fifths of the
      paddle's width, 2 pixels above it, both alive and flying up. */
  function BoltPair(p: Paddle): (r: seq<Bullet>)
    ensures |r| == 2
    ensures forall k :: 0 <= k < 2 ==> r[k].alive && r[k].vy < 0.0 && r[k].y == p.y - 2.0
    ensures p.w > 0.0 ==> p.x < r[0].x < r[1].x < p.x + p.w
  {
    [Bullet(p.x + p.w * 0.20, p.y - 2.0, BoltW, BoltH, BoltVy, true),
     Bullet(p.x + p.w * 0.80, p.y - 2.0, BoltW, BoltH, BoltVy, true)]
  }

  /** The reward `spawnPowerupFixed` drops from a broken brick: at the
      brick's centre, falling faster on later levels. */
  function DropFrom(br: Brick, level: int): (p: Powerup)
    ensures p.id == br.dropId && p.alive && p.r == PowerupR
    ensures br.w >= 0.0 && br.h >= 0.0 ==> br.x <= p.x <= br.x + br.w && br.y <= p.y <= br.y + br.h
    ensures level >= 1 ==> p.vy > 160.0
  {
    Powerup(br.dropId, br.x + br.w / 2.0, br.y + br.h / 2.0, PowerupR, 160.0 + level as real * 8.0, true)
  }

  /** The particles of `spawnClearCelebration`: 120 sparks, each a ring or
      a dot as the draw `ring(i)` says, then one shock ring. */
  function Celebration(ring: int -> bool): (ps: seq<Particle>)
    ensures |ps| == 121 && ps[120] == Particle(Shock)
    ensures forall i :: 0 <= i < 120 ==> ps[i].kind == (if ring(i) then ParticleKind.Ring else Dot)
  {
    seq(120, i => Particle(if ring(i) then ParticleKind.Ring else Dot)) + [Particle(Shock)]
  }

  /** What `launch` does to one ball: an alive ball resting on the paddle
      leaves upwards, with its pending sticky release when it has one and
      otherwise at 380 pixels per second at the drawn angle `a`. */
  function LaunchBall(b: Ball, a: real, trig: Trig): (r: Ball)
    ensures !(b.alive && b.stuck) ==> r == b
    ensures b.alive && b.stuck ==> !r.stuck && r.vy <= 0.0
    ensures r == b.(stuck := r.stuck, vx := r.vx, vy := r.vy, stickyAngle := r.stickyAngle, stickySpeed := r.stickySpeed)
    ensures b.alive && b.stuck && b.stickyAngle.Some? && b.stickySpeed.Some? ==>
      r.vx == b.stickySpeed.value * trig.sin(b.stickyAngle.value) && r.stickyAngle.None? && r.stickySpeed.None?
    ensures b.alive && b.stuck && !(b.stickyAngle.Some? && b.stickySpeed.Some?) ==>
      r.vx == LaunchSpeed * trig.sin(a) && r.stickyAngle == b.stickyAngle && r.stickySpeed == b.stickySpeed
  {
    if !(b.alive && b.stuck) then b
    else if b.stickyAngle.Some? && b.stickySpeed.Some? then
      var sp := b.stickySpeed.value;
      var ang := b.stickyAngle.value;
      b.(stuck := false, vx := sp * trig.sin(ang), vy := -Abs(sp * trig.cos(ang)),
        stickyAngle := None, stickySpeed := None)
    else
      b.(stuck := false, vx := LaunchSpeed * trig.sin(a), vy := -Abs(LaunchSpeed * trig.cos(a)))
  }

  /** The slowest a ball leaves the paddle, in pixels per second. */
  const MinBounceSpeed := 320.0

  /** One ball's move for the frame at `spMul` times its velocity, then
      its bounces off the left or right wall and off the ceiling of a
      stage `fw` wide: the ball is put back against the wall it crossed and
      that velocity component flips. */
  function Walled(b: Ball, spMul: real, dt: real, fw: real): (r: Ball)
    ensures r == b.(x := r.x, y := r.y, vx := r.vx, vy := r.vy)
    ensures Abs(r.vx) == Abs(b.vx) && Abs(r.vy) == Abs(b.vy)
    ensures 0.0 <= b.r && 2.0 * b.r <= fw ==> b.r <= r.x <= fw - b.r
    ensures r.y >= b.r
  {
    var x := b.x + b.vx * spMul * dt;
    var y := b.y + b.vy * spMul * dt;
    var (x, vx) := if x - b.r < 0.0 then (b.r, -b.vx) else if x + b.r > fw then (fw - b.r, -b.vx) else (x, b.vx);
    var (y, vy) := if y - b.r < 0.0 then (b.r, -b.vy) else (y, b.vy);
    b.(x := x, y := y, vx := vx, vy := vy)
  }

  /** A falling ball meets the paddle. */
  predicate PaddleContact(b: Ball, p: Paddle) {
    CircleRect(b.x, b.y, b.r, p.x, p.y, p.w, p.h) && b.vy > 0.0
  }

  /** The angle a ball leaves the paddle at: where it struck, from the
      paddle's middle as a fraction of half its width, kept within -1 and 1
      and scaled by the widest bounce `maxBounce`. Left of the middle it
      goes left, right of it right, and off an end at the widest angle. */
  function BounceAngle(b: Ball, p: Paddle, maxBounce: real): (a: real)
    requires p.w > 0.0 && 0.0 < maxBounce
    ensures -maxBounce <= a <= maxBounce
    ensures a < 0.0 <==> b.x < p.x + p.w / 2.0
    ensures a > 0.0 <==> b.x > p.x + p.w / 2.0
    ensures b.x <= p.x ==> a == -maxBounce
    ensures b.x >= p.x + p.w ==> a == maxBounce
  {
    var half := p.w / 2.0;
    var hit := (b.x - (p.x + half)) / half;
    assert hit * half == b.x - (p.x + half);
    assert hit < 0.0 <==> b.x < p.x + half;
    assert hit > 0.0 <==> b.x > p.x + half;
    assert b.x <= p.x ==> hit <= -1.0 by {
      if b.x <= p.x {
        DivAtMost(b.x - (p.x + half), -1.0, half);
      }
    }
    assert b.x >= p.x + p.w ==> hit >= 1.0 by {
      if b.x >= p.x + p.w {
        DivAtLeast(b.x - (p.x + half), 1.0, half);
      }
    }
    Clamp(hit, -1.0, 1.0) * maxBounce
  }

  /** The speed a ball leaves the paddle with: its own, but no less than
      320. */
  function BounceSpeed(b: Ball, trig: Trig): (sp: real)
    ensures sp >= MinBounceSpeed
    ensures sp == MinBounceSpeed || sp == trig.hypot(b.vx, b.vy)
  {
    Max(MinBounceSpeed, trig.hypot(b.vx, b.vy))
  }

  /** A paddle bounce without the sticky reward: the ball is lifted half a
      pixel clear of the paddle and leaves upwards at its bounce angle and
      speed, its multiplier up by 0.01 but never past 2.2. */
  function Bounced(b: Ball, p: Paddle, maxBounce: real, trig: Trig): (r: Ball)
    requires p.w > 0.0 && 0.0 < maxBounce
    ensures r == b.(y := p.y - b.r - 0.5, vx := r.vx, vy := r.vy, speedMul := r.speedMul)
    ensures r.vy <= 0.0 && r.speedMul == BounceMul(b.speedMul)
    ensures r.vx == BounceSpeed(b, trig) * trig.sin(BounceAngle(b, p, maxBounce))
    ensures BallOk(b) ==> BallOk(r)
  {
    var a := BounceAngle(b, p, maxBounce);
    var sp := BounceSpeed(b, trig);
    b.(y := p.y - b.r - 0.5, vx := sp * trig.sin(a), vy := -Abs(sp * trig.cos(a)), speedMul := BounceMul(b.speedMul))
  }

  /** A paddle contact while the sticky reward lasts: the ball rests on the
      paddle and keeps the bounce angle and speed for its launch; its
      velocity and multiplier stay as they were. */
  function Caught(b: Ball, p: Paddle, maxBounce: real, trig: Trig): (r: Ball)
    requires p.w > 0.0 && 0.0 < maxBounce
    ensures r == b.(y := p.y - b.r - 0.5, stuck := true, stickyAngle := r.stickyAngle, stickySpeed := r.stickySpeed)
    ensures r.stickyAngle.Some? && -maxBounce <= r.stickyAngle.value <= maxBounce
    ensures r.stickySpeed.Some? && r.stickySpeed.value >= MinBounceSpeed
  {
    b.(y := p.y - b.r - 0.5, stuck := true,
      stickyAngle := Some(BounceAngle(b, p, maxBounce)), stickySpeed := Some(BounceSpeed(b, trig)))
  }

  /** The sticky reward only postpones the bounce: a caught ball, put on
      the paddle and launched, leaves with the velocity the plain bounce
      would have given it and drops its stored angle and speed, but misses
      the bounce's 0.01 multiplier rise. */
  lemma CatchThenLaunch(b: Ball, p: Paddle, maxBounce: real, a: real, trig: Trig)
    requires p.w > 0.0 && 0.0 < maxBounce && b.alive
    ensures var l := LaunchBall(SyncBall(Caught(b, p, maxBounce, trig), p), a, trig);
      var u := Bounced(b, p, maxBounce, trig);
      && l.vx == u.vx && l.vy == u.vy && !l.stuck
      && l.stickyAngle.None? && l.stickySpeed.None? && l.speedMul == b.speedMul
  {
  }

  /** The first part of the frame's ball loop for ball `i` (a dead or
      resting ball is skipped): it moves and bounces off the walls, dies
      once wholly below the stage `fh` high, and otherwise on a paddle
      contact is either caught (every resting ball then follows the
      paddle) or bounced. `spMul` is its speed factor for the frame. */
  function BallStep(s: Snapshot, i: int, spMul: real, dt: real, fw: real, fh: real, maxBounce: real, trig: Trig)
    : (r: Snapshot)
    requires SnapshotOk(s) && 0 <= i < |s.balls| && 0.0 < maxBounce
    ensures SnapshotOk(r) && r == s.(balls := r.balls) && |r.balls| == |s.balls|
    ensures !s.balls[i].alive || s.balls[i].stuck ==> r == s
    ensures s.balls[i].alive && !s.balls[i].stuck ==>
      var w := Walled(s.balls[i], spMul, dt, fw);
      && (!r.balls[i].alive <==> w.y - w.r > fh)
      && (r.balls[i].stuck <==> r.balls[i].alive && PaddleContact(w, s.paddle) && s.effects.sticky > 0)
      && (r.balls[i].alive && !r.balls[i].stuck && PaddleContact(w, s.paddle) ==> r.balls[i].vy <= 0.0)
      && (forall j :: 0 <= j < |s.balls| && j != i ==>
        r.balls[j] == s.balls[j] || r.balls[j] == SyncBall(s.balls[j], s.paddle))
  {
    var b := s.balls[i];
    if !b.alive || b.stuck then s
    else
      var w := Walled(b, spMul, dt, fw);
      if w.y - w.r > fh then s.(balls := s.balls[i := w.(alive := false)])
      else if PaddleContact(w, s.paddle) then
        if s.effects.sticky > 0 then s.(balls := SyncedBalls(s.balls[i := Caught(w, s.paddle, maxBounce, trig)], s.paddle))
        else s.(balls := s.balls[i := Bounced(w, s.paddle, maxBounce, trig)])
      else s.(balls := s.balls[i := w])
  }

  /** An alive ball touches brick `br`. */
  predicate BallTouches(br: Brick, b: Ball) {
    br.alive && CircleRect(b.x, b.y, b.r, br.x, br.y, br.w, br.h)
  }

  /** A bolt's hit box: centred on its x, extending its height above its y. */
  function BoltBox(bu: Bullet): (r: Box)
    ensures r.w == bu.w && r.h == bu.h && r.y + r.h == bu.y
  {
    Box(bu.x - bu.w / 2.0, bu.y - bu.h, bu.w, bu.h)
  }

  /** An alive brick overlaps the bolt box. */
  predicate BoltTouches(br: Brick, box: Box) {
    br.alive && RectRect(box, Box(br.x, br.y, br.w, br.h))
  }

  /** From `a` to `b` bricks only wore down: same bricks in the same
      order, each either unchanged or alive before and with fewer hit
      points after, nothing else about it changed. */
  predicate Worn(a: seq<Brick>, b: seq<Brick>) {
    && |a| == |b|
    && forall k :: 0 <= k < |a| ==>
      (b[k] == a[k] || (a[k].alive && b[k].hp < a[k].hp && b[k] == a[k].(hp := b[k].hp, alive := b[k].alive)))
  }

  /** Wearing is a preorder: nothing wears itself, and two wears are one. */
  lemma WornTrans(a: seq<Brick>, b: seq<Brick>, c: seq<Brick>)
    requires Worn(a, b) && Worn(b, c)
    ensures Worn(a, c) && Worn(a, a)
  {
    forall k | 0 <= k < |a|
      ensures c[k] == a[k] || (a[k].alive && c[k].hp < a[k].hp && c[k] == a[k].(hp := c[k].hp, alive := c[k].alive))
    {
      if b[k] != a[k] && c[k] != b[k] {
        assert b[k].alive;
      }
    }
  }

  /** Worn bricks never come back to life, and a dead brick stays as it
      was. */
  lemma WornNeverRevives(a: seq<Brick>, b: seq<Brick>, k: int)
    requires Worn(a, b) && 0 <= k < |a|
    ensures !a[k].alive ==> b[k] == a[k]
    ensures b[k].hp <= a[k].hp && b[k].uid == a[k].uid && b[k].kind == a[k].kind
  {
  }

  /** What every level starts with: at most 11 bricks in each row but the
      first, uids 1 .. n in creation order, each brick fresh for the level
      and carrying a drop from the applied pick list; a happy level is
      never empty. */
  predicate LevelBricks(bricks: seq<Brick>, lv: int, en: Flags, ch: Weights) {
    && |bricks| <= (Rows(lv) - 1) * Cols
    && (forall i :: 0 <= i < |bricks| ==> bricks[i].uid == i + 1)
    && (forall i :: 0 <= i < |bricks| ==> FreshBrick(bricks[i], lv, Rows(lv), PickList(PowerTypes, en, ch)))
    && (HappyCadence(lv) ==> |bricks| >= 1)
  }

  /** The ball after it bounces off brick `br` without a pierce stack: the
      approach side is judged from the centre one motion step back. Exactly
      one velocity component is negated and nothing else changes. */
  function Deflected(b: Ball, br: Brick, spMul: real, dt: real): (r: Ball)
    ensures r == b.(vx := -b.vx) || r == b.(vy := -b.vy)
  {
    var prevX := b.x - b.vx * spMul * dt;
    var prevY := b.y - b.vy * spMul * dt;
    var v := Bounce(prevX, prevY, b.r, Box(br.x, br.y, br.w, br.h), b.vx, b.vy);
    b.(vx := v.0, vy := v.1)
  }

  /** The ball a multi-ball reward splits from: the first alive one,
      otherwise the first one, and none when there are no balls. */
  function SplitSource(bs: seq<Ball>): (r: Option<Ball>)
    ensures r.None? <==> bs == []
    ensures AnyBallAlive(bs) ==> r.Some? && r.value.alive
    ensures r.Some? ==> r.value in bs
  {
    if bs == [] then None
    else if AnyBallAlive(bs) then Some(FirstAlive(bs))
    else Some(bs[0])
  }

  /** `balls.find(b => b.alive)`. */
  function FirstAlive(bs: seq<Ball>): (r: Ball)
    requires AnyBallAlive(bs)
    ensures r.alive && r in bs
  {
    if bs[0].alive then bs[0] else FirstAlive(bs[1..])
  }

  /** One ball of a multi-ball split: in flight from the source's position,
      upwards at the source's speed (360 when it has none) and angle `a`,
      keeping its speed multiplier. */
  function SplitBall(src: Ball, a: real, trig: Trig): (r: Ball)
    ensures r.alive && !r.stuck && r.vy <= 0.0
    ensures r.x == src.x && r.y == src.y && r.speedMul == src.speedMul
    ensures r.stickyAngle.None? && r.stickySpeed.None?
  {
    var h := trig.hypot(src.vx, src.vy);
    var sp := if h == 0.0 then 360.0 else h;
    MakeBall().(stuck := false, x := src.x, y := src.y, vx := sp * trig.sin(a),
      vy := -Abs(sp * trig.cos(a)), speedMul := src.speedMul)
  }

  /** A snapshot after `spawnExplosion(kind)`: the shake grows up to its
      caps and the burst of the brick's type is appended to the particles;
      nothing else changes. */
  function Exploded(s: Snapshot, kind: BrickKind): (r: Snapshot)
    ensures r == s.(shakeT := r.shakeT, shakePow := r.shakePow, particles := r.particles)
    ensures r.shakeT <= 0.14 && r.shakePow <= 6.0
    ensures s.shakeT <= 0.04 ==> r.shakeT == s.shakeT + 0.10
    ensures r.particles == s.particles + ExplosionParticles(kind)
  {
    s.(shakeT := Min(0.14, s.shakeT + 0.10), shakePow := Min(6.0, s.shakePow + (if kind == Hard then 4.0 else 2.8)),
      particles := s.particles + ExplosionParticles(kind))
  }

  /** A snapshot after `spawnPowerupFixed(br)` under the UI tables `en`,
      `ch`: the brick's drop falls only when it passes the live gate. */
  function Dropped(s: Snapshot, br: Brick, en: Flags, ch: Weights): (r: Snapshot)
    ensures r == s.(powerups := r.powerups)
    ensures LiveGate(en, ch, br.dropId) ==> r.powerups == s.powerups + [DropFrom(br, s.level)]
    ensures !LiveGate(en, ch, br.dropId) ==> r == s
  {
    if LiveGate(en, ch, br.dropId) then s.(powerups := s.powerups + [DropFrom(br, s.level)]) else s
  }

  /** A snapshot after one hit on brick `k` (by a bolt when `byBolt`):
      that brick alone loses a hit point, the score grows by the hit's
      points, and a brick that breaks explodes and may drop its reward.
      The lives, level, flags, speed, effects, paddle, balls and bolts are
      untouched and the snapshot invariant is kept. */
  function Damaged(s: Snapshot, k: int, byBolt: bool, en: Flags, ch: Weights): (r: Snapshot)
    requires 0 <= k < |s.bricks| && BrickOk(s.bricks[k]) && s.bricks[k].alive
    ensures r == s.(bricks := r.bricks, score := r.score, shakeT := r.shakeT, shakePow := r.shakePow,
      particles := r.particles, powerups := r.powerups)
    ensures r.bricks == s.bricks[k := HitBrick(s.bricks[k])]
    ensures var broke := !HitBrick(s.bricks[k]).alive;
      r.score == s.score + (if byBolt then BoltHitPoints(broke) else BallHitPoints(broke))
    ensures HitBrick(s.bricks[k]).alive ==>
      r == s.(bricks := r.bricks, score := r.score)
    ensures !HitBrick(s.bricks[k]).alive ==>
      r == Dropped(Exploded(s.(bricks := r.bricks, score := r.score), s.bricks[k].kind), s.bricks[k], en, ch)
    ensures SnapshotOk(s) ==> SnapshotOk(r)
  {
    var br := HitBrick(s.bricks[k]);
    var t := s.(bricks := s.bricks[k := br], score := s.score + (if byBolt then 8 else 10));
    if br.hp <= 0 then Dropped(Exploded(t.(score := t.score + (if byBolt then 40 else 45)), br.kind), br, en, ch)
    else t
  }

  /** A hit does not look at the bolts. */
  lemma DamagedIgnoresBullets(s: Snapshot, k: int, byBolt: bool, en: Flags, ch: Weights, bs: seq<Bullet>)
    requires 0 <= k < |s.bricks| && BrickOk(s.bricks[k]) && s.bricks[k].alive
    ensures Damaged(s.(bullets := bs), k, byBolt, en, ch) == Damaged(s, k, byBolt, en, ch).(bullets := bs)
  {
  }

  /** The first alive brick from position `k` on that `box` overlaps. */
  function FirstBoltHit(bricks: seq<Brick>, box: Box, k: nat): (h: Option<int>)
    requires k <= |bricks|
    ensures h.Some? ==> (k <= h.value < |bricks| && BoltTouches(bricks[h.value], box)
      && forall m :: k <= m < h.value ==> !BoltTouches(bricks[m], box))
    ensures h.None? ==> forall m :: k <= m < |bricks| ==> !BoltTouches(bricks[m], box)
    decreases |bricks| - k
  {
    if k == |bricks| then None
    else if BoltTouches(bricks[k], box) then Some(k)
    else FirstBoltHit(bricks, box, k + 1)
  }

  /** Bolt `j` after this frame's move up. */
  function BoltMoved(s: Snapshot, j: int, dt: real): Bullet
    requires 0 <= j < |s.bullets|
  {
    s.bullets[j].(y := s.bullets[j].y + s.bullets[j].vy * dt)
  }

  /** The brick bolt `j` hits this frame, if any. */
  function BoltHit(s: Snapshot, j: int, dt: real): Option<int>
    requires 0 <= j < |s.bullets|
  {
    var bu := BoltMoved(s, j, dt);
    if !s.bullets[j].alive || bu.y + bu.h < 0.0 then None
    else FirstBoltHit(s.bricks, BoltBox(bu), 0)
  }

  /** One bolt's frame (game.js 1396-1424): a spent bolt changes nothing;
      otherwise it moves up and is spent above the stage, or on the first
      brick its box overlaps, which takes a bolt hit. Only that bolt, the
      bricks and what a break adds change: the bricks only wear, the score
      never drops, and a bolt that wears a brick is spent. */
  function BoltStepped(s: Snapshot, j: int, dt: real, en: Flags, ch: Weights): (r: Snapshot)
    requires SnapshotOk(s) && 0 <= j < |s.bullets|
    ensures SnapshotOk(r) && |r.bullets| == |s.bullets|
    ensures Worn(s.bricks, r.bricks) && r.score >= s.score
    ensures r.lives == s.lives && r.level == s.level && r.effects == s.effects
      && r.balls == s.balls && r.paddle == s.paddle
    ensures forall i :: 0 <= i < |s.bullets| && i != j ==> r.bullets[i] == s.bullets[i]
    ensures !s.bullets[j].alive ==> r == s
    ensures r.bricks != s.bricks ==> !r.bullets[j].alive
    ensures BoltHit(s, j, dt).Some? ==> r == Damaged(s, BoltHit(s, j, dt).value, true, en, ch).(
      bullets := s.bullets[j := BoltMoved(s, j, dt).(alive := false)])
  {
    var bu := BoltMoved(s, j, dt);
    if !s.bullets[j].alive then s
    else if bu.y + bu.h < 0.0 then s.(bullets := s.bullets[j := bu.(alive := false)])
    else match FirstBoltHit(s.bricks, BoltBox(bu), 0)
      case None => s.(bullets := s.bullets[j := bu])
      case Some(k) =>
        var d := Damaged(s, k, true, en, ch);
        assert Worn(s.bricks, d.bricks);
        d.(bullets := s.bullets[j := bu.(alive := false)])
  }

  /** The bolt loop of `update`: bolts 0 .. n-1 take their step in
      order. The bricks only wear and the score never drops. */
  function BoltsStepped(s: Snapshot, n: int, dt: real, en: Flags, ch: Weights): (r: Snapshot)
    requires SnapshotOk(s) && 0 <= n <= |s.bullets|
    ensures SnapshotOk(r) && |r.bullets| == |s.bullets|
    ensures Worn(s.bricks, r.bricks) && r.score >= s.score
    ensures r.lives == s.lives && r.level == s.level && r.effects == s.effects
      && r.balls == s.balls && r.paddle == s.paddle
    ensures forall i :: n <= i < |s.bullets| ==> r.bullets[i] == s.bullets[i]
    decreases n
  {
    if n == 0 then s
    else
      var t := BoltsStepped(s, n - 1, dt, en, ch);
      var r := BoltStepped(t, n - 1, dt, en, ch);
      WornTrans(s.bricks, t.bricks, r.bricks);
      r
  }

  /** The balls after the slow reward: every multiplier drops by 18%, to
      no less than 0.70, and nothing else about a ball changes. */
  function Slowed(bs: seq<Ball>): (r: seq<Ball>)
    ensures |r| == |bs|
    ensures forall i :: 0 <= i < |r| ==> r[i] == bs[i].(speedMul := SlowMul(bs[i].speedMul))
    ensures BallsOk(bs) ==> BallsOk(r)
  {
    seq(|bs|, i requires 0 <= i < |bs| => bs[i].(speedMul := SlowMul(bs[i].speedMul)))
  }

  /** The balls after the multi-ball reward: two balls split from the
      source ball (angles `spread(0)` and `spread(1)`) are appended; with
      no ball at all nothing is added. */
  function SplitAdded(bs: seq<Ball>, spread: int -> real, trig: Trig): (r: seq<Ball>)
    ensures bs == [] ==> r == []
    ensures bs != [] ==> (
      && |r| == |bs| + 2 && r[..|bs|] == bs
      && r[|bs|] == SplitBall(SplitSource(bs).value, spread(0), trig)
      && r[|bs| + 1] == SplitBall(SplitSource(bs).value, spread(1), trig))
    ensures BallsOk(bs) ==> BallsOk(r)
  {
    if bs == [] then []
    else
      var src := SplitSource(bs).value;
      bs + [SplitBall(src, spread(0), trig), SplitBall(src, spread(1), trig)]
  }

  /** A snapshot after `applyPowerup(id)` under the UI tables `en`, `ch`
      on a stage `fw` wide. A reward that fails the live gate does nothing;
      otherwise only the lives, the run flag, the effects, the paddle and
      the balls can change: the paddle widens by 35% up to 62% of the
      stage, two balls split off and play runs, one stack is added, one
      life is added, or every ball slows down. The snapshot invariant is
      kept. */
  function Rewarded(s: Snapshot, id: PowerId, en: Flags, ch: Weights, fw: real, spread: int -> real, trig: Trig): (r: Snapshot)
    ensures !LiveGate(en, ch, id) ==> r == s
    ensures r == s.(lives := r.lives, running := r.running, effects := r.effects, paddle := r.paddle, balls := r.balls)
    ensures SnapshotOk(s) && fw > 0.0 ==> SnapshotOk(r)
    ensures LiveGate(en, ch, id) && id == Expand ==> (
      && r == s.(paddle := s.paddle.(w := r.paddle.w))
      && r.paddle.w <= fw * 0.62 && (s.paddle.w * 1.35 <= fw * 0.62 ==> r.paddle.w == s.paddle.w * 1.35))
    ensures LiveGate(en, ch, id) && id == Multi ==> (
      && r.balls == SplitAdded(s.balls, spread, trig)
      && r.running == (s.running || s.balls != [])
      && (s.balls != [] ==> AnyBallMoving(r.balls))
      && r == s.(balls := r.balls, running := r.running))
    ensures LiveGate(en, ch, id) && id == Pierce ==> r == s.(effects := s.effects.(pierce := AddStack(s.effects.pierce, 1)))
    ensures LiveGate(en, ch, id) && id == Laser ==> r == s.(effects := s.effects.(laser := AddStack(s.effects.laser, 1)))
    ensures LiveGate(en, ch, id) && id == Sticky ==> r == s.(effects := s.effects.(sticky := AddStack(s.effects.sticky, 1)))
    ensures LiveGate(en, ch, id) && id == Life ==> r == s.(lives := s.lives + 1)
    ensures LiveGate(en, ch, id) && id == Slow ==> r == s.(balls := Slowed(s.balls))
  {
    if !LiveGate(en, ch, id) then s
    else match id
      case Expand => s.(paddle := s.paddle.(w := Min(fw * 0.62, s.paddle.w * 1.35)))
      case Multi =>
        if s.balls == [] then s
        else
          var r := SplitAdded(s.balls, spread, trig);
          assert r[|s.balls|].alive && !r[|s.balls|].stuck;
          s.(balls := r, running := true)
      case Pierce => s.(effects := s.effects.(pierce := AddStack(s.effects.pierce, 1)))
      case Laser => s.(effects := s.effects.(laser := AddStack(s.effects.laser, 1)))
      case Life => s.(lives := s.lives + 1)
      case Slow => s.(balls := Slowed(s.balls))
      case Sticky => s.(effects := s.effects.(sticky := AddStack(s.effects.sticky, 1)))
      case NoDrop => s
  }

  /** A snapshot after falling reward `j` takes its step on a stage `fw`
      by `fh`: a dead reward is skipped; a live one moves down, is used up
      when it touches the paddle (and applied, as `Rewarded` says) and is
      lost once wholly below the stage. */
  function PowerupStepped(s: Snapshot, j: int, dt: real, fw: real, fh: real, en: Flags, ch: Weights,
    spread: int -> real, trig: Trig): (r: Snapshot)
    requires 0 <= j < |s.powerups|
    ensures !s.powerups[j].alive ==> r == s
    ensures |r.powerups| == |s.powerups| && r.powerups == s.powerups[j := r.powerups[j]]
    ensures s.powerups[j].alive ==> (
      var q := s.powerups[j].(y := s.powerups[j].y + s.powerups[j].vy * dt);
      var caught := CircleRect(q.x, q.y, q.r, s.paddle.x, s.paddle.y, s.paddle.w, s.paddle.h);
      && r.powerups[j] == q.(alive := !caught && q.y - q.r <= fh)
      && (!caught ==> r == s.(powerups := r.powerups))
      && (caught ==> r == Rewarded(s.(powerups := r.powerups), q.id, en, ch, fw, spread, trig)))
    ensures SnapshotOk(s) && fw > 0.0 ==> SnapshotOk(r)
  {
    var p := s.powerups[j];
    if !p.alive then s
    else
      var q := p.(y := p.y + p.vy * dt);
      var caught := CircleRect(q.x, q.y, q.r, s.paddle.x, s.paddle.y, s.paddle.w, s.paddle.h);
      var t := s.(powerups := s.powerups[j := q.(alive := !caught && q.y - q.r <= fh)]);
      if caught then Rewarded(t, q.id, en, ch, fw, spread, trig) else t
  }

  /** Every ball after `syncStuckBalls` against paddle `p`. */
  function SyncedBalls(bs: seq<Ball>, p: Paddle): (r: seq<Ball>)
    ensures |r| == |bs| && forall i :: 0 <= i < |r| ==> r[i] == SyncBall(bs[i], p)
    ensures BallsOk(bs) ==> BallsOk(r)
  {
    seq(|bs|, i requires 0 <= i < |bs| => SyncBall(bs[i], p))
  }

  /** Every ball after the freeze loop of the level clear and the rewind. */
  function FrozenBalls(bs: seq<Ball>): (r: seq<Ball>)
    ensures |r| == |bs| && forall i :: 0 <= i < |r| ==> r[i] == FreezeBall(bs[i])
    ensures BallsOk(bs) ==> BallsOk(r)
  {
    seq(|bs|, i requires 0 <= i < |bs| => FreezeBall(bs[i]))
  }

  /** A snapshot after `spawnClearCelebration()`: the shake grows up to
      its caps and the 121 particles of `Celebration(ring)` are appended. */
  function Celebrated(s: Snapshot, ring: int -> bool): (r: Snapshot)
    ensures r == s.(shakeT := r.shakeT, shakePow := r.shakePow, particles := r.particles)
    ensures r.shakeT <= 0.18 && r.shakePow <= 8.0
    ensures r.particles == s.particles + Celebration(ring)
  {
    s.(shakeT := Min(0.18, s.shakeT + 0.12), shakePow := Min(8.0, s.shakePow + 4.2),
      particles := s.particles + Celebration(ring))
  }

  /** A snapshot after `handleLevelClear()`: the global speed is back to
      1, play stops, every alive ball is frozen onto the paddle (so none is
      in flight), and the celebration is added. Score, lives, level,
      effects, paddle, bricks, rewards and bolts are kept. */
  function Cleared(s: Snapshot, ring: int -> bool): (r: Snapshot)
    ensures r == s.(globalSpeedMul := 1.0, running := false, balls := r.balls,
      shakeT := r.shakeT, shakePow := r.shakePow, particles := r.particles)
    ensures r.balls == SyncedBalls(FrozenBalls(s.balls), s.paddle)
    ensures forall i :: 0 <= i < |r.balls| ==> (r.balls[i].alive <==> s.balls[i].alive)
    ensures !AnyBallMoving(r.balls)
    ensures r.particles == s.particles + Celebration(ring)
    ensures SnapshotOk(s) ==> SnapshotOk(r)
  {
    Celebrated(s.(globalSpeedMul := 1.0, running := false, balls := SyncedBalls(FrozenBalls(s.balls), s.paddle)), ring)
  }

  /** A snapshot after the state half of `resetToServe()` on a stage `fw`
      by `fh`: the paddle is centred 26 pixels above the floor (its width
      kept), one fresh ball rests on it, the rewards, bolts and particles
      are gone, the laser cooldown, run flag, global speed, effect stacks
      and shake are reset. Score, lives, level, pause and bricks are
      kept. */
  function Served(s: Snapshot, fw: real, fh: real): (r: Snapshot)
    ensures r == s.(paddle := r.paddle, balls := r.balls, powerups := [], bullets := [], particles := [],
      shootCD := 0.0, running := false, globalSpeedMul := 1.0, effects := NoEffects, shakeT := 0.0, shakePow := 0.0)
    ensures r.paddle == s.paddle.(y := fh - 26.0, x := (fw - s.paddle.w) / 2.0)
    ensures r.balls == [SyncBall(MakeBall(), r.paddle)]
    ensures r.balls[0].alive && r.balls[0].stuck && r.balls[0].x == r.paddle.x + r.paddle.w / 2.0
    ensures SnapshotOk(s) ==> SnapshotOk(r)
  {
    var p := s.paddle.(y := fh - 26.0, x := (fw - s.paddle.w) / 2.0);
    s.(paddle := p, balls := [SyncBall(MakeBall(), p)], powerups := [], bullets := [], particles := [],
      shootCD := 0.0, running := false, globalSpeedMul := 1.0, effects := NoEffects, shakeT := 0.0, shakePow := 0.0)
  }

  /** The level `proceedNextLevel` goes to: the pending one, else the one
      after the current level. */
  function NextLevel(pending: Option<int>, level: int): int
  {
    if pending.Some? then pending.value else level + 1
  }

  /** The paddle width of level `lv` on a stage `fw` wide: its base
      width, 5% narrower from level 7, kept between 90 pixels and 62% of
      the stage. */
  function LevelPaddleW(baseW: real, lv: int, fw: real): (w: real)
    ensures 90.0 <= fw * 0.62 ==> 90.0 <= w <= fw * 0.62
    ensures lv < 7 && 90.0 <= baseW <= fw * 0.62 ==> w == baseW
  {
    Clamp(baseW * (if lv >= 7 then 0.95 else 1.0), 90.0, fw * 0.62)
  }

  class World {
    /** The stage size (`stage.clientWidth`, `stage.clientHeight`). */
    const fieldW: real
    const fieldH: real

    /** Everything `makeSnapshot` copies: score, lives, level, the pause
        and run flags, the global speed, the shake, the effect stacks, the
        paddle, the five entity arrays and the laser cooldown. */
    var play: Snapshot

    var speedRampT: real
    var speedRampMul: real
    var secretEnabled: bool

    var history: seq<Snapshot>
    var checkpoints: seq<int>
    var rewindTarget: Option<int>
    var rewindActive: bool
    var rewindAcc: real

    var brickUidCounter: int
    var awaitingNextLevel: bool
    var pendingLevel: Option<int>

    var enabledUI: Flags
    var chanceUI: Weights
    var enabledApplied: Flags
    var chanceApplied: Weights

    // -------------------------------------------------------------------
    // Invariants
    // -------------------------------------------------------------------

    /** See `TablesInv`. */
    predicate TablesOk()
      reads this`chanceUI, this`enabledApplied, this`chanceApplied
    {
      TablesInv(chanceUI, enabledApplied, chanceApplied)
    }

    /** See `HistoryInv`. */
    predicate HistoryOk()
      reads this`history, this`checkpoints, this`rewindTarget, this`rewindActive, this`rewindAcc
    {
      HistoryInv(history, checkpoints, rewindTarget, rewindActive, rewindAcc)
    }

    /** The play state satisfies what every snapshot does, and a pending
        level is a real level. */
    predicate PlayOk()
      reads this`play, this`pendingLevel
    {
      SnapshotOk(play) && (pendingLevel.Some? ==> pendingLevel.value >= 1)
    }

    /** The whole invariant; the level-clear wait and a rewind never
        overlap. */
    predicate Valid()
      reads this
    {
      && fieldW > 0.0 && fieldH > 0.0
      && HistoryOk() && PlayOk()
      && (awaitingNextLevel ==> !rewindActive)
    }

    // -------------------------------------------------------------------
    // Queries
    // -------------------------------------------------------------------

    /** `isGameplayRunning()`: some life left, neither paused nor
        rewinding, and some ball alive and in flight. */
    function GameplayRunning(): (r: bool)
      reads this`play, this`rewindActive
      ensures r <==> (play.lives >= 1 && !play.paused && !rewindActive &&
        exists i :: 0 <= i < |play.balls| && play.balls[i].alive && !play.balls[i].stuck)
    {
      if play.lives <= 0 then false
      else if play.paused || rewindActive then false
      else AnyBallMoving(play.balls)
    }

    /** `makeSnapshot()`. */
    function MakeSnapshot(): Snapshot
      reads this`play
    {
      play
    }

    /** The state the page script's declarations set up, before its last
        two lines run: score 0, 3 lives, level 1, nothing on the stage, no
        history, every reward enabled, and both weight tables at the
        defaults. */
    constructor (w: real, h: real)
      requires w > 0.0 && h > 0.0
      ensures Valid() && TablesOk()
      ensures fieldW == w && fieldH == h
      ensures play == Snapshot(0, 3, 1, false, false, 1.0, 0.0, 0.0, NoEffects, StartPaddle, [], [], [], [], [], 0.0)
      ensures enabledUI == AllEnabled() && enabledApplied == AllEnabled()
      ensures chanceUI == DefaultChances() && chanceApplied == DefaultChances()
      ensures history == [] && checkpoints == [] && rewindTarget.None? && !rewindActive
      ensures !awaitingNextLevel && pendingLevel.None? && !secretEnabled
      ensures speedRampT == 0.0 && speedRampMul == 1.0 && rewindAcc == 0.0 && brickUidCounter == 1
    {
      fieldW, fieldH := w, h;
      play := Snapshot(0, 3, 1, false, false, 1.0, 0.0, 0.0, NoEffects, StartPaddle, [], [], [], [], [], 0.0);
      speedRampT, speedRampMul := 0.0, 1.0;
      secretEnabled := false;
      history, checkpoints, rewindTarget, rewindActive, rewindAcc := [], [], None, false, 0.0;
      brickUidCounter := 1;
      awaitingNextLevel, pendingLevel := false, None;
      enabledUI, chanceUI := AllEnabled(), DefaultChances();
      enabledApplied, chanceApplied := AllEnabled(), DefaultChances();
      new;
      DefaultTablesOk();
    }

    /** The last two lines of the page script: the UI tables are committed
        (the verdict is not looked at) and level 1 is built. With the
        default tables the commit passes (`DefaultsWithinHundred`). */
    method Start(rnd: LevelRandom) returns (built: bool)
      requires Valid() && TablesOk() && !rewindActive
      modifies this`play, this`brickUidCounter, this`speedRampT, this`speedRampMul,
        this`history, this`checkpoints, this`rewindTarget, this`chanceUI, this`enabledApplied, this`chanceApplied
      ensures Valid() && TablesOk()
      ensures var sum := RealEnabledSum(PowerTypes, enabledUI, old(chanceUI));
        && (sum <= 100 ==> (chanceUI == old(chanceUI)[NoDrop := 100 - sum]
          && enabledApplied == CommitEnabled(enabledUI) && chanceApplied == CommitChances(enabledUI, old(chanceUI))))
        && (sum > 100 ==> (chanceUI == old(chanceUI) && enabledApplied == old(enabledApplied)
          && chanceApplied == old(chanceApplied)))
      ensures built <==> !old(GameplayRunning())
      ensures built ==> LevelBuilt(1, rnd, old(play))
      ensures !built ==> (brickUidCounter == 1 && play == old(play)
        && speedRampT == old(speedRampT) && speedRampMul == old(speedRampMul)
        && history == old(history) && checkpoints == old(checkpoints) && rewindTarget == old(rewindTarget))
    {
      var ok := ApplyPowerSettingsFromUI();
      built := BuildLevel(1, rnd);
    }

    // -------------------------------------------------------------------
    // Paddle and stuck balls
    // -------------------------------------------------------------------

    /** `clampPaddle()`: the paddle stays 8 pixels inside both walls. */
    method ClampPaddle()
      modifies this`play
      ensures play == old(play).(paddle := old(play.paddle).(x := Clamp(old(play.paddle.x), 8.0, fieldW - old(play.paddle.w) - 8.0)))
      ensures 16.0 + play.paddle.w <= fieldW ==> 8.0 <= play.paddle.x && play.paddle.x + play.paddle.w <= fieldW - 8.0
    {
      play := play.(paddle := play.paddle.(x := Clamp(play.paddle.x, 8.0, fieldW - play.paddle.w - 8.0)));
    }

    /** `syncStuckBalls()`: every alive stuck ball sits on the paddle's
        centre. */
    method SyncStuckBalls()
      modifies this`play
      ensures play == old(play).(balls := SyncedBalls(old(play.balls), old(play.paddle)))
    {
      for i := 0 to |play.balls|
        invariant play == old(play).(balls := play.balls)
        invariant |play.balls| == |old(play.balls)|
        invariant forall j :: 0 <= j < i ==> play.balls[j] == SyncBall(old(play.balls)[j], play.paddle)
        invariant forall j :: i <= j < |play.balls| ==> play.balls[j] == old(play.balls)[j]
      {
        play := play.(balls := play.balls[i := SyncBall(play.balls[i], play.paddle)]);
      }
      assert play.balls == SyncedBalls(old(play.balls), old(play.paddle));
    }

    /** The loop shared by `handleLevelClear` and the end of the rewind:
        every alive ball is stuck again and loses its pending sticky
        release. */
    method FreezeBalls()
      modifies this`play
      ensures play == old(play).(balls := FrozenBalls(old(play.balls)))
    {
      for i := 0 to |play.balls|
        invariant play == old(play).(balls := play.balls)
        invariant |play.balls| == |old(play.balls)|
        invariant forall j :: 0 <= j < i ==> play.balls[j] == FreezeBall(old(play.balls)[j])
        invariant forall j :: i <= j < |play.balls| ==> play.balls[j] == old(play.balls)[j]
      {
        play := play.(balls := play.balls[i := FreezeBall(play.balls[i])]);
      }
      assert play.balls == FrozenBalls(old(play.balls));
    }

    // -------------------------------------------------------------------
    // Snapshots and the rewind
    // -------------------------------------------------------------------

    /** `applySnapshot(s)`: the live state becomes the snapshot, so taking a
        snapshot right after gives it back. */
    method ApplySnapshot(s: Snapshot)
      modifies this`play
      ensures MakeSnapshot() == s
    {
      play := s.(effects := Effects(s.effects.pierce, s.effects.laser, s.effects.sticky));
    }

    /** `captureSnapshot()`: the current state is appended; when that makes
        the history longer than 90 seconds of frames, the overflow is taken
        from the front and the checkpoints and the target move down with
        it. */
    method CaptureSnapshot()
      requires Valid()
      modifies this`history, this`checkpoints, this`rewindTarget
      ensures Valid()
      ensures |history| <= Capacity || history == old(history) + [MakeSnapshot()]
      ensures |old(history)| < Capacity ==> (history == old(history) + [MakeSnapshot()]
        && checkpoints == old(checkpoints) && rewindTarget == old(rewindTarget))
      ensures |old(history)| >= Capacity ==> (
        var k := |old(history)| + 1 - Capacity;
        && |history| == Capacity
        && history == (old(history) + [MakeSnapshot()])[k..]
        && checkpoints == ShiftCheckpoints(old(checkpoints), k)
        && rewindTarget == ShiftTarget(old(rewindTarget), k))
    {
      PushSnapshot();
      if |history| > Capacity {
        TrimOverflow();
      }
    }

    /** `history.push(makeSnapshot())`. */
    method PushSnapshot()
      requires HistoryOk() && SnapshotOk(play)
      modifies this`history
      ensures HistoryOk()
      ensures history == old(history) + [MakeSnapshot()]
    {
      var h := history + [MakeSnapshot()];
      assert forall i :: 0 <= i < |h| ==> SnapshotOk(h[i]);
      history := h;
    }

    /** The overflow branch of `captureSnapshot`. */
    method TrimOverflow()
      requires HistoryOk() && |history| > Capacity
      modifies this`history, this`checkpoints, this`rewindTarget
      ensures HistoryOk()
      ensures var k := |old(history)| - Capacity;
        && history == old(history)[k..]
        && checkpoints == ShiftCheckpoints(old(checkpoints), k)
        && rewindTarget == ShiftTarget(old(rewindTarget), k)
    {
      var overflow := |history| - Capacity;
      ShiftKeepsOrder(checkpoints, overflow);
      ShiftKeepsBelow(checkpoints, overflow, |history|);
      if rewindTarget.Some? {
        ShiftTargetInside(rewindTarget, overflow, |history|);
      }
      history := history[overflow..];
      checkpoints := ShiftCheckpoints(checkpoints, overflow);
      rewindTarget := ShiftTarget(rewindTarget, overflow);
    }

    /** `startRewind()`: only when not already rewinding, with some
        checkpoint, the secret switch on and a ball in flight; it aims at
        the last checkpoint. Its one caller (the rewind key) is never
        reached while the level-clear message waits. */
    method StartRewind()
      requires Valid() && !awaitingNextLevel
      modifies this`rewindActive, this`rewindAcc, this`rewindTarget
      ensures Valid()
      ensures var go := !old(rewindActive) && |checkpoints| > 0 && secretEnabled && old(GameplayRunning());
        && (go ==> rewindActive && rewindAcc == 0.0 && rewindTarget == Some(checkpoints[|checkpoints| - 1]))
        && (!go ==> (rewindActive == old(rewindActive) && rewindAcc == old(rewindAcc)
          && rewindTarget == old(rewindTarget)))
    {
      if rewindActive || |checkpoints| == 0 || !secretEnabled || !GameplayRunning() {
        return;
      }
      rewindActive := true;
      rewindAcc := 0.0;
      rewindTarget := Some(checkpoints[|checkpoints| - 1]);
    }

    /** `stopRewind()`: the target is kept. */
    method StopRewind()
      requires HistoryOk()
      modifies this`rewindActive, this`rewindAcc
      ensures HistoryOk()
      ensures !rewindActive && rewindAcc == 0.0
    {
      rewindActive := false;
      rewindAcc := 0.0;
    }

    /** The rewind key's skip, taken only while a rewind runs (game.js
        714-731) and only with two checkpoints or more: the target moves to
        the checkpoint before the one it is on. */
    method SkipToPreviousCheckpoint()
      requires Valid() && rewindActive
      modifies this`rewindTarget
      ensures Valid()
      ensures |checkpoints| < 2 ==> rewindTarget == old(rewindTarget)
      ensures |checkpoints| >= 2 ==>
        var cur := if old(rewindTarget).None? then checkpoints[|checkpoints| - 1] else old(rewindTarget).value;
        rewindTarget == Some(SkipTarget(checkpoints, cur))
    {
      if |checkpoints| >= 2 {
        var cur := if rewindTarget.None? then checkpoints[|checkpoints| - 1] else rewindTarget.value;
        var idx := SkipIndex(checkpoints, cur);
        rewindTarget := Some(checkpoints[MaxInt(0, idx - 1)]);
      }
    }

    /** `updateRewind(dt)`, with the checkpoints that a pop leaves past the
        end of the history dropped. Whole steps of 1/60 second in the
        accumulator each pop one frame and restore the new last one, until
        the history is cut back to the target; then the target frame is
        restored, frozen and unpaused, and the rewind stops. */
    method UpdateRewind(dt: real)
      requires Valid() && rewindActive && dt >= 0.0
      modifies this`play, this`history, this`checkpoints, this`rewindTarget, this`rewindActive, this`rewindAcc
      ensures Valid()
      ensures rewindTarget.Some?
      ensures old(rewindTarget).Some? ==> rewindTarget == old(rewindTarget)
      ensures old(rewindTarget).None? ==> rewindTarget == Some(
        if |old(checkpoints)| > 0 then old(checkpoints)[|old(checkpoints)| - 1] else 0)
      ensures |history| <= old(|history|) && history == old(history)[..|history|]
      ensures rewindActive ==> (
        && (old(|history|) - |history|) as real * RewindStep <= old(rewindAcc) + dt
        && rewindAcc == old(rewindAcc) + dt - (old(|history|) - |history|) as real * RewindStep
        && rewindAcc < RewindStep
        && (|history| < old(|history|) ==> MakeSnapshot() == history[|history| - 1])
        && (|history| == old(|history|) ==> MakeSnapshot() == old(MakeSnapshot())))
      ensures !rewindActive ==> (
        && |history| == rewindTarget.value + 1
        && (old(|history|) - |history| + 1) as real * RewindStep <= old(rewindAcc) + dt
        && MakeSnapshot() == RestoreFrozen(history[rewindTarget.value]))
      ensures old(rewindAcc) + dt >= (old(|history|) - rewindTarget.value) as real * RewindStep ==> !rewindActive
      ensures checkpoints == DropStale(old(checkpoints), |history|)
      ensures !rewindActive ==>
        Scrubbed(|history|, checkpoints) == Scrub(old(|history|), old(checkpoints), rewindTarget.value)
      ensures !rewindActive ==> rewindAcc == 0.0
    {
      BeginScrub(dt);
      ScrubLoop(rewindTarget.value);
    }

    /** The loop of `updateRewind` once the target is set. */
    method ScrubLoop(target: int)
      requires Valid() && rewindActive && rewindTarget == Some(target)
      modifies this`play, this`history, this`checkpoints, this`rewindActive, this`rewindAcc
      ensures Valid()
      ensures |history| <= old(|history|) && history == old(history)[..|history|]
      ensures rewindActive ==> (
        && (old(|history|) - |history|) as real * RewindStep <= old(rewindAcc)
        && rewindAcc == old(rewindAcc) - (old(|history|) - |history|) as real * RewindStep
        && rewindAcc < RewindStep
        && (|history| < old(|history|) ==> MakeSnapshot() == history[|history| - 1])
        && (|history| == old(|history|) ==> MakeSnapshot() == old(MakeSnapshot())))
      ensures !rewindActive ==> (
        && |history| == target + 1
        && (old(|history|) - |history| + 1) as real * RewindStep <= old(rewindAcc)
        && MakeSnapshot() == RestoreFrozen(history[target]))
      ensures checkpoints == DropStale(old(checkpoints), |history|)
      ensures !rewindActive ==> Scrubbed(|history|, checkpoints) == Scrub(old(|history|), old(checkpoints), target)
      ensures !rewindActive ==> rewindAcc == 0.0
    {
      ghost var len0 := |history|;
      ghost var snap0 := MakeSnapshot();
      DropStaleNothing(checkpoints, |history|);
      while rewindAcc >= RewindStep
        invariant Valid() && rewindActive
        invariant len0 == old(|history|)
        invariant |history| <= len0 && history == old(history)[..|history|]
        invariant rewindAcc == old(rewindAcc) - (len0 - |history|) as real * RewindStep
        invariant |history| < len0 ==> MakeSnapshot() == history[|history| - 1]
        invariant |history| == len0 ==> MakeSnapshot() == snap0
        invariant checkpoints == DropStale(old(checkpoints), |history|)
        decreases |history|
      {
        ghost var len1 := |history|;
        var done := ScrubStep(target);
        if done {
          return;
        }
        DropStaleTwice(old(checkpoints), len1, |history|);
      }
    }

    /** The start of `updateRewind`: the elapsed time is added to the
        accumulator, and a missing target becomes the last checkpoint (or
        the first frame when there is none). */
    method BeginScrub(dt: real)
      requires HistoryOk() && rewindActive && dt >= 0.0
      modifies this`rewindAcc, this`rewindTarget
      ensures HistoryOk() && rewindTarget.Some?
      ensures rewindAcc == old(rewindAcc) + dt
      ensures old(rewindTarget).Some? ==> rewindTarget == old(rewindTarget)
      ensures old(rewindTarget).None? ==> rewindTarget == Some(
        if |checkpoints| > 0 then checkpoints[|checkpoints| - 1] else 0)
    {
      rewindAcc := rewindAcc + dt;
      if rewindTarget.None? {
        rewindTarget := Some(if |checkpoints| > 0 then checkpoints[|checkpoints| - 1] else 0);
      }
    }

    /** One pass of the scrub loop: a step is taken from the accumulator;
        then either the target is reached and restored, or one frame is
        unwound. */
    method ScrubStep(target: int) returns (done: bool)
      requires Valid() && rewindActive && rewindAcc >= RewindStep
      requires rewindTarget == Some(target)
      modifies this`play, this`history, this`checkpoints, this`rewindActive, this`rewindAcc
      ensures Valid()
      ensures done <==> |old(history)| - 1 <= target
      ensures done ==> (!rewindActive && history == old(history) && |history| == target + 1
        && MakeSnapshot() == RestoreFrozen(history[target]))
      ensures done ==> checkpoints == old(checkpoints) && rewindAcc == 0.0
      ensures !done ==> (rewindActive && history == old(history)[..|old(history)| - 1]
        && checkpoints == DropStale(old(checkpoints), |history|)
        && rewindAcc == old(rewindAcc) - RewindStep
        && MakeSnapshot() == history[|history| - 1])
    {
      rewindAcc := rewindAcc - RewindStep;
      if |history| - 1 <= target {
        RestoreFrozenFrame(history[target]);
        StopRewind();
        return true;
      }
      DropLastFrame(target);
      ApplySnapshot(history[|history| - 1]);
      return false;
    }

    /** The end of the scrub: the target frame is restored and play waits,
        stopped and unpaused, with every alive ball frozen onto the
        paddle. */
    method RestoreFrozenFrame(s: Snapshot)
      modifies this`play
      ensures MakeSnapshot() == RestoreFrozen(s)
    {
      ApplySnapshot(s);
      play := play.(running := false);
      FreezeBalls();
      SyncStuckBalls();
      play := play.(paused := false);
    }

    /** `history.pop()`, with the checkpoints past the new end dropped. */
    method DropLastFrame(ghost target: int)
      requires HistoryOk() && rewindActive
      requires rewindTarget == Some(target) && target < |history| - 1
      modifies this`history, this`checkpoints
      ensures HistoryOk()
      ensures history == old(history)[..|old(history)| - 1]
      ensures checkpoints == DropStale(old(checkpoints), |history|)
    {
      var n := |history| - 1;
      DropStaleKeepsOrder(checkpoints, n);
      DropStaleBelow(checkpoints, n);
      history := history[..n];
      checkpoints := DropStale(checkpoints, n);
    }

    // -------------------------------------------------------------------
    // Serve
    // -------------------------------------------------------------------

    /** `resetToServe()`: the paddle is centred at the bottom, one fresh ball
        waits on it, rewards, bolts and particles are cleared, play stops,
        speeds, effect stacks and shake reset, and the serve's frame is
        pushed as a new checkpoint. The paddle keeps its width, and the push
        does not apply the capacity trim. */
    method ResetToServe()
      requires Valid()
      modifies this`play, this`speedRampT, this`speedRampMul, this`history, this`checkpoints
      ensures Valid()
      ensures play == Served(old(play), fieldW, fieldH)
      ensures speedRampT == 0.0 && speedRampMul == 1.0
      ensures history == old(history) + [MakeSnapshot()]
      ensures checkpoints == old(checkpoints) + [|old(history)|]
    {
      ServeState();
      PushSnapshot();
      checkpoints := checkpoints + [|history| - 1];
    }

    /** The state half of `resetToServe`. */
    method ServeState()
      modifies this`play, this`speedRampT, this`speedRampMul
      ensures play == Served(old(play), fieldW, fieldH)
      ensures speedRampT == 0.0 && speedRampMul == 1.0
    {
      play := play.(paddle := play.paddle.(y := fieldH - 26.0, x := (fieldW - play.paddle.w) / 2.0));
      var b := MakeBall().(stuck := true, speedMul := 1.0);
      play := play.(balls := [b]);
      play := play.(powerups := [], bullets := [], particles := [], shootCD := 0.0, running := false);
      ResetSpeeds();
      play := play.(effects := Effects(0, 0, 0));
      play := play.(shakeT := 0.0, shakePow := 0.0);
      SyncStuckBalls();
    }

    /** The speed reset of a serve, a new level and a level clear. */
    method ResetSpeeds()
      modifies this`play, this`speedRampT, this`speedRampMul
      ensures play == old(play).(globalSpeedMul := 1.0)
      ensures speedRampT == 0.0 && speedRampMul == 1.0
    {
      play := play.(globalSpeedMul := 1.0);
      speedRampT, speedRampMul := 0.0, 1.0;
    }

    // -------------------------------------------------------------------
    // Levels
    // -------------------------------------------------------------------

    /** What `buildLevel(lv)` leaves when it runs to the end, from the play
        state `before`: the bricks are the records of the set cells of the
        level's grid in scan order, the uid counter sits after them, the
        paddle takes the level's width (5% narrower from level 7, between
        90 pixels and 62% of the stage), the speeds are reset, the first
        serve is made, and the history holds only that serve's frame, as
        checkpoint 0. */
    predicate LevelBuilt(lv: int, rnd: LevelRandom, before: Snapshot)
      reads this
    {
      && LevelBricks(play.bricks, lv, enabledApplied, chanceApplied)
      && BricksOfCells(play.bricks, 0, GridCells(LevelGrid(lv, rnd), Rows(lv)), lv, HappyCadence(lv),
        PickList(PowerTypes, enabledApplied, chanceApplied), chanceApplied, BrickWidth(fieldW), rnd)
      && brickUidCounter == |play.bricks| + 1
      && play == Served(before.(bricks := play.bricks, paddle := before.paddle.(w := LevelPaddleW(before.paddle.baseW, lv, fieldW))),
        fieldW, fieldH)
      && speedRampT == 0.0 && speedRampMul == 1.0
      && history == [play] && checkpoints == [0] && rewindTarget.None?
    }

    /** `buildLevel(lv)`. Its first lines restart the uid counter and then,
        while play is running, add the frame time to the speed ramp; that
        frame time (`dt`) is declared only inside `tick` (game.js 1277), so
        there the build ends with a ReferenceError and nothing else
        changes. Otherwise the level is laid out as `LevelBuilt` says. */
    method BuildLevel(lv: int, rnd: LevelRandom) returns (built: bool)
      requires Valid() && lv >= 1 && !rewindActive
      modifies this`play, this`brickUidCounter, this`speedRampT, this`speedRampMul,
        this`history, this`checkpoints, this`rewindTarget
      ensures Valid()
      ensures built <==> !old(GameplayRunning())
      ensures !built ==> (brickUidCounter == 1 && play == old(play)
        && speedRampT == old(speedRampT) && speedRampMul == old(speedRampMul)
        && history == old(history) && checkpoints == old(checkpoints) && rewindTarget == old(rewindTarget))
      ensures built ==> LevelBuilt(lv, rnd, old(play))
      ensures built ==> (play.score == old(play.score) && play.lives == old(play.lives) && play.level == old(play.level)
        && play.paused == old(play.paused) && play.balls == [SyncBall(MakeBall(), play.paddle)])
    {
      brickUidCounter := 1;
      if GameplayRunning() {
        return false;
      }
      LayBricks(lv, rnd);
      FirstServe(lv);
      return true;
    }

    /** The second half of `buildLevel`: speeds reset, the paddle takes the
        level's width, the history and its checkpoints are cleared, and the
        first serve of the level is made. */
    method FirstServe(lv: int)
      requires Valid() && !rewindActive
      modifies this`play, this`speedRampT, this`speedRampMul, this`history, this`checkpoints, this`rewindTarget
      ensures Valid()
      ensures play == Served(old(play).(paddle := old(play.paddle).(w := LevelPaddleW(old(play.paddle.baseW), lv, fieldW))),
        fieldW, fieldH)
      ensures speedRampT == 0.0 && speedRampMul == 1.0
      ensures history == [MakeSnapshot()] && checkpoints == [0] && rewindTarget.None?
    {
      ResetSpeeds();
      play := play.(paddle := play.paddle.(w := LevelPaddleW(play.paddle.baseW, lv, fieldW)));
      checkpoints, rewindTarget, history := [], None, [];
      ResetToServe();
    }

    /** The brick half of `buildLevel`: the uid counter restarts, the
        occupancy grid is filled for the level's style and every set cell
        becomes a brick drawn from the applied tables. */
    method LayBricks(lv: int, rnd: LevelRandom)
      requires lv >= 1
      modifies this`play, this`brickUidCounter
      ensures play == old(play).(bricks := play.bricks)
      ensures LevelBricks(play.bricks, lv, enabledApplied, chanceApplied)
      ensures BricksOfCells(play.bricks, 0, GridCells(LevelGrid(lv, rnd), Rows(lv)), lv, HappyCadence(lv),
        PickList(PowerTypes, enabledApplied, chanceApplied), chanceApplied, BrickWidth(fieldW), rnd)
      ensures brickUidCounter == |play.bricks| + 1
      ensures SnapshotOk(old(play)) ==> SnapshotOk(play)
    {
      brickUidCounter := 1;
      var rows := Rows(lv);
      var happy, occ := LevelOccupancy(lv, rnd);
      var bricks := BuildBricks(lv, happy, occ, enabledApplied, chanceApplied, fieldW, rnd);
      if happy {
        GridCountPositive(occ, rows);
      }
      play := play.(bricks := bricks);
      brickUidCounter := brickUidCounter + |bricks|;
    }

    /** `resetAll()`: score, lives, level, pause and the level-clear wait
        reset and the history is cleared before the UI reward tables are
        validated; when they are rejected nothing more happens, otherwise
        they are committed and level 1 is built from them. With a ball in
        flight that build ends before any brick is laid (see `BuildLevel`),
        so the old bricks and balls stay. */
    method ResetAll(rnd: LevelRandom) returns (ok: bool, built: bool)
      requires Valid() && TablesOk() && !rewindActive
      modifies this`play, this`awaitingNextLevel, this`pendingLevel, this`history, this`checkpoints,
        this`rewindTarget, this`chanceUI, this`enabledApplied, this`chanceApplied,
        this`brickUidCounter, this`speedRampT, this`speedRampMul
      ensures Valid() && TablesOk()
      ensures ok <==> RealEnabledSum(PowerTypes, enabledUI, old(chanceUI)) <= 100
      ensures built <==> ok && !AnyBallMoving(old(play.balls))
      ensures play.score == 0 && play.lives == 3 && play.level == 1 && !play.paused
      ensures !awaitingNextLevel && pendingLevel.None? && rewindTarget.None?
      ensures !ok ==> (chanceUI == old(chanceUI) && enabledApplied == old(enabledApplied) && chanceApplied == old(chanceApplied))
      ensures !built ==> (play == old(play).(score := 0, lives := 3, level := 1, paused := false)
        && history == [] && checkpoints == []
        && speedRampT == old(speedRampT) && speedRampMul == old(speedRampMul)
        && brickUidCounter == (if ok then 1 else old(brickUidCounter)))
      ensures ok ==> (chanceUI == old(chanceUI)[NoDrop := 100 - RealEnabledSum(PowerTypes, enabledUI, old(chanceUI))]
        && enabledApplied == CommitEnabled(enabledUI)
        && chanceApplied == CommitChances(enabledUI, old(chanceUI)))
      ensures built ==> LevelBuilt(1, rnd, old(play).(score := 0, lives := 3, level := 1, paused := false))
    {
      ResetCounters();
      ok := ApplyPowerSettingsFromUI();
      if !ok {
        return ok, false;
      }
      built := BuildLevel(1, rnd);
    }

    /** The first half of `resetAll`. */
    method ResetCounters()
      requires Valid() && !rewindActive
      modifies this`play, this`awaitingNextLevel, this`pendingLevel, this`history, this`checkpoints, this`rewindTarget
      ensures Valid()
      ensures play == old(play).(score := 0, lives := 3, level := 1, paused := false)
      ensures !awaitingNextLevel && pendingLevel.None?
      ensures history == [] && checkpoints == [] && rewindTarget.None?
    {
      play := play.(score := 0, lives := 3, level := 1, paused := false);
      awaitingNextLevel := false;
      pendingLevel := None;
      checkpoints, rewindTarget, history := [], None, [];
    }

    /** `handleLevelClear()`: the game waits for a key to start the next
        level; speeds reset, play stops, every alive ball is frozen onto the
        paddle, and the celebration shakes the screen and adds its
        sparks. */
    method HandleLevelClear(ring: int -> bool)
      requires Valid() && !rewindActive
      modifies this`awaitingNextLevel, this`pendingLevel, this`play, this`speedRampT, this`speedRampMul
      ensures Valid()
      ensures awaitingNextLevel && pendingLevel == Some(old(play.level) + 1)
      ensures speedRampT == 0.0 && speedRampMul == 1.0
      ensures play == Cleared(old(play), ring)
      ensures !GameplayRunning()
    {
      awaitingNextLevel := true;
      pendingLevel := Some(play.level + 1);
      speedRampT, speedRampMul := 0.0, 1.0;
      StopForClear(ring);
      assert HistoryOk();
      assert PlayOk();
    }

    /** The play-state half of `handleLevelClear()`. */
    method StopForClear(ring: int -> bool)
      modifies this`play
      ensures play == Cleared(old(play), ring)
      ensures SnapshotOk(old(play)) ==> SnapshotOk(play)
      ensures !AnyBallMoving(play.balls)
    {
      play := play.(globalSpeedMul := 1.0, running := false);
      FreezeBalls();
      SyncStuckBalls();
      SpawnClearCelebration(ring);
    }

    /** `spawnClearCelebration()`. */
    method SpawnClearCelebration(ring: int -> bool)
      modifies this`play
      ensures play == Celebrated(old(play), ring)
    {
      play := play.(shakeT := Min(0.18, play.shakeT + 0.12), shakePow := Min(8.0, play.shakePow + 4.2));
      ghost var sparks := Celebration(ring);
      for i := 0 to 120
        invariant play == old(play).(shakeT := play.shakeT, shakePow := play.shakePow,
          particles := old(play.particles) + sparks[..i])
        invariant play.shakeT == Min(0.18, old(play.shakeT) + 0.12) && play.shakePow == Min(8.0, old(play.shakePow) + 4.2)
      {
        assert sparks[..i + 1] == sparks[..i] + [sparks[i]];
        play := play.(particles := play.particles + [Particle(if ring(i) then ParticleKind.Ring else Dot)]);
      }
      assert sparks == sparks[..120] + [sparks[120]];
      play := play.(particles := play.particles + [Particle(Shock)]);
    }

    /** The level-clear check at the end of `update`: with no brick alive
        and no clear already pending, the level is cleared. */
    method CheckLevelClear(ring: int -> bool) returns (cleared: bool)
      requires Valid() && !rewindActive
      modifies this`awaitingNextLevel, this`pendingLevel, this`play, this`speedRampT, this`speedRampMul
      ensures Valid()
      ensures cleared <==> !old(awaitingNextLevel) && !AnyBrickAlive(old(play.bricks))
      ensures !cleared ==> (play == old(play) && awaitingNextLevel == old(awaitingNextLevel)
        && pendingLevel == old(pendingLevel) && speedRampT == old(speedRampT) && speedRampMul == old(speedRampMul))
      ensures cleared ==> awaitingNextLevel && pendingLevel == Some(old(play.level) + 1) && !GameplayRunning()
      ensures cleared ==> play == Cleared(old(play), ring) && speedRampT == 0.0 && speedRampMul == 1.0
    {
      if !awaitingNextLevel && !AnyBrickAlive(play.bricks) {
        HandleLevelClear(ring);
        return true;
      }
      return false;
    }

    /** `proceedNextLevel()`: only while the clear message waits; the
        pending level (or the next one) becomes the level and is built. */
    method ProceedNextLevel(rnd: LevelRandom) returns (built: bool)
      requires Valid()
      modifies this`play, this`awaitingNextLevel, this`pendingLevel, this`brickUidCounter,
        this`speedRampT, this`speedRampMul, this`history, this`checkpoints, this`rewindTarget
      ensures Valid()
      ensures !old(awaitingNextLevel) ==> (!built && play == old(play) && pendingLevel == old(pendingLevel)
        && history == old(history) && checkpoints == old(checkpoints) && !awaitingNextLevel
        && brickUidCounter == old(brickUidCounter) && rewindTarget == old(rewindTarget)
        && speedRampT == old(speedRampT) && speedRampMul == old(speedRampMul))
      ensures old(awaitingNextLevel) ==> (
        var lv := NextLevel(old(pendingLevel), old(play.level));
        && !awaitingNextLevel && pendingLevel.None?
        && (built <==> !old(GameplayRunning()))
        && (built ==> LevelBuilt(lv, rnd, old(play).(level := lv)))
        && (!built ==> (play == old(play).(level := lv) && brickUidCounter == 1
          && history == old(history) && checkpoints == old(checkpoints) && rewindTarget == old(rewindTarget)
          && speedRampT == old(speedRampT) && speedRampMul == old(speedRampMul))))
    {
      if !awaitingNextLevel {
        return false;
      }
      awaitingNextLevel := false;
      var lv := NextLevel(pendingLevel, play.level);
      play := play.(level := lv);
      pendingLevel := None;
      built := BuildLevel(lv, rnd);
    }

    // -------------------------------------------------------------------
    // Controls
    // -------------------------------------------------------------------

    /** `togglePause()`. */
    method TogglePause()
      modifies this`play
      ensures play == old(play).(paused := !old(play.paused))
    {
      play := play.(paused := !play.paused);
    }

    /** The secret checkbox that unlocks the rewind. */
    method SetSecretEnabled(on: bool)
      modifies this`secretEnabled
      ensures secretEnabled == on
    {
      secretEnabled := on;
    }

    /** The speed-up button: ignored while rewinding, otherwise the global
        multiplier grows by 0.12 up to 2.2. */
    method PressSpeedUp()
      requires Valid()
      modifies this`play
      ensures Valid()
      ensures rewindActive ==> play == old(play)
      ensures !rewindActive ==> play == old(play).(globalSpeedMul := SpeedUp(old(play.globalSpeedMul)))
    {
      if rewindActive {
        return;
      }
      play := play.(globalSpeedMul := SpeedUp(play.globalSpeedMul));
    }

    /** The speed-down button: the multiplier shrinks by 0.12 down to 0.65. */
    method PressSpeedDown()
      requires Valid()
      modifies this`play
      ensures Valid()
      ensures rewindActive ==> play == old(play)
      ensures !rewindActive ==> play == old(play).(globalSpeedMul := SpeedDown(old(play.globalSpeedMul)))
    {
      if rewindActive {
        return;
      }
      play := play.(globalSpeedMul := SpeedDown(play.globalSpeedMul));
    }

    /** `launch()`: unless paused, rewinding or out of lives, every alive
        ball resting on the paddle is sent off (`angles(i)` is the angle drawn
        for ball `i`), and play runs when some ball was. */
    method Launch(angles: int -> real, trig: Trig)
      requires Valid()
      modifies this`play
      ensures Valid()
      ensures old(play.paused) || rewindActive || old(play.lives) <= 0 ==> play == old(play)
      ensures !(old(play.paused) || rewindActive || old(play.lives) <= 0) ==> (
        && |play.balls| == |old(play.balls)|
        && (forall i :: 0 <= i < |play.balls| ==> play.balls[i] == LaunchBall(old(play.balls)[i], angles(i), trig))
        && (forall i :: 0 <= i < |play.balls| && play.balls[i].alive ==> !play.balls[i].stuck)
        && (play.running <==> (old(play.running) ||
          exists i :: 0 <= i < |old(play.balls)| && old(play.balls)[i].alive && old(play.balls)[i].stuck))
        && play == old(play).(balls := play.balls, running := play.running))
      ensures !old(play.paused) && !rewindActive && old(play.lives) >= 1 && AnyBallAlive(old(play.balls)) ==>
        GameplayRunning()
    {
      if play.paused || rewindActive || play.lives <= 0 {
        return;
      }
      var any := LaunchBalls(angles, trig);
      if any {
        play := play.(running := true);
      }
      if AnyBallAlive(old(play.balls)) {
        var k :| 0 <= k < |old(play.balls)| && old(play.balls)[k].alive;
        assert play.balls[k].alive && !play.balls[k].stuck;
      }
    }

    /** The ball loop of `launch`; `any` says whether some ball left the
        paddle. */
    method LaunchBalls(angles: int -> real, trig: Trig) returns (any: bool)
      requires BallsOk(play.balls)
      modifies this`play
      ensures play == old(play).(balls := play.balls)
      ensures BallsOk(play.balls) && |play.balls| == |old(play.balls)|
      ensures forall i :: 0 <= i < |play.balls| ==> play.balls[i] == LaunchBall(old(play.balls)[i], angles(i), trig)
      ensures forall i :: 0 <= i < |play.balls| && play.balls[i].alive ==> !play.balls[i].stuck
      ensures any <==> exists i :: 0 <= i < |old(play.balls)| && old(play.balls)[i].alive && old(play.balls)[i].stuck
    {
      any := false;
      for i := 0 to |play.balls|
        invariant play == old(play).(balls := play.balls)
        invariant |play.balls| == |old(play.balls)|
        invariant forall j :: 0 <= j < i ==> play.balls[j] == LaunchBall(old(play.balls)[j], angles(j), trig)
        invariant forall j :: i <= j < |play.balls| ==> play.balls[j] == old(play.balls)[j]
        invariant any <==> exists j :: 0 <= j < i && old(play.balls)[j].alive && old(play.balls)[j].stuck
        invariant BallsOk(play.balls)
      {
        var b := play.balls[i];
        if b.alive && b.stuck {
          play := play.(balls := play.balls[i := LaunchBall(b, angles(i), trig)]);
          any := true;
        }
      }
    }

    /** `addEffectStack(id, add)` for the three stacking rewards. */
    method AddEffectStack(id: PowerId, add: int)
      requires id == Pierce || id == Laser || id == Sticky
      modifies this`play
      ensures play == old(play).(effects := play.effects)
      ensures id == Pierce ==> play.effects == old(play.effects).(pierce := AddStack(old(play.effects.pierce), add))
      ensures id == Laser ==> play.effects == old(play.effects).(laser := AddStack(old(play.effects.laser), add))
      ensures id == Sticky ==> play.effects == old(play.effects).(sticky := AddStack(old(play.effects.sticky), add))
      ensures EffectsOk(old(play.effects)) ==> EffectsOk(play.effects)
    {
      var e := play.effects;
      if id == Pierce {
        e := e.(pierce := AddStack(e.pierce, add));
      } else if id == Laser {
        e := e.(laser := AddStack(e.laser, add));
      } else {
        e := e.(sticky := AddStack(e.sticky, add));
      }
      play := play.(effects := e);
    }

    // -------------------------------------------------------------------
    // Rewards
    // -------------------------------------------------------------------

    /** `spawnPowerupFixed(br)`: the brick's rolled drop falls only when it
        still passes the live gate of the UI tables. */
    method SpawnPowerupFixed(br: Brick)
      modifies this`play
      ensures play == Dropped(old(play), br, enabledUI, chanceUI)
    {
      if br.dropId == NoDrop {
        return;
      }
      if !Enabled(enabledUI, br.dropId) {
        return;
      }
      if Chance(chanceUI, br.dropId) <= 0 {
        return;
      }
      play := play.(powerups := play.powerups + [DropFrom(br, play.level)]);
    }

    /** `applyPowerup(id)`: ignored unless the reward passes the live gate;
        otherwise a wider paddle (up to 62% of the stage), two extra balls
        split from the first alive one (`spread` draws their angles), one
        more stack, one more life, or slower balls. */
    method ApplyPowerup(id: PowerId, spread: int -> real, trig: Trig)
      requires Valid()
      modifies this`play
      ensures Valid()
      ensures play == Rewarded(old(play), id, enabledUI, chanceUI, fieldW, spread, trig)
    {
      if id == NoDrop {
        return;
      }
      if !Enabled(enabledUI, id) || Chance(chanceUI, id) <= 0 {
        return;
      }
      GrantReward(id, spread, trig);
    }

    /** The effect of a reward that passed the live gate. */
    method GrantReward(id: PowerId, spread: int -> real, trig: Trig)
      requires Valid() && LiveGate(enabledUI, chanceUI, id)
      modifies this`play
      ensures Valid()
      ensures play == Rewarded(old(play), id, enabledUI, chanceUI, fieldW, spread, trig)
    {
      match id
      case Expand =>
        play := play.(paddle := play.paddle.(w := Min(fieldW * 0.62, play.paddle.w * 1.35)));
      case Multi =>
        SplitBalls(spread, trig);
      case Pierce =>
        AddEffectStack(Pierce, 1);
      case Laser =>
        AddEffectStack(Laser, 1);
      case Life =>
        play := play.(lives := play.lives + 1);
      case Slow =>
        SlowBalls();
      case Sticky =>
        AddEffectStack(Sticky, 1);
      case NoDrop =>
    }

    /** The multi-ball reward: two balls split from the source ball are
        pushed one at a time, and play runs; nothing happens without any
        ball. */
    method SplitBalls(spread: int -> real, trig: Trig)
      modifies this`play
      ensures old(play.balls) == [] ==> play == old(play)
      ensures old(play.balls) != [] ==> play == old(play).(balls := SplitAdded(old(play.balls), spread, trig), running := true)
    {
      var src := SplitSource(play.balls);
      if src.None? {
        return;
      }
      ghost var added: seq<Ball> := [SplitBall(src.value, spread(0), trig), SplitBall(src.value, spread(1), trig)];
      for i := 0 to 2
        invariant play == old(play).(balls := old(play.balls) + added[..i])
      {
        assert added[..i + 1] == added[..i] + [added[i]];
        play := play.(balls := play.balls + [SplitBall(src.value, spread(i), trig)]);
      }
      assert added[..2] == added;
      play := play.(running := true);
    }

    /** The slow reward, one ball at a time. */
    method SlowBalls()
      modifies this`play
      ensures play == old(play).(balls := Slowed(old(play.balls)))
    {
      for i := 0 to |play.balls|
        invariant play == old(play).(balls := play.balls) && |play.balls| == |old(play.balls)|
        invariant forall j :: 0 <= j < i ==> play.balls[j] == old(play.balls)[j].(speedMul := SlowMul(old(play.balls)[j].speedMul))
        invariant forall j :: i <= j < |play.balls| ==> play.balls[j] == old(play.balls)[j]
      {
        var b := play.balls[i];
        play := play.(balls := play.balls[i := b.(speedMul := SlowMul(b.speedMul))]);
      }
      assert play.balls == Slowed(old(play.balls));
    }

    /** One falling reward for one frame (game.js 1373-1382). */
    method StepPowerup(j: int, dt: real, spread: int -> real, trig: Trig)
      requires Valid() && 0 <= j < |play.powerups|
      modifies this`play
      ensures Valid()
      ensures play == PowerupStepped(old(play), j, dt, fieldW, fieldH, enabledUI, chanceUI, spread, trig)
    {
      if !play.powerups[j].alive {
        return;
      }
      var caught, id := MoveReward(j, dt);
      if caught {
        ghost var t := play;
        assert PowerupStepped(old(play), j, dt, fieldW, fieldH, enabledUI, chanceUI, spread, trig)
          == Rewarded(t, id, enabledUI, chanceUI, fieldW, spread, trig);
        ApplyPowerup(id, spread, trig);
      }
    }

    /** The fall of one live reward and the catch test against the paddle:
        a caught reward or one below the field is marked dead. */
    method MoveReward(j: int, dt: real) returns (caught: bool, id: PowerId)
      requires Valid() && 0 <= j < |play.powerups| && play.powerups[j].alive
      modifies this`play
      ensures Valid()
      ensures var q := old(play.powerups[j]).(y := old(play.powerups[j].y) + old(play.powerups[j].vy) * dt);
        && caught == CircleRect(q.x, q.y, q.r, old(play.paddle.x), old(play.paddle.y), old(play.paddle.w), old(play.paddle.h))
        && id == q.id
        && play == old(play).(powerups := old(play.powerups)[j := q.(alive := !caught && q.y - q.r <= fieldH)])
    {
      var p := play.powerups[j];
      p := p.(y := p.y + p.vy * dt);
      var pd := play.paddle;
      caught := CircleRect(p.x, p.y, p.r, pd.x, pd.y, pd.w, pd.h);
      id := p.id;
      play := play.(powerups := play.powerups[j := p.(alive := !caught && p.y - p.r <= fieldH)]);
    }

    // -------------------------------------------------------------------
    // Laser
    // -------------------------------------------------------------------

    /** `fireBulletPair()`: two bolts, and only with a laser stack. */
    method FireBulletPair()
      modifies this`play
      ensures old(play.effects.laser) <= 0 ==> play == old(play)
      ensures old(play.effects.laser) > 0 ==> play == old(play).(bullets := old(play.bullets) + BoltPair(old(play.paddle)))
    {
      if play.effects.laser <= 0 {
        return;
      }
      var pair := BoltPair(play.paddle);
      play := play.(bullets := play.bullets + [pair[0]]);
      play := play.(bullets := play.bullets + [pair[1]]);
      assert play.bullets == old(play.bullets) + pair;
    }

    /** `manualShoot()`: a pair fires only when neither paused nor
        rewinding, with a laser stack and the cooldown run out; the cooldown
        then restarts, so an immediate second shot does not fire. */
    method ManualShoot() returns (fired: bool)
      modifies this`play
      ensures fired <==> !old(play.paused) && !rewindActive && old(play.effects.laser) > 0 && old(play.shootCD) <= 0.0
      ensures !fired ==> play == old(play)
      ensures fired ==> play == old(play).(bullets := old(play.bullets) + BoltPair(old(play.paddle)),
        shootCD := LaserCooldown(old(play.effects.laser)))
      ensures fired ==> play.shootCD >= 0.26
    {
      if play.paused || rewindActive {
        return false;
      }
      if play.effects.laser <= 0 {
        return false;
      }
      if play.shootCD > 0.0 {
        return false;
      }
      FireBulletPair();
      play := play.(shootCD := LaserCooldown(play.effects.laser));
      return true;
    }

    /** The auto laser of `update`: with a stack the cooldown runs down and
        a pair fires when it is spent; without one it is kept at 0. */
    method AutoLaser(dt: real)
      requires SnapshotOk(play) && dt >= 0.0
      modifies this`play
      ensures SnapshotOk(play)
      ensures old(play.effects.laser) <= 0 ==> play == old(play).(shootCD := 0.0)
      ensures old(play.effects.laser) > 0 && old(play.shootCD) - dt > 0.0 ==>
        play == old(play).(shootCD := old(play.shootCD) - dt)
      ensures old(play.effects.laser) > 0 && old(play.shootCD) - dt <= 0.0 ==>
        play == old(play).(bullets := old(play.bullets) + BoltPair(old(play.paddle)),
          shootCD := LaserCooldown(old(play.effects.laser)))
    {
      if play.effects.laser > 0 {
        play := play.(shootCD := Max(0.0, play.shootCD - dt));
        if play.shootCD <= 0.0 {
          FireBulletPair();
          play := play.(shootCD := LaserCooldown(play.effects.laser));
        }
      } else {
        play := play.(shootCD := 0.0);
      }
    }

    // -------------------------------------------------------------------
    // Brick hits
    // -------------------------------------------------------------------

    /** `spawnExplosion(type)`: the screen shakes (harder for a hard brick)
        and the burst of the brick's type is added. */
    method SpawnExplosion(kind: BrickKind)
      modifies this`play
      ensures play == Exploded(old(play), kind)
    {
      play := play.(shakeT := Min(0.14, play.shakeT + 0.10),
        shakePow := Min(6.0, play.shakePow + (if kind == Hard then 4.0 else 2.8)));
      play := play.(particles := play.particles + [Particle(Shock)]);
      ghost var burst := ExplosionParticles(kind);
      var count := match kind case Normal => 24 case Hard => 38 case Mover => 30;
      var shape := match kind case Normal => Dot case Hard => Shard case Mover => ParticleKind.Ring;
      for i := 0 to count
        invariant play == old(play).(shakeT := play.shakeT, shakePow := play.shakePow,
          particles := old(play.particles) + burst[..i + 1])
        invariant play.shakeT == Min(0.14, old(play.shakeT) + 0.10)
        invariant play.shakePow == Min(6.0, old(play.shakePow) + (if kind == Hard then 4.0 else 2.8))
      {
        assert burst[..i + 2] == burst[..i + 1] + [burst[i + 1]];
        play := play.(particles := play.particles + [Particle(shape)]);
      }
      assert burst[..count + 1] == burst;
    }

    /** One hit on brick `k`, as the ball and the laser code both do it:
        the brick loses a hit point and the score grows (10 for a ball, 8
        for a bolt); a brick that breaks earns its bonus (45 or 40),
        explodes and may drop its reward. */
    method DamageBrick(k: int, byBolt: bool)
      requires SnapshotOk(play) && 0 <= k < |play.bricks| && play.bricks[k].alive
      modifies this`play
      ensures play == Damaged(old(play), k, byBolt, enabledUI, chanceUI)
      ensures SnapshotOk(play)
    {
      var br := HitBrick(play.bricks[k]);
      play := play.(bricks := play.bricks[k := br], score := play.score + (if byBolt then 8 else 10));
      if br.hp <= 0 {
        play := play.(score := play.score + (if byBolt then 40 else 45));
        SpawnExplosion(br.kind);
        SpawnPowerupFixed(br);
      }
    }

    /** The ball loop of `update` up to the bricks, for ball `i`
        (game.js 1464-1501): its speed factor is its own multiplier times
        the global one and the speed ramp. `go` says whether the ball goes
        on to the brick checks: it is alive, was in flight and was not
        caught. */
    method MoveBall(i: int, dt: real, maxBounce: real, trig: Trig) returns (go: bool)
      requires Valid() && 0 <= i < |play.balls| && 0.0 < maxBounce
      modifies this`play
      ensures Valid()
      ensures play == BallStep(old(play), i, old(play.balls[i].speedMul * play.globalSpeedMul * speedRampMul), dt,
        fieldW, fieldH, maxBounce, trig)
      ensures go <==> play.balls[i].alive && !play.balls[i].stuck
    {
      var b := play.balls[i];
      if !b.alive || b.stuck {
        return false;
      }
      var spMul := b.speedMul * play.globalSpeedMul * speedRampMul;
      b := Walled(b, spMul, dt, fieldW);
      if b.y - b.r > fieldH {
        play := play.(balls := play.balls[i := b.(alive := false)]);
        assert spMul == old(play.balls[i].speedMul * play.globalSpeedMul * speedRampMul);
        assert play == BallStep(old(play), i, spMul, dt, fieldW, fieldH, maxBounce, trig);
        return false;
      }
      if PaddleContact(b, play.paddle) {
        if play.effects.sticky > 0 {
          play := play.(balls := play.balls[i := Caught(b, play.paddle, maxBounce, trig)]);
          SyncStuckBalls();
          return false;
        }
        play := play.(balls := play.balls[i := Bounced(b, play.paddle, maxBounce, trig)]);
        return true;
      }
      play := play.(balls := play.balls[i := b]);
      return true;
    }

    /** The brick loop of ball `i` in `update` (game.js 1506-1542): the
        first alive brick it touches is hit, and only that one; without a
        pierce stack the ball bounces off it. */
    method BallHitsBricks(i: int, spMul: real, dt: real) returns (hit: Option<int>)
      requires SnapshotOk(play) && 0 <= i < |play.balls|
      modifies this`play
      ensures SnapshotOk(play)
      ensures hit.None? <==> forall k :: 0 <= k < |old(play.bricks)| ==> !BallTouches(old(play.bricks)[k], old(play.balls)[i])
      ensures hit.None? ==> play == old(play)
      ensures hit.Some? ==> (
        var k := hit.value;
        && 0 <= k < |old(play.bricks)|
        && var br := old(play.bricks)[k];
        && BallTouches(br, old(play.balls)[i])
        && (forall m :: 0 <= m < k ==> !BallTouches(old(play.bricks)[m], old(play.balls)[i]))
        && play == Damaged(old(play), k, false, enabledUI, chanceUI).(balls :=
          if old(play.effects.pierce) <= 0 then old(play.balls)[i := Deflected(old(play.balls)[i], br, spMul, dt)]
          else old(play.balls)))
    {
      var b := play.balls[i];
      for k := 0 to |play.bricks|
        invariant play == old(play)
        invariant forall m :: 0 <= m < k ==> !BallTouches(play.bricks[m], b)
      {
        var br := play.bricks[k];
        if !br.alive {
          continue;
        }
        if !CircleRect(b.x, b.y, b.r, br.x, br.y, br.w, br.h) {
          continue;
        }
        DamageBrick(k, false);
        if play.effects.pierce <= 0 {
          play := play.(balls := play.balls[i := Deflected(b, br, spMul, dt)]);
        }
        return Some(k);
      }
      return None;
    }

    /** One laser bolt for one frame (game.js 1396-1424): it moves up, is
        gone once above the stage, and otherwise hits the first alive brick
        its box overlaps, and is spent on it. */
    method StepBolt(j: int, dt: real) returns (hit: Option<int>)
      requires SnapshotOk(play) && 0 <= j < |play.bullets|
      modifies this`play
      ensures play == BoltStepped(old(play), j, dt, enabledUI, chanceUI)
      ensures hit == BoltHit(old(play), j, dt)
    {
      var bu := play.bullets[j];
      if !bu.alive {
        return None;
      }
      bu := bu.(y := bu.y + bu.vy * dt);
      assert bu == BoltMoved(old(play), j, dt);
      if bu.y + bu.h < 0.0 {
        play := play.(bullets := play.bullets[j := bu.(alive := false)]);
        return None;
      }
      play := play.(bullets := play.bullets[j := bu]);
      ghost var mid := play;
      hit := BoltHitsBricks(j, BoltBox(bu));
      if hit.Some? {
        DamagedIgnoresBullets(old(play), hit.value, true, enabledUI, chanceUI, mid.bullets);
        assert mid.bullets[j := bu.(alive := false)] == old(play.bullets)[j := bu.(alive := false)];
      }
    }

    /** The brick loop of one bolt: the first alive brick its box overlaps
        takes a bolt hit, and the bolt is spent on it. */
    method BoltHitsBricks(j: int, box: Box) returns (hit: Option<int>)
      requires SnapshotOk(play) && 0 <= j < |play.bullets|
      modifies this`play
      ensures hit == FirstBoltHit(old(play.bricks), box, 0)
      ensures hit.None? ==> play == old(play)
      ensures hit.Some? ==> play == Damaged(old(play), hit.value, true, enabledUI, chanceUI).(
        bullets := old(play.bullets)[j := old(play.bullets)[j].(alive := false)])
    {
      for k := 0 to |play.bricks|
        invariant play == old(play)
        invariant FirstBoltHit(play.bricks, box, k) == FirstBoltHit(play.bricks, box, 0)
      {
        var br := play.bricks[k];
        if !br.alive {
          continue;
        }
        if !RectRect(box, Box(br.x, br.y, br.w, br.h)) {
          continue;
        }
        DamageBrick(k, true);
        play := play.(bullets := play.bullets[j := play.bullets[j].(alive := false)]);
        return Some(k);
      }
      return None;
    }

    /** The bolt loop of `update` (game.js 1396-1424): every bolt takes
        its step, in order. */
    method StepBolts(dt: real)
      requires SnapshotOk(play)
      modifies this`play
      ensures play == BoltsStepped(old(play), |old(play.bullets)|, dt, enabledUI, chanceUI)
    {
      for j := 0 to |play.bullets|
        invariant play == BoltsStepped(old(play), j, dt, enabledUI, chanceUI)
      {
        var _ := StepBolt(j, dt);
      }
    }

    /** The particle cap of `update` (game.js 1445): only the newest 1400
        particles are kept. */
    method CapParticleCount()
      modifies this`play
      ensures play == old(play).(particles := CapParticles(old(play.particles)))
    {
      if |play.particles| > MaxParticles {
        play := play.(particles := play.particles[|play.particles| - MaxParticles..]);
      }
    }

    /** The ball-lost branch of `update`, under the corrected frame guard
        of `Flow.Frame`: once no life is left no frame plays, so nothing
        changes. Otherwise, with no ball alive a life is taken; with lives
        left the ball is served again, otherwise play stops. It agrees with
        one frame of `Flow.Play`. */
    method BallLostBranch() returns (lost: bool)
      requires Valid()
      modifies this`play, this`speedRampT, this`speedRampMul, this`history, this`checkpoints
      ensures Valid()
      ensures lost <==> old(play.lives) >= 1 && !AnyBallAlive(old(play.balls))
      ensures Flow.Play(Flow.LossState(old(play.lives), AnyBallAlive(old(play.balls))), 1)
        == Flow.LossState(play.lives, AnyBallAlive(play.balls))
      ensures !lost ==> play == old(play) && history == old(history) && checkpoints == old(checkpoints)
      ensures lost && old(play.lives) == 1 ==> (play == old(play).(lives := 0, running := false)
        && history == old(history) && checkpoints == old(checkpoints))
      ensures lost && old(play.lives) > 1 ==> (play == Served(old(play).(lives := old(play.lives) - 1), fieldW, fieldH)
        && speedRampT == 0.0 && speedRampMul == 1.0
        && history == old(history) + [MakeSnapshot()] && checkpoints == old(checkpoints) + [|old(history)|])
      ensures !(lost && old(play.lives) > 1) ==> speedRampT == old(speedRampT) && speedRampMul == old(speedRampMul)
    {
      if play.lives <= 0 || AnyBallAlive(play.balls) {
        return false;
      }
      play := play.(lives := play.lives - 1);
      if play.lives <= 0 {
        play := play.(running := false);
        return true;
      }
      ResetToServe();
      assert play.balls[0].alive;
      return true;
    }
    // -------------------------------------------------------------------
    // Reward tables
    // -------------------------------------------------------------------

    /** `sumRealEnabledChancesUI()`. */
    method SumRealEnabledChancesUI() returns (sum: int)
      ensures sum == RealEnabledSum(PowerTypes, enabledUI, chanceUI)
    {
      sum := 0;
      for i := 0 to |PowerTypes|
        invariant sum == RealEnabledSum(PowerTypes[..i], enabledUI, chanceUI)
      {
        RealEnabledSumAppend(PowerTypes[..i], [PowerTypes[i]], enabledUI, chanceUI);
        assert PowerTypes[..i + 1] == PowerTypes[..i] + [PowerTypes[i]];
        var id := PowerTypes[i];
        if id == NoDrop {
          continue;
        }
        if !Enabled(enabledUI, id) {
          continue;
        }
        sum := sum + Chance(chanceUI, id);
      }
      assert PowerTypes[..|PowerTypes|] == PowerTypes;
    }

    /** `applyPowerSettingsFromUI()`: rejected, with nothing changed, when
        the enabled real weights exceed 100; otherwise "no reward" takes the
        remainder in the UI table and the applied tables become the
        commit of the UI tables. */
    method ApplyPowerSettingsFromUI() returns (ok: bool)
      requires TablesOk()
      modifies this`chanceUI, this`enabledApplied, this`chanceApplied
      ensures TablesOk()
      ensures ok <==> RealEnabledSum(PowerTypes, enabledUI, old(chanceUI)) <= 100
      ensures !ok ==> (chanceUI == old(chanceUI) && enabledApplied == old(enabledApplied)
        && chanceApplied == old(chanceApplied))
      ensures ok ==> chanceUI == old(chanceUI)[NoDrop := 100 - RealEnabledSum(PowerTypes, enabledUI, old(chanceUI))]
      ensures ok ==> (enabledApplied == CommitEnabled(enabledUI)
        && chanceApplied == CommitChances(enabledUI, old(chanceUI)))
    {
      var sum := SumRealEnabledChancesUI();
      if sum > 100 {
        return false;
      }
      var remainder := 100 - sum;
      CommitKeepsTables(chanceUI, enabledApplied, chanceApplied, enabledUI);
      ghost var ui := chanceUI;
      chanceUI := chanceUI[NoDrop := remainder];
      CommitApplied(ui, remainder);
      ok := true;
    }

    /** The loop of `applyPowerSettingsFromUI` that writes the applied
        tables, once "no reward" holds the remainder in the UI table. */
    method CommitApplied(ghost ui: Weights, remainder: int)
      requires remainder == 100 - RealEnabledSum(PowerTypes, enabledUI, ui)
      requires chanceUI == ui[NoDrop := remainder]
      requires forall id :: id in enabledApplied && id in chanceApplied
      modifies this`enabledApplied, this`chanceApplied
      ensures enabledApplied == CommitEnabled(enabledUI)
      ensures chanceApplied == CommitChances(enabledUI, ui)
    {
      var ea := enabledApplied;
      var ca := chanceApplied;
      var en := enabledUI;
      var ch := chanceUI;
      for i := 0 to |PowerTypes|
        invariant forall id :: id in ea && id in ca
        invariant forall k :: 0 <= k < i ==>
          ea[PowerTypes[k]] == CommittedFlag(en, PowerTypes[k]) && ca[PowerTypes[k]] == CommittedChance(en, ui, PowerTypes[k])
      {
        var id := PowerTypes[i];
        if id == NoDrop {
          ea := ea[id := true];
          ca := ca[id := remainder];
        } else {
          ea := ea[id := Enabled(en, id)];
          ca := ca[id := if ea[id] then Chance(ch, id) else 0];
          assert Chance(ch, id) == Chance(ui, id);
        }
      }
      CommitFromPointwise(ea, ca, en, ui);
      enabledApplied := ea;
      chanceApplied := ca;
    }

    /** A weight input (`inp.addEventListener('input', ...)`): the typed
        number `v`, `None` when it is not a finite number, which counts as
        0; it is clamped into [0, 100] and floored. */
    method SetChanceUI(id: PowerId, v: Option<real>)
      requires TablesOk()
      modifies this`chanceUI
      ensures TablesOk()
      ensures id in chanceUI && chanceUI == old(chanceUI)[id := chanceUI[id]]
      ensures v.None? ==> chanceUI[id] == 0
      ensures v.Some? ==> (var c := Clamp(v.value, 0.0, 100.0);
        chanceUI[id] as real <= c < chanceUI[id] as real + 1.0)
    {
      var w := if v.Some? then v.value else 0.0;
      chanceUI := chanceUI[id := ClampInt(w.Floor, 0, 100)];
      forall j ensures 0 <= Chance(chanceUI, j) <= 100 {
        if j != id {
          assert Chance(chanceUI, j) == Chance(old(chanceUI), j);
        }
      }
    }

    /** A reward checkbox; "no reward" has none (its box is disabled). */
    method SetEnabledUI(id: PowerId, on: bool)
      requires id != NoDrop
      modifies this`enabledUI
      ensures enabledUI == old(enabledUI)[id := on]
    {
      enabledUI := enabledUI[id := on];
    }
  }

  /** A successful commit keeps the table invariant: the remainder written
      into the "no reward" UI weight lies in 0 .. 100, and the applied
      weights it writes are non-negative. */
  lemma CommitKeepsTables(ui: Weights, ea: Flags, ca: Weights, en: Flags)
    requires TablesInv(ui, ea, ca)
    requires RealEnabledSum(PowerTypes, en, ui) <= 100
    ensures var rem := 100 - RealEnabledSum(PowerTypes, en, ui);
      TablesInv(ui[NoDrop := rem], CommitEnabled(en), CommitChances(en, ui))
  {
    assert NonNegTable(ui) by {
      forall id | id in ui ensures ui[id] >= 0 {
        assert Chance(ui, id) == ui[id];
      }
    }
    RealEnabledBelowTable(PowerTypes, en, ui);
    var rem := 100 - RealEnabledSum(PowerTypes, en, ui);
    var ui' := ui[NoDrop := rem];
    forall j ensures 0 <= Chance(ui', j) <= 100 {
      if j != NoDrop {
        assert Chance(ui', j) == Chance(ui, j);
      }
    }
    CommitNonNeg(en, ui);
  }

  /** The applied weights of a successful commit are non-negative. */
  lemma CommitNonNeg(en: Flags, ui: Weights)
    requires NonNegTable(ui)
    requires 0 <= RealEnabledSum(PowerTypes, en, ui) <= 100
    ensures NonNegTable(CommitChances(en, ui))
  {
    var t := CommitChances(en, ui);
    forall id | id in t ensures t[id] >= 0 {
      assert t[id] == CommittedChance(en, ui, id);
      if id != NoDrop && Enabled(en, id) {
        assert Chance(ui, id) >= 0;
      }
    }
  }

  /** Tables that hold the committed entry at every listed identity are
      the committed tables. */
  lemma CommitFromPointwise(ea: Flags, ca: Weights, en: Flags, ui: Weights)
    requires forall id :: id in ea && id in ca
    requires forall k :: 0 <= k < |PowerTypes| ==>
      ea[PowerTypes[k]] == CommittedFlag(en, PowerTypes[k]) && ca[PowerTypes[k]] == CommittedChance(en, ui, PowerTypes[k])
    ensures ea == CommitEnabled(en) && ca == CommitChances(en, ui)
  {
    forall id | id in PowerTypes
      ensures ea[id] == CommitEnabled(en)[id] && ca[id] == CommitChances(en, ui)[id]
    {
      var k :| 0 <= k < |PowerTypes| && PowerTypes[k] == id;
    }
    AgreeOnPowerTypes(ea, CommitEnabled(en));
    AgreeOnPowerTypes(ca, CommitChances(en, ui));
  }

  /** The enabled real weights never exceed the whole table's weight. */
  lemma {:induction false} RealEnabledBelowTable(ids: seq<PowerId>, en: Flags, ch: Weights)
    requires NonNegTable(ch)
    ensures 0 <= RealEnabledSum(ids, en, ch) <= TableSum(ids, ch)
  {
    if ids != [] {
      RealEnabledBelowTable(ids[1..], en, ch);
    }
  }

  /** The default UI tables pass the commit check. */
  lemma DefaultsWithinHundred()
    ensures RealEnabledSum(PowerTypes, AllEnabled(), DefaultChances()) <= 100
  {
    var t := DefaultChances();
    assert NonNegTable(t) by {
      forall id | id in t ensures t[id] >= 0 {
        if id != NoDrop {
          assert t[id] == 12;
        }
      }
    }
    DefaultChancesTotal();
    RealEnabledBelowTable(PowerTypes, AllEnabled(), t);
  }

  /** As the page starts (both table pairs at the defaults) the table
      invariant holds. */
  lemma DefaultTablesOk()
    ensures TablesInv(DefaultChances(), AllEnabled(), DefaultChances())
  {
    var t := DefaultChances();
    assert NonNegTable(t) by {
      forall id | id in t ensures t[id] >= 0 {
        if id != NoDrop {
          assert t[id] == 12;
        }
      }
    }
  }
}
