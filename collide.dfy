/** The two collision predicates of game.js and the approach-side rule a
    ball uses to bounce off a brick. */
module Collide {
  import opened Util

  /** An axis-aligned box `{x, y, w, h}`. */
  datatype Box = Box(x: real, y: real, w: real, h: real)

  /** `circleRectCollision`: the point of the rectangle closest to the
      centre is within the radius. */
  predicate CircleRect(cx: real, cy: real, r: real, rx: real, ry: real, rw: real, rh: real) {
    var dx := cx - Clamp(cx, rx, rx + rw);
    var dy := cy - Clamp(cy, ry, ry + rh);
    dx * dx + dy * dy <= r * r
  }

  /** A centre inside the rectangle always collides. */
  lemma CentreInsideCollides(cx: real, cy: real, r: real, rx: real, ry: real, rw: real, rh: real)
    requires rx <= cx <= rx + rw && ry <= cy <= ry + rh
    ensures CircleRect(cx, cy, r, rx, ry, rw, rh)
  {
  }

  /** `rectRect`: strict overlap on both axes. */
  predicate RectRect(a: Box, b: Box) {
    a.x < b.x + b.w && a.x + a.w > b.x && a.y < b.y + b.h && a.y + a.h > b.y
  }

  /** The overlap test does not depend on the order of its arguments,
      and a box of positive size overlaps itself. */
  lemma RectRectSymmetric(a: Box, b: Box)
    ensures RectRect(a, b) <==> RectRect(b, a)
    ensures a.w > 0.0 && a.h > 0.0 ==> RectRect(a, a)
  {
  }

  /** The ball's velocity after it bounces off a brick with no pierce stack
      (game.js 1525-1539). The previous centre is compared with the brick's
      edges pushed out by the radius; a side approach flips vx, a top or
      bottom approach flips vy, and an ambiguous (corner) approach flips the
      component with the larger magnitude. */
  function Bounce(prevX: real, prevY: real, r: real, br: Box, vx: real, vy: real): (v: (real, real))
    ensures (v.0 == -vx && v.1 == vy) || (v.0 == vx && v.1 == -vy)
  {
    var fromLeft := prevX <= br.x - r;
    var fromRight := prevX >= br.x + br.w + r;
    var fromTop := prevY <= br.y - r;
    var fromBottom := prevY >= br.y + br.h + r;
    if fromLeft || fromRight then (-vx, vy)
    else if fromTop || fromBottom then (vx, -vy)
    else if Abs(vx) > Abs(vy) then (-vx, vy)
    else (vx, -vy)
  }

  /** A ball that came from beside the brick, moving towards it, leaves
      moving away from it horizontally; one that came from above or below
      (and not from beside) leaves moving away vertically. */
  lemma BounceSendsBallBack(prevX: real, prevY: real, r: real, br: Box, vx: real, vy: real)
    requires r >= 0.0 && br.w >= 0.0 && br.h >= 0.0
    ensures prevX <= br.x - r && vx > 0.0 ==> Bounce(prevX, prevY, r, br, vx, vy).0 < 0.0
    ensures prevX >= br.x + br.w + r && vx < 0.0 ==> Bounce(prevX, prevY, r, br, vx, vy).0 > 0.0
    ensures br.x - r < prevX < br.x + br.w + r && prevY <= br.y - r && vy > 0.0 ==>
      Bounce(prevX, prevY, r, br, vx, vy).1 < 0.0
    ensures br.x - r < prevX < br.x + br.w + r && prevY >= br.y + br.h + r && vy < 0.0 ==>
      Bounce(prevX, prevY, r, br, vx, vy).1 > 0.0
  {
  }
}
