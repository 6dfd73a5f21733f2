/**
 * A model of the `Neuron` class of the brain background animation: a dot
 * anchored at an origin that drifts by a fixed velocity on every update and
 * reverses its velocity whenever it strays farther than `maxDist` from the
 * origin. Arithmetic is over `real`; the random numbers, the canvas height
 * and the canvas scaling factor are parameters.
 */
module Brain {

  import opened Geometry

  /** A neuron's optional colour descriptor; `NoColor` is the default `null`. */
  datatype Color = NoColor | Custom(descriptor: string)

  /** The fill style `draw` assigns: one of the two external colour resolvers
      (`colorToRgbaHighlight`, `colorToRgba`) applied to a descriptor. */
  datatype FillStyle = RgbaHighlight(color: Color) | Rgba(color: Color)

  /** The circle `draw` fills on the canvas. */
  datatype Dot = Dot(centerX: real, centerY: real, radius: real, style: FillStyle)

  /** The part of a neuron that its motion reads and writes. */
  datatype Motion = Motion(originX: real, originY: real, x: real, y: real,
                           vx: real, vy: real, maxDist: real)

  /** The reversal test of `updatePosition`, on squared distance:
      the position lies farther than `maxDist` from the origin. */
  predicate Outside(m: Motion): (b: bool)
    ensures m.x == m.originX && m.y == m.originY ==> !b
  {
    SqDist(m.x - m.originX, m.y - m.originY) > m.maxDist * m.maxDist
  }

  /** The squared test agrees with `Math.hypot(x - originX, y - originY) > maxDist`
      whenever `maxDist` is not negative. */
  lemma OutsideIffHypotExceeds(m: Motion, d: real)
    requires 0.0 <= m.maxDist
    requires IsHypot(d, m.x - m.originX, m.y - m.originY)
    ensures Outside(m) <==> d > m.maxDist
  {
    SquareMonotonic(d, m.maxDist);
  }

  // ---------------------------------------------------------------------
  // Construction
  // ---------------------------------------------------------------------

  /** `Math.floor(canvas.height / 100)`. */
  function HeightSteps(height: real): (n: int)
    ensures (n as real) * 100.0 <= height < (n as real + 1.0) * 100.0
    ensures 0.0 <= height ==> 0 <= n
  {
    (height / 100.0).Floor
  }

  /** The radius drawn at construction from a random `roll` in [0, 1). */
  function InitialRadius(roll: real, height: real): (radius: real)
    requires 0.0 <= roll < 1.0 && 0.0 <= height
    ensures 1.0 <= radius <= 1.0 + 0.4 * HeightSteps(height) as real
    ensures 0 < HeightSteps(height) ==> radius < 1.0 + 0.4 * HeightSteps(height) as real
    ensures radius == 1.0 <==> roll == 0.0 || HeightSteps(height) == 0
  {
    var steps := HeightSteps(height) as real;
    assert 0.0 <= roll * 0.4 * steps <= 0.4 * steps;
    assert 0.0 < roll && 0.0 < steps ==> 0.0 < roll * 0.4 * steps;
    assert 0.0 < steps ==> roll * 0.4 * steps < 0.4 * steps;
    roll * 0.4 * steps + 1.0
  }

  /** One velocity component drawn at construction from a random `roll` in
      [0, 1) and the canvas scaling factor `scale`. */
  function InitialVelocity(roll: real, scale: real): (v: real)
    ensures v == 0.0 <==> roll == 0.5 || scale == 0.0
  {
    AbsProduct((roll - 0.5) * 0.3, scale);
    (roll - 0.5) * 0.3 * scale
  }

  /** The velocity is centred at zero: within 0.15 times the scale either
      way, and zero only for the middle roll or a zero scale. */
  lemma InitialVelocityBounds(roll: real, scale: real)
    requires 0.0 <= roll < 1.0
    ensures Abs(InitialVelocity(roll, scale)) <= 0.15 * Abs(scale)
    ensures 0.0 <= scale ==> -0.15 * scale <= InitialVelocity(roll, scale) <= 0.15 * scale
    ensures InitialVelocity(roll, scale) == 0.0 <==> roll == 0.5 || scale == 0.0
  {
    ScaledBounds((roll - 0.5) * 0.3, scale);
  }

  /** For a positive scale the upper bound 0.15 * scale is never reached. */
  lemma InitialVelocityBelowBound(roll: real, scale: real)
    requires 0.0 <= roll < 1.0 && 0.0 < scale
    ensures InitialVelocity(roll, scale) < 0.15 * scale
  {
    var rs := roll * scale;
    assert rs < scale by {
      assert scale - rs == (1.0 - roll) * scale;
      ProductPositive(1.0 - roll, scale);
    }
    assert InitialVelocity(roll, scale) == 0.3 * rs - 0.15 * scale;
  }

  /** Bounds on `c * scale` for a centred coefficient `c` in [-0.15, 0.15). */
  lemma ScaledBounds(c: real, scale: real)
    requires -0.15 <= c < 0.15
    ensures Abs(c * scale) <= 0.15 * Abs(scale)
    ensures 0.0 <= scale ==> -0.15 * scale <= c * scale <= 0.15 * scale
    ensures c * scale == 0.0 <==> c == 0.0 || scale == 0.0
  {
    AbsProduct(c, scale);
    MulMonotonic(Abs(c), 0.15, Abs(scale));
    if 0.0 <= scale {
      MulMonotonic(-0.15, c, scale);
    }
  }

  /** The largest distance the neuron may travel from its origin before it
      turns back, drawn from a random `roll` in [0, 1). */
  function InitialMaxDist(roll: real): (maxDist: real)
    requires 0.0 <= roll < 1.0
    ensures 5.0 <= maxDist < 12.0
  {
    roll * 7.0 + 5.0
  }

  // ---------------------------------------------------------------------
  // Motion
  // ---------------------------------------------------------------------

  /** The bounded-drift invariant: the neuron is within `maxDist` of its
      origin, or one velocity step away from being within it again. */
  predicate BoundedDrift(m: Motion)
  {
    var limit := m.maxDist * m.maxDist;
    SqDist(m.x - m.originX, m.y - m.originY) <= limit ||
    SqDist(m.x + m.vx - m.originX, m.y + m.vy - m.originY) <= limit
  }

  /** One `updatePosition`: step by the velocity, then negate the velocity
      if the new position lies outside `maxDist`. */
  function Step(m: Motion): (r: Motion)
    ensures r.originX == m.originX && r.originY == m.originY && r.maxDist == m.maxDist
    ensures r.x == m.x + m.vx && r.y == m.y + m.vy
    ensures Outside(r) ==> r.vx == -m.vx && r.vy == -m.vy
    ensures !Outside(r) ==> r.vx == m.vx && r.vy == m.vy
    ensures Abs(r.vx) == Abs(m.vx) && Abs(r.vy) == Abs(m.vy)
    ensures SqDist(r.vx, r.vy) == SqDist(m.vx, m.vy)
    ensures (m.vx != 0.0 || m.vy != 0.0) ==> (r.x != m.x || r.y != m.y)
    ensures BoundedDrift(m) ==> BoundedDrift(r)
  {
    var moved := m.(x := m.x + m.vx, y := m.y + m.vy);
    if Outside(moved) then
      moved.(vx := m.vx * -1.0, vy := m.vy * -1.0)
    else
      moved
  }

  /** `n` consecutive `updatePosition` calls, as the animation loop makes them. */
  function Steps(m: Motion, n: nat): (r: Motion)
    decreases n
    ensures r.originX == m.originX && r.originY == m.originY && r.maxDist == m.maxDist
    ensures SqDist(r.vx, r.vy) == SqDist(m.vx, m.vy)
    ensures BoundedDrift(m) ==> BoundedDrift(r)
  {
    if n == 0 then m else Steps(Step(m), n - 1)
  }

  /** A velocity reversal sends the neuron straight back: the update after
      it returns to the position before it, with the reversed velocity kept. */
  lemma ReversalReturns(m: Motion)
    requires BoundedDrift(m)
    requires Outside(Step(m))
    ensures Step(Step(m)).x == m.x && Step(Step(m)).y == m.y
    ensures Step(Step(m)).vx == -m.vx && Step(Step(m)).vy == -m.vy
  {
    var once := Step(m);
    assert once.x + once.vx == m.x && once.y + once.vy == m.y;
    assert !Outside(Step(once));
  }

  /** Under bounded drift the distance from the origin is at most `maxDist`
      plus the length of one step. */
  lemma DistanceWithinOneStep(m: Motion, d: real, step: real)
    requires BoundedDrift(m) && 0.0 <= m.maxDist
    requires IsHypot(d, m.x - m.originX, m.y - m.originY)
    requires IsHypot(step, m.vx, m.vy)
    ensures d <= m.maxDist + step
  {
    if SqDist(m.x - m.originX, m.y - m.originY) <= m.maxDist * m.maxDist {
      SquareMonotonic(d, m.maxDist);
    } else {
      // The next position lies within maxDist, and the current one is it minus v.
      var qx, qy := m.x + m.vx - m.originX, m.y + m.vy - m.originY;
      assert m.x - m.originX == qx - m.vx && m.y - m.originY == qy - m.vy;
      TriangleBound(qx, qy, m.vx, m.vy, d, m.maxDist, step);
    }
  }

  /** From a neuron at its origin, any number of updates keep it within
      `maxDist` plus one step's length of the origin. */
  lemma {:induction false} DriftBoundFromOrigin(m: Motion, n: nat, d: real, step: real)
    requires m.x == m.originX && m.y == m.originY && 0.0 <= m.maxDist
    requires IsHypot(step, m.vx, m.vy)
    requires IsHypot(d, Steps(m, n).x - m.originX, Steps(m, n).y - m.originY)
    ensures d <= m.maxDist + step
  {
    var later := Steps(m, n);
    assert BoundedDrift(m);
    DistanceWithinOneStep(later, d, step);
  }

  // ---------------------------------------------------------------------
  // The draw decision
  // ---------------------------------------------------------------------

  /** JavaScript's `Math.round`: the nearest integer, halves rounded up. */
  function JsRound(v: real): (k: int)
    ensures (k as real) - 0.5 <= v < (k as real) + 0.5
  {
    (v + 0.5).Floor
  }

  /** The five bands of rolls, each of width 0.1, of total length one half, on which
      `Math.round(roll * 10)` is odd. */
  predicate InSkipBand(roll: real)
  {
    0.05 <= roll < 0.15 || 0.25 <= roll < 0.35 || 0.45 <= roll < 0.55 ||
    0.65 <= roll < 0.75 || 0.85 <= roll < 0.95
  }

  /** For a roll in [0, 1) the rounded value is 0..10, and it is odd
      exactly on the skip bands. */
  lemma SkipBands(roll: real)
    requires 0.0 <= roll < 1.0
    ensures 0 <= JsRound(roll * 10.0) <= 10
    ensures JsRound(roll * 10.0) % 2 != 0 <==> InSkipBand(roll)
  {
    var k := JsRound(roll * 10.0);
    assert 0 <= k <= 10;
    if k % 2 == 1 {
      assert k == 1 || k == 3 || k == 5 || k == 7 || k == 9;
    } else {
      assert k == 0 || k == 2 || k == 4 || k == 6 || k == 8 || k == 10;
    }
  }

  /** Whether `draw` calls `updatePosition`, given the hover flag and the
      frame's random `roll`: always when hovered, and otherwise exactly
      when the roll lies outside the skip bands. */
  predicate UpdatesOnDraw(isHover: bool, roll: real): (b: bool)
    ensures isHover ==> b
    ensures 0.0 <= roll < 1.0 ==> (b <==> isHover || !InSkipBand(roll))
  {
    if 0.0 <= roll < 1.0 then
      SkipBands(roll);
      isHover || JsRound(roll * 10.0) % 2 == 0
    else
      isHover || JsRound(roll * 10.0) % 2 == 0
  }

  // ---------------------------------------------------------------------
  // The neuron
  // ---------------------------------------------------------------------

  class Neuron {
    var originX: real
    var originY: real
    var x: real
    var y: real
    var radius: real
    var vx: real
    var vy: real
    var maxDist: real
    var customColor: Color

    /** The motion state of this neuron. */
    function State(): Motion
      reads this
    {
      Motion(originX, originY, x, y, vx, vy, maxDist)
    }

    /** The object invariant: the construction bounds and bounded drift. */
    ghost predicate Valid()
      reads this
    {
      5.0 <= maxDist < 12.0 && 1.0 <= radius && BoundedDrift(State())
    }

    /** `new Neuron(x, y, color)`; the four rolls are the four
        `Math.random()` results in the order the constructor draws them. */
    constructor (x: real, y: real, color: Color,
                 radiusRoll: real, vxRoll: real, vyRoll: real, maxDistRoll: real,
                 height: real, scale: real)
      requires 0.0 <= radiusRoll < 1.0 && 0.0 <= vxRoll < 1.0
      requires 0.0 <= vyRoll < 1.0 && 0.0 <= maxDistRoll < 1.0
      requires 0.0 <= height
      ensures Valid()
      ensures originX == x && originY == y && this.x == x && this.y == y
      ensures radius == InitialRadius(radiusRoll, height)
      ensures vx == InitialVelocity(vxRoll, scale) && vy == InitialVelocity(vyRoll, scale)
      ensures maxDist == InitialMaxDist(maxDistRoll)
      ensures customColor == color
    {
      originX := x;
      originY := y;
      this.x := x;
      this.y := y;
      radius := InitialRadius(radiusRoll, height);
      vx := InitialVelocity(vxRoll, scale);
      vy := InitialVelocity(vyRoll, scale);
      maxDist := InitialMaxDist(maxDistRoll);
      customColor := color;
    }

    /** `updatePosition()`: one velocity step, reversing at `maxDist`. */
    method UpdatePosition()
      requires Valid()
      modifies this
      ensures Valid()
      ensures State() == Step(old(State()))
      ensures radius == old(radius) && customColor == old(customColor)
    {
      x := x + vx;
      y := y + vy;
      if SqDist(x - originX, y - originY) > maxDist * maxDist {
        vx := vx * -1.0;
        vy := vy * -1.0;
      }
    }

    /** `draw(isHover)`: the dot it fills, in the colour variant the hover
        flag selects, and the update it makes when hovered or when the
        frame's `roll` rounds to an even number. */
    method Draw(isHover: bool, roll: real) returns (dot: Dot)
      requires Valid()
      modifies this
      ensures Valid()
      ensures dot.centerX == old(x) && dot.centerY == old(y) && dot.radius == radius
      ensures dot.style.RgbaHighlight? <==> isHover
      ensures dot.style.color == customColor
      ensures State() == if UpdatesOnDraw(isHover, roll) then Step(old(State())) else old(State())
      ensures isHover && (old(vx) != 0.0 || old(vy) != 0.0) ==> x != old(x) || y != old(y)
      ensures radius == old(radius) && customColor == old(customColor)
    {
      var style := if isHover then RgbaHighlight(customColor) else Rgba(customColor);
      dot := Dot(x, y, radius, style);
      if isHover || JsRound(roll * 10.0) % 2 == 0 {
        UpdatePosition();
      }
    }
  }
}
