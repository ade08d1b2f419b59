/** The player's kinematics: the per-frame integration step both revisions share, the
    horizontal wrap-around of the later revision, and what repeated steps do while the
    player touches nothing.

    The source's kinematic constants are written as literals in the formulas, each named
    where it is used: HORIZONTAL_ACCELERATION = 2, HORIZONTAL_FRICTION = 0.15,
    VERTICAL_ACCELERATION = 0.5 (gravity), VERTICAL_JUMP_SPEED = 15. */
module Kinematics {

  /** A two-dimensional vector of reals (the source's float vectors, without rounding). */
  datatype Vec = Vec(x: real, y: real) {

    function Plus(o: Vec): Vec { Vec(x + o.x, y + o.y) }

    /** `0.5 * v` */
    function Half(): Vec { Vec(0.5 * x, 0.5 * y) }
  }

  const ZERO: Vec := Vec(0.0, 0.0)

  /** The player's `position` (its bottom-left corner), `velocity` and `acceleration`. */
  datatype Motion = Motion(position: Vec, velocity: Vec, acceleration: Vec)

  /** The arrow keys held during a frame. */
  datatype Keys = Keys(left: bool, right: bool)

  /** Screen width: the wrap-around sends the player from one edge to the other. */
  const WIDTH: real := 960.0

  /** How far left of the screen the player may go before it wraps. */
  const WRAP_MARGIN: real := 64.0

  /** The horizontal acceleration the keys ask for: HORIZONTAL_ACCELERATION (2) to the
      left or to the right, the right key winning when both are held. */
  function Push(keys: Keys): real
  {
    if keys.right then 2.0 else if keys.left then -2.0 else 0.0
  }

  /** One frame of integration: the acceleration is reset to gravity (0.5) plus the keys'
      push, friction (0.15 of the velocity before the step) is taken off its horizontal
      part, then v' = v + a and p' = p + v' + a / 2. */
  function Integrate(m: Motion, keys: Keys): Motion
  {
    var a := Vec(Push(keys) - m.velocity.x * 0.15, 0.5);
    var v := m.velocity.Plus(a);
    Motion(m.position.Plus(v.Plus(a.Half())), v, a)
  }

  /** The horizontal wrap-around: left of -64 the player reappears at the right edge, right
      of the screen at the left edge. It always lands on [-64, 960], and moves exactly the
      positions outside that interval. */
  function Wrap(x: real): (r: real)
    ensures -WRAP_MARGIN <= r <= WIDTH
    ensures r == x <==> -WRAP_MARGIN <= x <= WIDTH
  {
    if x < -WRAP_MARGIN then WIDTH else if x > WIDTH then 0.0 else x
  }

  /** Integration over several frames during which the player touches nothing. */
  function Drift(m: Motion, frames: seq<Keys>): Motion
    decreases |frames|
  {
    if frames == [] then m
    else Integrate(Drift(m, frames[..|frames| - 1]), frames[|frames| - 1])
  }

  /** The velocity the horizontal motion tends to while `keys` stay held: the push balanced
      by friction (2 / 0.15 = 40 / 3 towards the held key, 0 when none is held). */
  function Terminal(keys: Keys): real
  {
    Push(keys) / 0.15
  }

  function Pow(b: real, n: nat): real
  {
    if n == 0 then 1.0 else b * Pow(b, n - 1)
  }

  /** From rest with no key held: velocity (0, 0.5) and a fall of 0.75, whatever the
      acceleration was before. */
  lemma FromRest(p: Vec, a: Vec)
    ensures Integrate(Motion(p, ZERO, a), Keys(false, false)) ==
      Motion(Vec(p.x, p.y + 0.75), Vec(0.0, 0.5), Vec(0.0, 0.5))
  {
  }

  /** Gravity does not depend on the keys; the right key overrides the left one. */
  lemma KeysOnlyPushSideways(m: Motion, k1: Keys, k2: Keys)
    ensures Integrate(m, k1).acceleration.y == 0.5
    ensures Integrate(m, k1).velocity.y == Integrate(m, k2).velocity.y == m.velocity.y + 0.5
    ensures Integrate(m, k1).position.y == Integrate(m, k2).position.y == m.position.y + m.velocity.y + 0.75
    ensures k1.right && k2.right ==> Integrate(m, k1) == Integrate(m, k2)
  {
  }

  /** Each frame, friction shrinks the gap between the horizontal velocity and the held
      keys' terminal velocity by the factor 0.85. */
  lemma TowardsTerminal(m: Motion, keys: Keys)
    ensures Integrate(m, keys).velocity.x - Terminal(keys) == 0.85 * (m.velocity.x - Terminal(keys))
  {
  }

  /** Free fall: after n frames touching nothing, whatever keys were held, the vertical
      velocity has grown by 0.5 n and the player has fallen n v + n (n + 2) / 4. */
  lemma {:induction false} DriftVertical(m: Motion, frames: seq<Keys>)
    ensures var n := |frames| as real;
      Drift(m, frames).velocity.y == m.velocity.y + 0.5 * n &&
      Drift(m, frames).position.y == m.position.y + n * m.velocity.y + n * (n + 2.0) / 4.0
    decreases |frames|
  {
    if frames != [] {
      var front := frames[..|frames| - 1];
      DriftVertical(m, front);
      var n := |front| as real;
      var v0 := m.velocity.y;
      assert (n + 1.0) * v0 == n * v0 + v0;
      assert (n + 1.0) * (n + 3.0) == n * (n + 2.0) + 2.0 * n + 3.0;
    }
  }

  /** While the same keys stay held, the horizontal velocity approaches the terminal
      velocity geometrically: after n frames the gap is 0.85^n of what it was. */
  lemma {:induction false} DriftHorizontal(m: Motion, keys: Keys, frames: seq<Keys>)
    requires forall i :: 0 <= i < |frames| ==> frames[i] == keys
    ensures Drift(m, frames).velocity.x - Terminal(keys) == Pow(0.85, |frames|) * (m.velocity.x - Terminal(keys))
    decreases |frames|
  {
    if frames != [] {
      var front := frames[..|frames| - 1];
      DriftHorizontal(m, keys, front);
      var before := Drift(m, front);
      assert Drift(m, frames) == Integrate(before, keys);
      TowardsTerminal(before, keys);
      var gap := m.velocity.x - Terminal(keys);
      var p := Pow(0.85, |front|);
      assert Pow(0.85, |frames|) == 0.85 * p;
      assert 0.85 * (p * gap) == (0.85 * p) * gap;
    }
  }

  /** A horizontal speed of at most 40/3 (the terminal speed) stays at most 40/3 while the
      player touches nothing, whatever keys are pressed and released. */
  lemma {:induction false} DriftSpeedLimit(m: Motion, frames: seq<Keys>)
    requires -40.0 / 3.0 <= m.velocity.x <= 40.0 / 3.0
    ensures -40.0 / 3.0 <= Drift(m, frames).velocity.x <= 40.0 / 3.0
    decreases |frames|
  {
    if frames != [] {
      DriftSpeedLimit(m, frames[..|frames| - 1]);
    }
  }
}
