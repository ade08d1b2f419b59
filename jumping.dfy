/** The later revision of the player (5_jumping.py): each frame `move()` integrates and
    wraps around the screen and re-places the rectangle, then `check_collisions()` lands
    the player on grass only when it is not rising, and sends it back to its starting
    point when it touches water. `jump()` works only while the rectangle touches grass.

    The rectangle is moved only inside `move()`: the collision tests and `jump()` see the
    rectangle of the integrated position, not the position the grass correction sets. */
module Jumping {
  import opened Rects
  import opened Tiles
  import opened Kinematics

  /** `move()` on the kinematic vectors: integrate, then wrap horizontally. */
  function Moved(m: Motion, keys: Keys): Motion
  {
    var n := Integrate(m, keys);
    n.(position := n.position.(x := Wrap(n.position.x)))
  }

  /** `check_collisions()` for a player whose rectangle is `rect`. */
  function Resolved(m: Motion, rect: Rect, grass: seq<Tile>, water: seq<Tile>, start: Vec): Motion
  {
    var platforms := Collide(rect, grass);
    var landed :=
      if platforms != [] && m.velocity.y >= 0.0 then
        m.(position := m.position.(y := platforms[0].rect.top as real), velocity := m.velocity.(y := 0.0))
      else m;
    if Collide(rect, water) != [] then landed.(position := start, velocity := ZERO) else landed
  }

  /** `jump()` for a player whose rectangle is `rect`. */
  function Jumped(m: Motion, rect: Rect, grass: seq<Tile>): Motion
  {
    if Collide(rect, grass) != [] then m.(velocity := m.velocity.(y := -15.0)) else m
  }

  /** The player's kinematic vectors and its rectangle. */
  datatype Body = Body(motion: Motion, rect: Rect)

  /** `update()`: `move()` then `check_collisions()`. `toPixel` is the conversion the
      rectangle applies when it is given a real coordinate. */
  function Stepped(b: Body, keys: Keys, grass: seq<Tile>, water: seq<Tile>, start: Vec, toPixel: real -> int): Body
  {
    var m := Moved(b.motion, keys);
    var r := b.rect.WithBottomLeft(toPixel(m.position.x), toPixel(m.position.y));
    Body(Resolved(m, r, grass, water, start), r)
  }

  class Player {
    /** The starting point the player returns to after touching water. */
    const startX: int
    const startY: int
    /** The map's sprite groups; this revision only reads the grass and water groups. */
    const groups: Groups
    /** How the rectangle turns a real coordinate into a pixel. */
    const toPixel: real -> int

    var rect: Rect
    var position: Vec
    var velocity: Vec
    var acceleration: Vec

    /** `Player(x, y, grass_tiles, water_tiles)`: the image's rectangle (`width` by
        `height`) placed by its bottom-left corner at (x, y), which is also the position
        and the starting point; at rest, with no acceleration. */
    constructor (x: int, y: int, width: int, height: int, groups: Groups, toPixel: real -> int)
      ensures this.groups == groups && this.toPixel == toPixel
      ensures startX == x && startY == y
      ensures rect == Rect(x, y - height, width, height)
      ensures position == Vec(x as real, y as real) && velocity == ZERO && acceleration == ZERO
    {
      this.groups := groups;
      this.toPixel := toPixel;
      rect := Rect(0, 0, width, height).WithBottomLeft(x, y);
      startX, startY := x, y;
      position := Vec(x as real, y as real);
      velocity := ZERO;
      acceleration := ZERO;
    }

    function State(): Motion
      reads this
    {
      Motion(position, velocity, acceleration)
    }

    function Start(): Vec
    {
      Vec(startX as real, startY as real)
    }

    /** `update()`: one frame with the given keys held. */
    method Update(keys: Keys)
      modifies this
      ensures Body(State(), rect) ==
        Stepped(old(Body(State(), rect)), keys, groups.grass, groups.water, Start(), toPixel)
    {
      Move(keys);
      CheckCollisions();
    }

    /** `move()`: acceleration reset to gravity, the held keys' push (right overriding
        left), friction, integration, wrap-around, and the rectangle placed at the new
        position. */
    method Move(keys: Keys)
      modifies this
      ensures State() == Moved(old(State()), keys)
      ensures rect == old(rect).WithBottomLeft(toPixel(position.x), toPixel(position.y))
    {
      acceleration := Vec(0.0, 0.5);
      if keys.left {
        acceleration := acceleration.(x := -2.0);
      }
      if keys.right {
        acceleration := acceleration.(x := 2.0);
      }
      acceleration := acceleration.(x := acceleration.x - velocity.x * 0.15);
      velocity := velocity.Plus(acceleration);
      position := position.Plus(velocity.Plus(acceleration.Half()));
      if position.x < -WRAP_MARGIN {
        position := position.(x := WIDTH);
      } else if position.x > WIDTH {
        position := position.(x := 0.0);
      }
      rect := rect.WithBottomLeft(toPixel(position.x), toPixel(position.y));
    }

    /** `check_collisions()`: against the rectangle as `move()` left it. */
    method CheckCollisions()
      modifies this`position, this`velocity
      ensures State() == Resolved(old(State()), rect, groups.grass, groups.water, Start())
    {
      var platforms := Collide(rect, groups.grass);
      if platforms != [] {
        if velocity.y >= 0.0 {
          position := position.(y := platforms[0].rect.top as real);
          velocity := velocity.(y := 0.0);
        }
      }
      if Collide(rect, groups.water) != [] {
        position := Vec(startX as real, startY as real);
        velocity := ZERO;
      }
    }

    /** `jump()`: VERTICAL_JUMP_SPEED (15) upwards, only while touching grass. */
    method Jump()
      modifies this`velocity
      ensures State() == Jumped(old(State()), rect, groups.grass)
    {
      if Collide(rect, groups.grass) != [] {
        velocity := velocity.(y := -15.0);
      }
    }
  }

  // ---------------------------------------------------------------------------
  // Lemmas

  /** Falling (or still) onto grass without touching water: the player's bottom is set to
      the top of the earliest grass tile it touches and its vertical velocity to 0; nothing
      else changes. */
  lemma LandsOnEarliestGrass(m: Motion, rect: Rect, grass: seq<Tile>, water: seq<Tile>, start: Vec, k: int)
    requires 0 <= k < |grass| && Overlaps(rect, grass[k].rect)
    requires forall j :: 0 <= j < k ==> !Overlaps(rect, grass[j].rect)
    requires m.velocity.y >= 0.0
    requires forall t :: t in water ==> !Overlaps(rect, t.rect)
    ensures Resolved(m, rect, grass, water, start) ==
      Motion(Vec(m.position.x, grass[k].rect.top as real), Vec(m.velocity.x, 0.0), m.acceleration)
  {
    FirstHitIsEarliest(rect, grass, k);
  }

  /** In a grass group kept in map order (as the build loop leaves it) the player lands on
      the highest grass tile it touches. */
  lemma LandsOnHighestGrass(m: Motion, rect: Rect, grass: seq<Tile>, water: seq<Tile>, start: Vec, t: Tile)
    requires RowMajor(grass)
    requires t in grass && Overlaps(rect, t.rect)
    requires m.velocity.y >= 0.0
    requires forall w :: w in water ==> !Overlaps(rect, w.rect)
    ensures Resolved(m, rect, grass, water, start).position.y <= t.rect.top as real
    ensures Resolved(m, rect, grass, water, start).velocity.y == 0.0
  {
    FirstHitIsTopmost(rect, grass);
  }

  /** Rising, or touching no grass, and touching no water: collisions change nothing. */
  lemma RisingPassesThrough(m: Motion, rect: Rect, grass: seq<Tile>, water: seq<Tile>, start: Vec)
    requires m.velocity.y < 0.0 || forall t :: t in grass ==> !Overlaps(rect, t.rect)
    requires forall t :: t in water ==> !Overlaps(rect, t.rect)
    ensures Resolved(m, rect, grass, water, start) == m
  {
  }

  /** Touching water sends the player back to its starting point at rest, whether or not
      it also landed on grass in the same frame; the acceleration is kept. */
  lemma WaterRespawns(m: Motion, rect: Rect, grass: seq<Tile>, water: seq<Tile>, start: Vec, t: Tile)
    requires t in water && Overlaps(rect, t.rect)
    ensures Resolved(m, rect, grass, water, start) == Motion(start, ZERO, m.acceleration)
  {
  }

  /** Collisions never move the player sideways, except back to its starting point. */
  lemma CollisionsKeepX(m: Motion, rect: Rect, grass: seq<Tile>, water: seq<Tile>, start: Vec)
    ensures var r := Resolved(m, rect, grass, water, start);
      r.position.x == m.position.x || r.position == start
  {
  }

  /** A jump sets the vertical velocity to -15 exactly when the rectangle touches grass,
      and changes nothing otherwise. */
  lemma JumpNeedsGrass(m: Motion, rect: Rect, grass: seq<Tile>)
    ensures (exists t :: t in grass && Overlaps(rect, t.rect)) ==>
      Jumped(m, rect, grass) == Motion(m.position, Vec(m.velocity.x, -15.0), m.acceleration)
    ensures (forall t :: t in grass ==> !Overlaps(rect, t.rect)) ==> Jumped(m, rect, grass) == m
  {
    if exists t :: t in grass && Overlaps(rect, t.rect) {
      var t :| t in grass && Overlaps(rect, t.rect);
      assert t in Collide(rect, grass);
    }
  }

  /** A jump from grass lifts off: in the frame that follows, the player is still rising
      (vertical velocity -14.5), so the grass it stands in does not hold it back, and it
      rises by 14.25 unless it touches water. */
  lemma JumpLiftsOff(b: Body, keys: Keys, grass: seq<Tile>, water: seq<Tile>, start: Vec, toPixel: real -> int)
    requires Collide(b.rect, grass) != []
    ensures var after := Stepped(Body(Jumped(b.motion, b.rect, grass), b.rect), keys, grass, water, start, toPixel);
      Collide(after.rect, water) == [] ==>
        after.motion.velocity.y == -14.5 && after.motion.position.y == b.motion.position.y - 14.25
  {
  }

  /** Leaving the screen: a player integrated past the right edge (960) comes back at the
      left edge (0), and one integrated further left than -64 comes back at the right edge
      (960), unless it touches water in that frame. */
  lemma WrapsAround(b: Body, keys: Keys, grass: seq<Tile>, water: seq<Tile>, start: Vec, toPixel: real -> int)
    ensures var x := Integrate(b.motion, keys).position.x;
      var after := Stepped(b, keys, grass, water, start, toPixel);
      Collide(after.rect, water) == [] ==>
        (x > WIDTH ==> after.motion.position.x == 0.0) &&
        (x < -WRAP_MARGIN ==> after.motion.position.x == WIDTH)
  {
  }

  /** After a frame the player is on the screen horizontally ([-64, 960]) or back at its
      starting point. */
  lemma StaysOnScreen(b: Body, keys: Keys, grass: seq<Tile>, water: seq<Tile>, start: Vec, toPixel: real -> int)
    ensures var p := Stepped(b, keys, grass, water, start, toPixel).motion.position;
      -WRAP_MARGIN <= p.x <= WIDTH || p == start
  {
  }
}
