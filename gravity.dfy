/** The earlier revision of the player (4_adding_gravity.py): each frame `update()`
    integrates without any wrap-around, re-places the rectangle, lands the player on grass
    whatever its vertical direction, and kills every water tile it touches, which leaves
    the water group and the main group; the player itself is not moved by water.

    As in the later revision, the collision tests use the rectangle of the integrated
    position; the grass correction does not move the rectangle. */
module Gravity {
  import opened Rects
  import opened Tiles
  import opened Kinematics

  /** The grass contact of `update()`: on any contact the player's bottom goes to the top
      of the first grass tile touched and its vertical velocity to 0. */
  function Landed(m: Motion, rect: Rect, grass: seq<Tile>): Motion
  {
    var platforms := Collide(rect, grass);
    if platforms != [] then
      m.(position := m.position.(y := platforms[0].rect.top as real), velocity := m.velocity.(y := 0.0))
    else m
  }

  /** The water contact of `update()`: `spritecollide(..., True)` kills every water tile
      the rectangle touches, and a killed sprite leaves every group it is in. */
  function Drowned(l: Level, rect: Rect): Level
  {
    var dead := Collide(rect, l.water);
    Level(Remove(l.main, dead), Remove(l.grass, dead), Remove(l.water, dead))
  }

  /** The player's kinematic vectors and rectangle, and the map's sprite groups. */
  datatype Scene = Scene(motion: Motion, rect: Rect, level: Level)

  /** `update()`: one frame with the given keys held; `toPixel` is the conversion the
      rectangle applies when it is given a real coordinate. */
  function Stepped(s: Scene, keys: Keys, toPixel: real -> int): Scene
  {
    var m := Integrate(s.motion, keys);
    var r := s.rect.WithBottomLeft(toPixel(m.position.x), toPixel(m.position.y));
    Scene(Landed(m, r, s.level.grass), r, Drowned(s.level, r))
  }

  /** Consecutive frames, one per element of `frames`. */
  function Run(s: Scene, frames: seq<Keys>, toPixel: real -> int): Scene
    decreases |frames|
  {
    if frames == [] then s
    else Stepped(Run(s, frames[..|frames| - 1], toPixel), frames[|frames| - 1], toPixel)
  }

  /** The scene after the first `k` of the frames. */
  function After(s: Scene, frames: seq<Keys>, k: nat, toPixel: real -> int): Scene
    requires k <= |frames|
  {
    Run(s, frames[..k], toPixel)
  }

  class Player {
    /** The map's sprite groups: this revision kills water tiles, which removes them from
        the water group and from the main group. */
    const groups: Groups
    /** How the rectangle turns a real coordinate into a pixel. */
    const toPixel: real -> int

    var rect: Rect
    var position: Vec
    var velocity: Vec
    var acceleration: Vec

    /** `Player(x, y, grass_tiles, water_tiles)`: the image's rectangle (`width` by
        `height`) placed by its bottom-left corner at (x, y), which is also the position;
        at rest, with no acceleration. */
    constructor (x: int, y: int, width: int, height: int, groups: Groups, toPixel: real -> int)
      ensures this.groups == groups && this.toPixel == toPixel
      ensures rect == Rect(x, y - height, width, height)
      ensures position == Vec(x as real, y as real) && velocity == ZERO && acceleration == ZERO
    {
      this.groups := groups;
      this.toPixel := toPixel;
      rect := Rect(0, 0, width, height).WithBottomLeft(x, y);
      position := Vec(x as real, y as real);
      velocity := ZERO;
      acceleration := ZERO;
    }

    function State(): Motion
      reads this
    {
      Motion(position, velocity, acceleration)
    }

    /** `update()`: acceleration reset to gravity, the held keys' push (right overriding
        left), friction, integration, the rectangle placed at the new position, then the
        grass and water contacts against that rectangle. */
    method Update(keys: Keys)
      modifies this, groups
      ensures Scene(State(), rect, groups.Contents()) ==
        Stepped(old(Scene(State(), rect, groups.Contents())), keys, toPixel)
    {
      acceleration := Vec(0.0, 0.5);
      if keys.left {
        acceleration := acceleration.(x := -2.0);
      }
      if keys.right {
        acceleration := acceleration.(x := 2.0);
      }
      acceleration := acceleration.(x := acceleration.x - velocity.x * 0.15);
      velocity := velocity.Plus(acceleration);
      position := position.Plus(velocity.Plus(acceleration.Half()));
      rect := rect.WithBottomLeft(toPixel(position.x), toPixel(position.y));
      assert State() == Integrate(old(State()), keys);

      var platforms := Collide(rect, groups.grass);
      if platforms != [] {
        position := position.(y := platforms[0].rect.top as real);
        velocity := velocity.(y := 0.0);
      }
      assert State() == Landed(Integrate(old(State()), keys), rect, old(groups.grass));

      var drowned := Collide(rect, groups.water);
      groups.Kill(drowned);
    }
  }

  // ---------------------------------------------------------------------------
  // Lemmas

  /** Touching grass lands the player on the earliest grass tile touched, rising or not:
      its bottom goes to that tile's top, its vertical velocity to 0, nothing else changes. */
  lemma LandsWhicheverWay(m: Motion, rect: Rect, grass: seq<Tile>, k: int)
    requires 0 <= k < |grass| && Overlaps(rect, grass[k].rect)
    requires forall j :: 0 <= j < k ==> !Overlaps(rect, grass[j].rect)
    ensures Landed(m, rect, grass) ==
      Motion(Vec(m.position.x, grass[k].rect.top as real), Vec(m.velocity.x, 0.0), m.acceleration)
  {
    FirstHitIsEarliest(rect, grass, k);
  }

  /** The water contact kills exactly the water tiles the rectangle touches: they leave the
      water group and the main group, every other tile stays, the grass group is untouched,
      and the groups stay consistent. */
  lemma DrownsTouchedWater(l: Level, rect: Rect)
    requires Consistent(l)
    ensures Consistent(Drowned(l, rect))
    ensures Drowned(l, rect).grass == l.grass
    ensures forall t :: t in Drowned(l, rect).water <==> t in l.water && !Overlaps(rect, t.rect)
    ensures forall t :: t in Drowned(l, rect).main <==>
      t in l.main && !(t.kind == Water && Overlaps(rect, t.rect))
  {
    KillKeepsConsistent(l, Collide(rect, l.water), Water);
  }

  /** One frame: the horizontal position is exactly the integrated one (no wrap-around),
      the rectangle sits at the integrated position (before the grass correction), and the
      water contact has no say in the player's motion. */
  lemma FrameMotion(s: Scene, keys: Keys, toPixel: real -> int, water: seq<Tile>)
    ensures var m := Integrate(s.motion, keys);
      var after := Stepped(s, keys, toPixel);
      after.motion.position.x == s.motion.position.x + m.velocity.x + 0.5 * m.acceleration.x &&
      after.rect == s.rect.WithBottomLeft(toPixel(m.position.x), toPixel(m.position.y)) &&
      after.motion == Stepped(s.(level := s.level.(water := water)), keys, toPixel).motion
  {
  }

  /** Over any number of frames the grass group never changes, the water and main groups
      only lose tiles, every tile of the main group that is not water (dirt and grass)
      stays in it, and the groups stay consistent. */
  lemma {:induction false} RunKeepsGrass(s: Scene, frames: seq<Keys>, toPixel: real -> int)
    requires Consistent(s.level)
    ensures var l := Run(s, frames, toPixel).level;
      Consistent(l) && l.grass == s.level.grass &&
      (forall t :: t in l.water ==> t in s.level.water) &&
      (forall t :: t in l.main ==> t in s.level.main) &&
      (forall t :: t in s.level.main && t.kind != Water ==> t in l.main)
    decreases |frames|
  {
    if frames != [] {
      var before := Run(s, frames[..|frames| - 1], toPixel);
      RunKeepsGrass(s, frames[..|frames| - 1], toPixel);
      var after := Stepped(before, frames[|frames| - 1], toPixel);
      DrownsTouchedWater(before.level, after.rect);
    }
  }

  /** The first k frames of a prefix are the first k frames. */
  lemma AfterPrefix(s: Scene, frames: seq<Keys>, n: nat, k: nat, toPixel: real -> int)
    requires k <= n <= |frames|
    ensures After(s, frames[..n], k, toPixel) == After(s, frames, k, toPixel)
  {
    assert frames[..n][..k] == frames[..k];
  }

  /** After all the frames: the last frame applied to the scene after the others. */
  lemma AfterLast(s: Scene, frames: seq<Keys>, toPixel: real -> int)
    requires frames != []
    ensures After(s, frames, |frames|, toPixel) == Run(s, frames, toPixel) ==
      Stepped(Run(s, frames[..|frames| - 1], toPixel), frames[|frames| - 1], toPixel)
  {
    assert frames[..|frames|] == frames;
  }

  /** A water tile the player's rectangle never touched in any frame is still there. */
  lemma {:induction false} RunSparesUntouched(s: Scene, frames: seq<Keys>, toPixel: real -> int, t: Tile)
    requires t in s.level.water
    requires forall k :: 1 <= k <= |frames| ==> !Overlaps(After(s, frames, k, toPixel).rect, t.rect)
    ensures t in Run(s, frames, toPixel).level.water
    decreases |frames|
  {
    if frames != [] {
      var n := |frames| - 1;
      var front := frames[..n];
      forall k | 1 <= k <= |front|
        ensures !Overlaps(After(s, front, k, toPixel).rect, t.rect)
      {
        AfterPrefix(s, frames, n, k, toPixel);
      }
      RunSparesUntouched(s, front, toPixel, t);
      var before := Run(s, front, toPixel);
      var after := Stepped(before, frames[n], toPixel);
      AfterLast(s, frames, toPixel);
      assert !Overlaps(after.rect, t.rect);
      assert t !in Collide(after.rect, before.level.water);
    }
  }

  /** A water tile the player's rectangle never touched in any frame is still in the main
      group as well, so the main group keeps it next to every dirt and grass tile. */
  lemma RunSparesUntouchedInMain(s: Scene, frames: seq<Keys>, toPixel: real -> int, t: Tile)
    requires Consistent(s.level) && t in s.level.water
    requires forall k :: 1 <= k <= |frames| ==> !Overlaps(After(s, frames, k, toPixel).rect, t.rect)
    ensures t in Run(s, frames, toPixel).level.main
  {
    RunSparesUntouched(s, frames, toPixel, t);
    RunKeepsGrass(s, frames, toPixel);
  }

  /** A frame in which the rectangle touches no grass is a plain integration step. */
  lemma StepsFreely(before: Scene, keys: Keys, toPixel: real -> int)
    requires Collide(Stepped(before, keys, toPixel).rect, before.level.grass) == []
    ensures Stepped(before, keys, toPixel).motion == Integrate(before.motion, keys)
  {
  }

  /** While the player touches no grass, its motion over the frames is the free drift of
      the integration step alone. */
  lemma {:induction false} RunWithoutGrassDrifts(s: Scene, frames: seq<Keys>, toPixel: real -> int)
    requires Consistent(s.level)
    requires forall k :: 1 <= k <= |frames| ==> Collide(After(s, frames, k, toPixel).rect, s.level.grass) == []
    ensures Run(s, frames, toPixel).motion == Drift(s.motion, frames)
    decreases |frames|
  {
    if frames != [] {
      var n := |frames| - 1;
      var front := frames[..n];
      forall k | 1 <= k <= |front|
        ensures Collide(After(s, front, k, toPixel).rect, s.level.grass) == []
      {
        AfterPrefix(s, frames, n, k, toPixel);
      }
      RunWithoutGrassDrifts(s, front, toPixel);
      var before := Run(s, front, toPixel);
      assert before.level.grass == s.level.grass by {
        RunKeepsGrass(s, front, toPixel);
      }
      var after := Stepped(before, frames[n], toPixel);
      AfterLast(s, frames, toPixel);
      assert after.motion == Integrate(before.motion, frames[n]) by {
        StepsFreely(before, frames[n], toPixel);
      }
    }
  }
}
