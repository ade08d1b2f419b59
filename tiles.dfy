/** The tile map: how the build loop turns a row-major matrix of cell values into tile
    sprites held in a main group and in grass and water sub-groups, the player's spawn
    points, and the collision query the player runs against a group. Both revisions of
    the game build their map with the same code. */
module Tiles {
  import opened Rects

  datatype Option<T> = None | Some(value: T)

  /** The image a tile is drawn with: dirt (cell value 1), grass (2) or water (3). */
  datatype Kind = Dirt | Grass | Water

  /** A tile sprite: its image and its rectangle (the image's size, placed by its top-left corner). */
  datatype Tile = Tile(kind: Kind, rect: Rect)

  /** The three sprite groups the map fills: every tile, the grass tiles, the water tiles. */
  datatype Level = Level(main: seq<Tile>, grass: seq<Tile>, water: seq<Tile>)

  /** The tile a cell value asks for; 0 and every value other than 1, 2, 3 ask for none. */
  function CellKind(v: int): Option<Kind>
  {
    if v == 1 then Some(Dirt)
    else if v == 2 then Some(Grass)
    else if v == 3 then Some(Water)
    else None
  }

  /** The tile the build loop creates for cell (i, j); `size` is the side of the tile image. */
  function TileAt(i: int, j: int, kind: Kind, size: int): Tile
  {
    Tile(kind, Rect(j * 32, i * 32, size, size))
  }

  /** The tiles cell (i, j) holding `v` contributes: none, or its one tile. */
  function CellTiles(v: int, i: int, j: int, size: int): seq<Tile>
  {
    match CellKind(v)
    case Some(k) => [TileAt(i, j, k, size)]
    case None => []
  }

  /** The tiles row i contributes, column by column. */
  function RowTiles(row: seq<int>, i: int, size: int): seq<Tile>
    decreases |row|
  {
    if row == [] then []
    else RowTiles(row[..|row| - 1], i, size) + CellTiles(row[|row| - 1], i, |row| - 1, size)
  }

  /** Every tile of the map, in the order the build loop creates them: row by row, and
      column by column within a row. Rows may have different lengths. */
  function GridTiles(tileMap: seq<seq<int>>, size: int): seq<Tile>
    decreases |tileMap|
  {
    if tileMap == [] then []
    else GridTiles(tileMap[..|tileMap| - 1], size) + RowTiles(tileMap[|tileMap| - 1], |tileMap| - 1, size)
  }

  /** The bottom-left corner of cell (i, j): where a player placed by cell (i, j) stands. */
  function SpawnAt(i: int, j: int): Point
  {
    Point(j * 32, i * 32 + 32)
  }

  /** A cell holding 4 places the player with its bottom-left corner at the bottom-left of the cell. */
  function CellSpawns(v: int, i: int, j: int): seq<Point>
  {
    if v == 4 then [SpawnAt(i, j)] else []
  }

  function RowSpawns(row: seq<int>, i: int): seq<Point>
    decreases |row|
  {
    if row == [] then []
    else RowSpawns(row[..|row| - 1], i) + CellSpawns(row[|row| - 1], i, |row| - 1)
  }

  /** The player spawn points of the map, in the order the build loop meets them. */
  function GridSpawns(tileMap: seq<seq<int>>): seq<Point>
    decreases |tileMap|
  {
    if tileMap == [] then []
    else GridSpawns(tileMap[..|tileMap| - 1]) + RowSpawns(tileMap[|tileMap| - 1], |tileMap| - 1)
  }

  /** The tiles of one kind, in their order: how a sub-group relates to the main group. */
  function OfKind(ts: seq<Tile>, k: Kind): (r: seq<Tile>)
    ensures forall t :: t in r <==> t in ts && t.kind == k
    ensures |r| <= |ts|
    decreases |ts|
  {
    if ts == [] then []
    else
      var n := |ts| - 1;
      assert ts == ts[..n] + [ts[n]];
      OfKind(ts[..n], k) + (if ts[n].kind == k then [ts[n]] else [])
  }

  /** `spritecollide(sprite, group, ...)`: the members of the group whose rectangle collides
      with `r`, in the group's order. */
  function Collide(r: Rect, group: seq<Tile>): (hits: seq<Tile>)
    ensures forall t :: t in hits <==> t in group && Overlaps(r, t.rect)
    ensures hits == [] <==> forall t :: t in group ==> !Overlaps(r, t.rect)
    ensures |hits| <= |group|
    decreases |group|
  {
    if group == [] then []
    else
      var n := |group| - 1;
      assert group == group[..n] + [group[n]];
      Collide(r, group[..n]) + (if Overlaps(r, group[n].rect) then [group[n]] else [])
  }

  /** A group after `kill()` has been called on each sprite of `dead`: its other members, in order. */
  function Remove(group: seq<Tile>, dead: seq<Tile>): (r: seq<Tile>)
    ensures forall t :: t in r <==> t in group && t !in dead
    ensures |r| <= |group|
    decreases |group|
  {
    if group == [] then []
    else
      var n := |group| - 1;
      assert group == group[..n] + [group[n]];
      Remove(group[..n], dead) + (if group[n] in dead then [] else [group[n]])
  }

  /** The grass and water groups hold exactly the main group's grass and water tiles, in its order. */
  predicate Consistent(l: Level)
  {
    l.grass == OfKind(l.main, Grass) && l.water == OfKind(l.main, Water)
  }

  /** Rectangle `a` comes strictly before `b` in row-major screen order of top-left corners. */
  predicate Before(a: Rect, b: Rect)
  {
    a.top < b.top || (a.top == b.top && a.left < b.left)
  }

  /** The tiles are in strictly increasing row-major order (so no two share a cell). */
  predicate RowMajor(ts: seq<Tile>)
  {
    forall a, b :: 0 <= a < b < |ts| ==> Before(ts[a].rect, ts[b].rect)
  }

  /** The sprite groups of `Tile.__init__` and the build loop. */
  class Groups {
    var main: seq<Tile>
    var grass: seq<Tile>
    var water: seq<Tile>

    /** Three empty `pygame.sprite.Group()`s. */
    constructor ()
      ensures main == [] && grass == [] && water == []
    {
      main, grass, water := [], [], [];
    }

    function Contents(): Level
      reads this
    {
      Level(main, grass, water)
    }

    /** `Tile(x, y, image_int, main_group, sub_group)`: a grass or water tile joins its
        sub-group, and every tile joins the main group; its rectangle is the image's
        (`size` by `size`) with its top-left corner at (x, y). */
    method AddTile(x: int, y: int, kind: Kind, size: int)
      modifies this
      ensures main == old(main) + [Tile(kind, Rect(x, y, size, size))]
      ensures grass == old(grass) + OfKind([Tile(kind, Rect(x, y, size, size))], Grass)
      ensures water == old(water) + OfKind([Tile(kind, Rect(x, y, size, size))], Water)
    {
      var t := Tile(kind, Rect(x, y, size, size));
      assert [t][..0] == [];
      if kind == Grass {
        grass := grass + [t];
      } else if kind == Water {
        water := water + [t];
      }
      main := main + [t];
    }

    /** The body of the build loop for cell (i, j) holding `v`: a tile for 1, 2 or 3 at
        (j * 32, i * 32), a spawn point (j * 32, i * 32 + 32) for 4, nothing otherwise. */
    method PlaceCell(v: int, i: int, j: int, size: int) returns (spawn: seq<Point>)
      modifies this
      ensures main == old(main) + CellTiles(v, i, j, size)
      ensures grass == old(grass) + OfKind(CellTiles(v, i, j, size), Grass)
      ensures water == old(water) + OfKind(CellTiles(v, i, j, size), Water)
      ensures spawn == CellSpawns(v, i, j)
    {
      spawn := [];
      if v == 1 {
        AddTile(j * 32, i * 32, Dirt, size);
      } else if v == 2 {
        AddTile(j * 32, i * 32, Grass, size);
      } else if v == 3 {
        AddTile(j * 32, i * 32, Water, size);
      } else if v == 4 {
        spawn := [Point(j * 32, i * 32 + 32)];
      }
    }

    /** The inner build loop over row i, column by column. */
    method PopulateRow(row: seq<int>, i: int, size: int) returns (spawns: seq<Point>)
      modifies this
      ensures main == old(main) + RowTiles(row, i, size)
      ensures grass == old(grass) + OfKind(RowTiles(row, i, size), Grass)
      ensures water == old(water) + OfKind(RowTiles(row, i, size), Water)
      ensures spawns == RowSpawns(row, i)
    {
      spawns := [];
      var j := 0;
      while j < |row|
        invariant 0 <= j <= |row|
        invariant main == old(main) + RowTiles(row[..j], i, size)
        invariant grass == old(grass) + OfKind(RowTiles(row[..j], i, size), Grass)
        invariant water == old(water) + OfKind(RowTiles(row[..j], i, size), Water)
        invariant spawns == RowSpawns(row[..j], i)
      {
        var spawn := PlaceCell(row[j], i, j, size);
        spawns := spawns + spawn;
        RowStep(row, i, j, size);
        ghost var cell := CellTiles(row[j], i, j, size);
        ghost var done := RowTiles(row[..j], i, size);
        Associative(old(main), done, cell);
        Associative(old(grass), OfKind(done, Grass), OfKind(cell, Grass));
        Associative(old(water), OfKind(done, Water), OfKind(cell, Water));
        j := j + 1;
      }
      assert row[..j] == row;
    }

    /** The outer build loop: the rows of the map top to bottom; the spawn points are
        returned in the order they are met. */
    method Populate(tileMap: seq<seq<int>>, size: int) returns (spawns: seq<Point>)
      modifies this
      ensures main == old(main) + GridTiles(tileMap, size)
      ensures grass == old(grass) + OfKind(GridTiles(tileMap, size), Grass)
      ensures water == old(water) + OfKind(GridTiles(tileMap, size), Water)
      ensures spawns == GridSpawns(tileMap)
    {
      spawns := [];
      var i := 0;
      while i < |tileMap|
        invariant 0 <= i <= |tileMap|
        invariant main == old(main) + GridTiles(tileMap[..i], size)
        invariant grass == old(grass) + OfKind(GridTiles(tileMap[..i], size), Grass)
        invariant water == old(water) + OfKind(GridTiles(tileMap[..i], size), Water)
        invariant spawns == GridSpawns(tileMap[..i])
      {
        var rowSpawns := PopulateRow(tileMap[i], i, size);
        spawns := spawns + rowSpawns;
        GridStep(tileMap, i, size);
        ghost var row := RowTiles(tileMap[i], i, size);
        ghost var done := GridTiles(tileMap[..i], size);
        Associative(old(main), done, row);
        Associative(old(grass), OfKind(done, Grass), OfKind(row, Grass));
        Associative(old(water), OfKind(done, Water), OfKind(row, Water));
        i := i + 1;
      }
      assert tileMap[..i] == tileMap;
    }

    /** `kill()` on each sprite of `dead`: it leaves every group it belongs to. */
    method Kill(dead: seq<Tile>)
      modifies this
      ensures main == Remove(old(main), dead)
      ensures grass == Remove(old(grass), dead)
      ensures water == Remove(old(water), dead)
    {
      main := Remove(main, dead);
      grass := Remove(grass, dead);
      water := Remove(water, dead);
    }
  }

  /** The map set-up of the game script: three empty sprite groups, then the build loop
      over the whole map. The groups come out consistent, in map order, holding exactly
      the tiles the cells ask for. */
  method Build(tileMap: seq<seq<int>>, size: int) returns (groups: Groups, spawns: seq<Point>)
    ensures fresh(groups)
    ensures groups.main == GridTiles(tileMap, size) && spawns == GridSpawns(tileMap)
    ensures Consistent(groups.Contents())
    ensures RowMajor(groups.main) && RowMajor(groups.grass) && RowMajor(groups.water)
  {
    groups := new Groups();
    spawns := groups.Populate(tileMap, size);
    BuiltGroups(tileMap, size);
  }

  // ---------------------------------------------------------------------------
  // Lemmas about the groups

  lemma Associative<T>(a: seq<T>, b: seq<T>, c: seq<T>)
    ensures (a + b) + c == a + (b + c)
  {
  }

  /** One more column of a row. */
  lemma RowStep(row: seq<int>, i: int, j: int, size: int)
    requires 0 <= j < |row|
    ensures RowTiles(row[..j + 1], i, size) == RowTiles(row[..j], i, size) + CellTiles(row[j], i, j, size)
    ensures RowSpawns(row[..j + 1], i) == RowSpawns(row[..j], i) + CellSpawns(row[j], i, j)
    ensures forall k :: OfKind(RowTiles(row[..j + 1], i, size), k) ==
                        OfKind(RowTiles(row[..j], i, size), k) + OfKind(CellTiles(row[j], i, j, size), k)
  {
    assert row[..j + 1][..j] == row[..j];
    forall k {
      OfKindAppend(RowTiles(row[..j], i, size), CellTiles(row[j], i, j, size), k);
    }
  }

  /** One more row of the map. */
  lemma GridStep(tileMap: seq<seq<int>>, i: int, size: int)
    requires 0 <= i < |tileMap|
    ensures GridTiles(tileMap[..i + 1], size) == GridTiles(tileMap[..i], size) + RowTiles(tileMap[i], i, size)
    ensures GridSpawns(tileMap[..i + 1]) == GridSpawns(tileMap[..i]) + RowSpawns(tileMap[i], i)
    ensures forall k :: OfKind(GridTiles(tileMap[..i + 1], size), k) ==
                        OfKind(GridTiles(tileMap[..i], size), k) + OfKind(RowTiles(tileMap[i], i, size), k)
  {
    assert tileMap[..i + 1][..i] == tileMap[..i];
    forall k {
      OfKindAppend(GridTiles(tileMap[..i], size), RowTiles(tileMap[i], i, size), k);
    }
  }

  /** Selecting one kind distributes over concatenation. */
  lemma {:induction false} OfKindAppend(a: seq<Tile>, b: seq<Tile>, k: Kind)
    ensures OfKind(a + b, k) == OfKind(a, k) + OfKind(b, k)
    decreases |b|
  {
    if b == [] {
      assert a + b == a;
    } else {
      var n := |b| - 1;
      var last := if b[n].kind == k then [b[n]] else [];
      assert (a + b)[..|a| + n] == a + b[..n];
      assert (a + b)[|a| + n] == b[n];
      assert OfKind(a + b, k) == OfKind(a + b[..n], k) + last;
      assert OfKind(b, k) == OfKind(b[..n], k) + last;
      OfKindAppend(a, b[..n], k);
      Associative(OfKind(a, k), OfKind(b[..n], k), last);
    }
  }

  /** Killing sprites from a group extended by one sprite. */
  lemma RemoveSnoc(s: seq<Tile>, x: Tile, dead: seq<Tile>)
    ensures Remove(s + [x], dead) == Remove(s, dead) + (if x in dead then [] else [x])
  {
    assert (s + [x])[..|s|] == s;
  }

  /** Killing sprites distributes over concatenation. */
  lemma {:induction false} RemoveAppend(a: seq<Tile>, b: seq<Tile>, dead: seq<Tile>)
    ensures Remove(a + b, dead) == Remove(a, dead) + Remove(b, dead)
    decreases |b|
  {
    if b == [] {
      assert a + b == a;
    } else {
      var n := |b| - 1;
      var x := b[n];
      assert b == b[..n] + [x];
      assert a + b == (a + b[..n]) + [x];
      RemoveSnoc(a + b[..n], x, dead);
      RemoveSnoc(b[..n], x, dead);
      RemoveAppend(a, b[..n], dead);
    }
  }

  /** Killing sprites and then selecting a kind is selecting the kind and then killing them. */
  lemma {:induction false} RemoveOfKind(s: seq<Tile>, dead: seq<Tile>, k: Kind)
    ensures Remove(OfKind(s, k), dead) == OfKind(Remove(s, dead), k)
    decreases |s|
  {
    if s != [] {
      var n := |s| - 1;
      var x := s[n];
      RemoveOfKind(s[..n], dead, k);
      var picked := if x.kind == k then [x] else [];
      var kept := if x in dead then [] else [x];
      assert OfKind(s, k) == OfKind(s[..n], k) + picked;
      assert Remove(s, dead) == Remove(s[..n], dead) + kept;
      RemoveAppend(OfKind(s[..n], k), picked, dead);
      OfKindAppend(Remove(s[..n], dead), kept, k);
      assert [x][..0] == [];
      assert Remove(picked, dead) == OfKind(kept, k);
    }
  }

  /** Killing sprites that are not in a group leaves the group as it was. */
  lemma {:induction false} RemoveNone(s: seq<Tile>, dead: seq<Tile>)
    requires forall t :: t in s ==> t !in dead
    ensures Remove(s, dead) == s
    decreases |s|
  {
    if s != [] {
      var n := |s| - 1;
      RemoveNone(s[..n], dead);
      assert s == s[..n] + [s[n]];
    }
  }

  /** Killing sprites of one group keeps the groups consistent, and leaves a sub-group of
      another kind untouched: drowning in water never takes away grass. */
  lemma KillKeepsConsistent(l: Level, dead: seq<Tile>, k: Kind)
    requires Consistent(l)
    requires forall t :: t in dead ==> t.kind == k
    ensures Consistent(Level(Remove(l.main, dead), Remove(l.grass, dead), Remove(l.water, dead)))
    ensures k != Grass ==> Remove(l.grass, dead) == l.grass
    ensures k != Water ==> Remove(l.water, dead) == l.water
  {
    RemoveOfKind(l.main, dead, Grass);
    RemoveOfKind(l.main, dead, Water);
    if k != Grass {
      RemoveNone(l.grass, dead);
    }
    if k != Water {
      RemoveNone(l.water, dead);
    }
  }

  /** The query's first hit is the earliest member of the group that collides. */
  lemma {:induction false} FirstHitIsEarliest(r: Rect, group: seq<Tile>, k: int)
    requires 0 <= k < |group| && Overlaps(r, group[k].rect)
    requires forall j :: 0 <= j < k ==> !Overlaps(r, group[j].rect)
    ensures Collide(r, group) != [] && Collide(r, group)[0] == group[k]
    decreases |group|
  {
    var n := |group| - 1;
    assert group == group[..n] + [group[n]];
    if k < n {
      FirstHitIsEarliest(r, group[..n], k);
    } else {
      assert forall t :: t in group[..n] ==> !Overlaps(r, t.rect);
    }
  }

  /** In a group kept in row-major order the first hit is a topmost colliding tile. */
  lemma {:induction false} FirstHitIsTopmost(r: Rect, group: seq<Tile>)
    requires RowMajor(group)
    ensures forall t :: t in Collide(r, group) ==> Collide(r, group)[0].rect.top <= t.rect.top
    decreases |group|
  {
    if group != [] {
      var n := |group| - 1;
      var front := group[..n];
      assert RowMajor(front);
      FirstHitIsTopmost(r, front);
      var hits := Collide(r, front);
      var all := hits + (if Overlaps(r, group[n].rect) then [group[n]] else []);
      assert group == front + [group[n]];
      assert Collide(r, group) == all;
      if hits != [] {
        assert all[0] == hits[0];
        assert Before(hits[0].rect, group[n].rect) by {
          assert hits[0] in front;
          var a :| 0 <= a < n && front[a] == hits[0];
          assert group[a] == hits[0];
        }
        forall t | t in all
          ensures all[0].rect.top <= t.rect.top
        {
          if t in hits {
          } else {
            assert t == group[n];
          }
        }
      } else {
        forall t | t in all
          ensures all[0].rect.top <= t.rect.top
        {
          assert all == [group[n]];
        }
      }
    }
  }

  /** Selecting a kind keeps row-major order. */
  lemma {:induction false} OfKindRowMajor(ts: seq<Tile>, k: Kind)
    requires RowMajor(ts)
    ensures RowMajor(OfKind(ts, k))
    decreases |ts|
  {
    if ts != [] {
      var n := |ts| - 1;
      var front := ts[..n];
      assert RowMajor(front);
      OfKindRowMajor(front, k);
      var sel := OfKind(front, k);
      forall a | 0 <= a < |sel|
        ensures Before(sel[a].rect, ts[n].rect)
      {
        assert sel[a] in front;
        var c :| 0 <= c < n && front[c] == sel[a];
        assert ts[c] == sel[a];
      }
      var whole := sel + (if ts[n].kind == k then [ts[n]] else []);
      assert OfKind(ts, k) == whole;
      forall a, b | 0 <= a < b < |whole|
        ensures Before(whole[a].rect, whole[b].rect)
      {
        if b < |sel| {
          assert whole[a] == sel[a] && whole[b] == sel[b];
        } else {
          assert whole[a] == sel[a] && whole[b] == ts[n];
        }
      }
    }
  }

  /** The tiles of row i lie on that row, left to right, within its columns. */
  lemma {:induction false} RowTilesPlaced(row: seq<int>, i: int, size: int)
    ensures forall t :: t in RowTiles(row, i, size) ==>
      t.rect.top == i * 32 && 0 <= t.rect.left < |row| * 32
    ensures RowMajor(RowTiles(row, i, size))
    decreases |row|
  {
    if row != [] {
      var n := |row| - 1;
      RowTilesPlaced(row[..n], i, size);
    }
  }

  /** The build loop creates the tiles in strictly increasing row-major order, all within
      the map's rows; in particular no two tiles share a top-left corner. */
  lemma {:induction false} GridTilesRowMajor(tileMap: seq<seq<int>>, size: int)
    ensures forall t :: t in GridTiles(tileMap, size) ==> 0 <= t.rect.top < |tileMap| * 32
    ensures RowMajor(GridTiles(tileMap, size))
    decreases |tileMap|
  {
    if tileMap != [] {
      var n := |tileMap| - 1;
      GridTilesRowMajor(tileMap[..n], size);
      RowTilesPlaced(tileMap[n], n, size);
      var front := GridTiles(tileMap[..n], size);
      var back := RowTiles(tileMap[n], n, size);
      var all := front + back;
      forall a, b | 0 <= a < b < |all|
        ensures Before(all[a].rect, all[b].rect)
      {
        if b < |front| {
          assert all[a] == front[a] && all[b] == front[b];
        } else if a >= |front| {
          assert all[a] == back[a - |front|] && all[b] == back[b - |front|];
        } else {
          assert all[a] in front && all[b] in back;
        }
      }
    }
  }

  /** Column j of row i holds a value asking for tile `t`, and `t` is the tile the build
      loop creates there. */
  predicate Yields(row: seq<int>, i: int, j: int, t: Tile, size: int)
  {
    0 <= j < |row| && CellKind(row[j]) == Some(t.kind) && t == TileAt(i, j, t.kind, size)
  }

  /** Every tile of row i comes from one of its columns. */
  lemma {:induction false} RowTilesFrom(row: seq<int>, i: int, size: int, t: Tile) returns (j: int)
    requires t in RowTiles(row, i, size)
    ensures Yields(row, i, j, t, size)
    decreases |row|
  {
    var n := |row| - 1;
    if t in RowTiles(row[..n], i, size) {
      j := RowTilesFrom(row[..n], i, size, t);
      assert row[..n][j] == row[j];
    } else {
      j := n;
    }
  }

  /** Every column of row i asking for a tile yields that tile. */
  lemma {:induction false} RowTilesHas(row: seq<int>, i: int, j: int, size: int, t: Tile)
    requires Yields(row, i, j, t, size)
    ensures t in RowTiles(row, i, size)
    decreases |row|
  {
    var n := |row| - 1;
    if j < n {
      assert row[..n][j] == row[j];
      RowTilesHas(row[..n], i, j, size, t);
    }
  }

  /** A row's tiles are exactly the tiles its cells ask for. */
  lemma RowTilesMembers(row: seq<int>, i: int, size: int, t: Tile)
    ensures t in RowTiles(row, i, size) <==> exists j :: Yields(row, i, j, t, size)
  {
    if t in RowTiles(row, i, size) {
      var j := RowTilesFrom(row, i, size, t);
    }
    if exists j :: Yields(row, i, j, t, size) {
      var j :| Yields(row, i, j, t, size);
      RowTilesHas(row, i, j, size, t);
    }
  }

  /** Every tile of the map comes from one of its cells. */
  lemma {:induction false} GridTilesFrom(tileMap: seq<seq<int>>, size: int, t: Tile) returns (i: int, j: int)
    requires t in GridTiles(tileMap, size)
    ensures 0 <= i < |tileMap| && Yields(tileMap[i], i, j, t, size)
    decreases |tileMap|
  {
    var n := |tileMap| - 1;
    var front := tileMap[..n];
    if t in GridTiles(front, size) {
      i, j := GridTilesFrom(front, size, t);
      assert front[i] == tileMap[i];
    } else {
      i := n;
      j := RowTilesFrom(tileMap[n], n, size, t);
    }
  }

  /** Every cell of the map asking for a tile yields that tile. */
  lemma {:induction false} GridTilesHas(tileMap: seq<seq<int>>, i: int, j: int, size: int, t: Tile)
    requires 0 <= i < |tileMap| && Yields(tileMap[i], i, j, t, size)
    ensures t in GridTiles(tileMap, size)
    decreases |tileMap|
  {
    var n := |tileMap| - 1;
    var front := tileMap[..n];
    if i < n {
      assert front[i] == tileMap[i];
      GridTilesHas(front, i, j, size, t);
    } else {
      RowTilesHas(tileMap[n], n, j, size, t);
    }
  }

  /** The map's tiles are exactly the tiles its cells ask for: a cell (i, j) holding 1, 2
      or 3 yields a dirt, grass or water tile with top-left corner (32 j, 32 i), and no
      other tile exists. */
  lemma GridTilesMembers(tileMap: seq<seq<int>>, size: int, t: Tile)
    ensures t in GridTiles(tileMap, size) <==>
      exists i, j :: 0 <= i < |tileMap| && Yields(tileMap[i], i, j, t, size)
  {
    if t in GridTiles(tileMap, size) {
      var i, j := GridTilesFrom(tileMap, size, t);
    }
    if exists i, j :: 0 <= i < |tileMap| && Yields(tileMap[i], i, j, t, size) {
      var i, j :| 0 <= i < |tileMap| && Yields(tileMap[i], i, j, t, size);
      GridTilesHas(tileMap, i, j, size, t);
    }
  }

  /** Cell (i, j) of the map yields exactly one tile, of its kind and at (32 j, 32 i), when
      it holds 1, 2 or 3, and no tile at that corner otherwise. */
  lemma CellYield(tileMap: seq<seq<int>>, size: int, i: int, j: int)
    requires 0 <= i < |tileMap| && 0 <= j < |tileMap[i]|
    ensures CellKind(tileMap[i][j]).Some? ==>
      var t := TileAt(i, j, CellKind(tileMap[i][j]).value, size);
      t.rect.left == j * 32 && t.rect.top == i * 32 &&
      exists a :: 0 <= a < |GridTiles(tileMap, size)| && GridTiles(tileMap, size)[a] == t
    ensures CellKind(tileMap[i][j]).None? ==>
      forall t :: t in GridTiles(tileMap, size) ==> t.rect.left != j * 32 || t.rect.top != i * 32
    ensures forall a, b :: 0 <= a < b < |GridTiles(tileMap, size)| ==>
      GridTiles(tileMap, size)[a].rect.left != GridTiles(tileMap, size)[b].rect.left ||
      GridTiles(tileMap, size)[a].rect.top != GridTiles(tileMap, size)[b].rect.top
  {
    GridTilesRowMajor(tileMap, size);
    var ts := GridTiles(tileMap, size);
    if CellKind(tileMap[i][j]).Some? {
      var t := TileAt(i, j, CellKind(tileMap[i][j]).value, size);
      assert Yields(tileMap[i], i, j, t, size);
      GridTilesMembers(tileMap, size, t);
    } else {
      forall t | t in ts
        ensures t.rect.left != j * 32 || t.rect.top != i * 32
      {
        GridTilesMembers(tileMap, size, t);
      }
    }
  }

  /** Column j of row i holds 4, and `p` is the bottom-left corner of that cell. */
  predicate Spawns(row: seq<int>, i: int, j: int, p: Point)
  {
    0 <= j < |row| && row[j] == 4 && p == SpawnAt(i, j)
  }

  /** Every spawn point of row i comes from one of its columns. */
  lemma {:induction false} RowSpawnsFrom(row: seq<int>, i: int, p: Point) returns (j: int)
    requires p in RowSpawns(row, i)
    ensures Spawns(row, i, j, p)
    decreases |row|
  {
    var n := |row| - 1;
    if p in RowSpawns(row[..n], i) {
      j := RowSpawnsFrom(row[..n], i, p);
      assert row[..n][j] == row[j];
    } else {
      j := n;
    }
  }

  /** Every 4 of row i yields its spawn point. */
  lemma {:induction false} RowSpawnsHas(row: seq<int>, i: int, j: int, p: Point)
    requires Spawns(row, i, j, p)
    ensures p in RowSpawns(row, i)
    decreases |row|
  {
    var n := |row| - 1;
    if j < n {
      assert row[..n][j] == row[j];
      RowSpawnsHas(row[..n], i, j, p);
    }
  }

  /** A row's spawn points are exactly the bottom-left corners of its 4 cells. */
  lemma RowSpawnsMembers(row: seq<int>, i: int, p: Point)
    ensures p in RowSpawns(row, i) <==> exists j :: Spawns(row, i, j, p)
  {
    if p in RowSpawns(row, i) {
      var j := RowSpawnsFrom(row, i, p);
    }
    if exists j :: Spawns(row, i, j, p) {
      var j :| Spawns(row, i, j, p);
      RowSpawnsHas(row, i, j, p);
    }
  }

  /** Every spawn point of the map comes from one of its cells. */
  lemma {:induction false} GridSpawnsFrom(tileMap: seq<seq<int>>, p: Point) returns (i: int, j: int)
    requires p in GridSpawns(tileMap)
    ensures 0 <= i < |tileMap| && Spawns(tileMap[i], i, j, p)
    decreases |tileMap|
  {
    var n := |tileMap| - 1;
    var front := tileMap[..n];
    if p in GridSpawns(front) {
      i, j := GridSpawnsFrom(front, p);
      assert front[i] == tileMap[i];
    } else {
      i := n;
      j := RowSpawnsFrom(tileMap[n], n, p);
    }
  }

  /** Every 4 of the map yields its spawn point. */
  lemma {:induction false} GridSpawnsHas(tileMap: seq<seq<int>>, i: int, j: int, p: Point)
    requires 0 <= i < |tileMap| && Spawns(tileMap[i], i, j, p)
    ensures p in GridSpawns(tileMap)
    decreases |tileMap|
  {
    var n := |tileMap| - 1;
    var front := tileMap[..n];
    if i < n {
      assert front[i] == tileMap[i];
      GridSpawnsHas(front, i, j, p);
    } else {
      RowSpawnsHas(tileMap[n], n, j, p);
    }
  }

  /** The map's spawn points are exactly the bottom-left corners (32 j, 32 i + 32) of its
      4 cells. */
  lemma GridSpawnsMembers(tileMap: seq<seq<int>>, p: Point)
    ensures p in GridSpawns(tileMap) <==>
      exists i, j :: 0 <= i < |tileMap| && Spawns(tileMap[i], i, j, p)
  {
    if p in GridSpawns(tileMap) {
      var i, j := GridSpawnsFrom(tileMap, p);
    }
    if exists i, j :: 0 <= i < |tileMap| && Spawns(tileMap[i], i, j, p) {
      var i, j :| 0 <= i < |tileMap| && Spawns(tileMap[i], i, j, p);
      GridSpawnsHas(tileMap, i, j, p);
    }
  }

  /** A player placed by cell (i, j) stands on the cell below: the bottom of its rectangle
      is the top of a tile in cell (i + 1, j), which it touches without colliding with. */
  lemma SpawnStandsOnCellBelow(i: int, j: int, width: int, height: int, kind: Kind, size: int)
    ensures var p := SpawnAt(i, j);
      var body := Rect(0, 0, width, height).WithBottomLeft(p.x, p.y);
      var below := TileAt(i + 1, j, kind, size).rect;
      body.left == below.left && body.Bottom() == below.top && !Overlaps(body, below)
  {
    var p := SpawnAt(i, j);
    TouchingIsNotOverlapping(Rect(0, 0, width, height).WithBottomLeft(p.x, p.y), TileAt(i + 1, j, kind, size).rect);
  }

  /** The build loop creates the tiles in map order, so the main group and both sub-groups
      it fills are in strictly increasing row-major order. */
  lemma BuiltGroups(tileMap: seq<seq<int>>, size: int)
    ensures var main := GridTiles(tileMap, size);
      RowMajor(main) && RowMajor(OfKind(main, Grass)) && RowMajor(OfKind(main, Water))
  {
    var main := GridTiles(tileMap, size);
    GridTilesRowMajor(tileMap, size);
    OfKindRowMajor(main, Grass);
    OfKindRowMajor(main, Water);
  }

}
