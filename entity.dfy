/**
 * The physics step of a movable actor of the game: the intent set by
 * `MoveWithAccel`, the corner sampling of the tile grid, the axis-by-axis
 * collision resolution of `TryMove` and the velocity integration of `Update`.
 *
 * Positions and velocities are `real`s (no float rounding); the tile grid is a
 * two-dimensional array of collidability flags indexed `[x, y]`.
 */
module EntityPhysics {

  datatype Direction = Up | Down | Left | Right

  datatype EntityState = Idle | Walking

  datatype Vec = Vec(x: real, y: real)

  /** An axis-aligned rectangle given by its lower-left corner and its size. */
  datatype Rect = Rect(x: real, y: real, width: real, height: real)

  /** A tile coordinate of the grid. */
  datatype Cell = Cell(x: int, y: int)

  const ACCEL_MAX: real := 2.0
  const VEL_MAX: real := 0.05
  const MIN_WALK_VELOCITY: real := 0.001
  /** The gap left between a box and the tile it is snapped against. */
  const SNAP_GAP: real := 0.01
  /** The rectangle a non-collidable sample is set to. */
  const NO_RECT: Rect := Rect(-1.0, -1.0, 0.0, 0.0)
  /** The value of a freshly allocated rectangle. */
  const ZERO_RECT: Rect := Rect(0.0, 0.0, 0.0, 0.0)
  const ZERO: Vec := Vec(0.0, 0.0)

  function GetMaxVelocity(): (m: real)
    ensures 0.0 < m
  {
    VEL_MAX
  }

  function Scale(v: Vec, k: real): Vec
  {
    Vec(v.x * k, v.y * k)
  }

  function Abs(v: real): real
  {
    if v < 0.0 then -v else v
  }

  /** The strict-inequality intersection test of two rectangles. */
  predicate Overlaps(a: Rect, b: Rect)
  {
    a.x < b.x + b.width && a.x + a.width > b.x && a.y < b.y + b.height && a.y + a.height > b.y
  }

  /** A point lies in the half-open area of a rectangle. */
  predicate Contains(r: Rect, px: real, py: real)
  {
    r.x <= px < r.x + r.width && r.y <= py < r.y + r.height
  }

  /** Java's `(int)` cast: truncation toward zero. */
  function Trunc(v: real): (t: int)
    ensures 0.0 <= v ==> t as real <= v < t as real + 1.0
    ensures v < 0.0 ==> t as real - 1.0 < v <= t as real
  {
    if 0.0 <= v then v.Floor else -((-v).Floor)
  }

  /** For a coordinate strictly between -1 and 0 the cast gives 0 and the floor gives -1. */
  lemma NegativeFractionSampling(v: real)
    requires -1.0 < v < 0.0
    ensures Trunc(v) == 0 && v.Floor == -1
  {
    assert (-v).Floor == 0;
  }

  // ---------------------------------------------------------------------------
  // Movement intent

  /** The acceleration after a move request in direction `d`. */
  function Pushed(a: Vec, d: Direction): (r: Vec)
    ensures (d == Up || d == Down) ==> r.x == a.x && Abs(r.y) == ACCEL_MAX && (0.0 < r.y <==> d == Up)
    ensures (d == Left || d == Right) ==> r.y == a.y && Abs(r.x) == ACCEL_MAX && (0.0 < r.x <==> d == Right)
  {
    match d
    case Up => a.(y := ACCEL_MAX)
    case Down => a.(y := -ACCEL_MAX)
    case Left => a.(x := -ACCEL_MAX)
    case Right => a.(x := ACCEL_MAX)
  }

  /** The part of an entity a move request writes. */
  datatype Intent = Intent(accel: Vec, direction: Direction, state: EntityState)

  function Steered(i: Intent, d: Direction): (r: Intent)
    ensures r.direction == d && r.state == Walking
  {
    Intent(Pushed(i.accel, d), d, Walking)
  }

  // ---------------------------------------------------------------------------
  // Corner sampling of the tile grid

  /** The four sampled cells: bottom-left, bottom-right, top-right, top-left. */
  function Corners(b: Rect): (cs: seq<Cell>)
    ensures |cs| == 4
  {
    [Cell(Trunc(b.x), b.y.Floor), Cell(Trunc(b.x + b.width), b.y.Floor),
     Cell(Trunc(b.x + b.width), Trunc(b.y + b.height)), Cell(Trunc(b.x), Trunc(b.y + b.height))]
  }

  /** The corner points whose cells `Corners` names, in the same order. */
  function CornerPoints(b: Rect): (ps: seq<Vec>)
    ensures |ps| == 4
  {
    [Vec(b.x, b.y), Vec(b.x + b.width, b.y), Vec(b.x + b.width, b.y + b.height), Vec(b.x, b.y + b.height)]
  }

  predicate InGrid(c: Cell, tiles: array2<bool>)
  {
    0 <= c.x < tiles.Length0 && 0 <= c.y < tiles.Length1
  }

  predicate AllInGrid(cs: seq<Cell>, tiles: array2<bool>)
  {
    forall k :: 0 <= k < |cs| ==> InGrid(cs[k], tiles)
  }

  /** The rectangle a sampled cell yields: the unit tile if it is collidable, else `NO_RECT`. */
  function CellRect(c: Cell, tiles: array2<bool>): Rect
    requires InGrid(c, tiles)
    reads tiles
  {
    if tiles[c.x, c.y] then Rect(c.x as real, c.y as real, 1.0, 1.0) else NO_RECT
  }

  /**
   * The four sample rectangles after a lookup around `b`; when any corner lies
   * outside the grid the lookup fails as a whole and the previous rectangles stay.
   */
  function Fetched(b: Rect, stale: seq<Rect>, tiles: array2<bool>): seq<Rect>
    reads tiles
  {
    var cs := Corners(b);
    if AllInGrid(cs, tiles) then
      [CellRect(cs[0], tiles), CellRect(cs[1], tiles), CellRect(cs[2], tiles), CellRect(cs[3], tiles)]
    else
      stale
  }

  /**
   * A successful lookup yields, for each corner, the unit tile at that corner's
   * cell when the tile is collidable and the placeholder otherwise; for a box
   * with non-negative position and size that unit tile holds the corner.
   */
  lemma FetchedCoversCorners(b: Rect, stale: seq<Rect>, tiles: array2<bool>, k: int)
    requires AllInGrid(Corners(b), tiles) && 0 <= k < 4
    ensures var c, rs := Corners(b)[k], Fetched(b, stale, tiles);
      |rs| == 4 && rs[k] == (if tiles[c.x, c.y] then Rect(c.x as real, c.y as real, 1.0, 1.0) else NO_RECT)
    ensures var c, rs, p := Corners(b)[k], Fetched(b, stale, tiles), CornerPoints(b)[k];
      0.0 <= b.x && 0.0 <= b.y && 0.0 <= b.width && 0.0 <= b.height && tiles[c.x, c.y] ==> Contains(rs[k], p.x, p.y)
  {
    var cs := Corners(b);
    assert InGrid(cs[k], tiles);
  }

  /** A failed lookup (some corner off the grid) leaves every sample rectangle as it was. */
  lemma FetchedOffGridIsStale(b: Rect, stale: seq<Rect>, tiles: array2<bool>, k: int)
    requires 0 <= k < 4 && !InGrid(Corners(b)[k], tiles)
    ensures Fetched(b, stale, tiles) == stale
  {
  }

  /**
   * The placeholder `NO_RECT` is not inert: under the strict test a box that
   * straddles the point (-1, -1) overlaps it, and such a box samples off the
   * grid, so stale placeholders are what it is tested against.
   */
  lemma PlaceholderCanCollide(tiles: array2<bool>)
    ensures var b := Rect(-1.5, -1.5, 1.0, 1.0);
      Overlaps(b, NO_RECT) && !InGrid(Corners(b)[0], tiles) && Fetched(b, [NO_RECT, NO_RECT, NO_RECT, NO_RECT], tiles) == [NO_RECT, NO_RECT, NO_RECT, NO_RECT]
  {
    var b := Rect(-1.5, -1.5, 1.0, 1.0);
    assert (1.5 as real).Floor == 1;
    assert Corners(b)[0].x == -1;
  }

  // ---------------------------------------------------------------------------
  // Collision resolution, one axis at a time

  datatype Axis = Vertical | Horizontal

  function Pos(b: Rect, axis: Axis): real
  {
    if axis == Vertical then b.y else b.x
  }

  function Extent(b: Rect, axis: Axis): real
  {
    if axis == Vertical then b.height else b.width
  }

  function WithPos(b: Rect, axis: Axis, p: real): Rect
  {
    if axis == Vertical then b.(y := p) else b.(x := p)
  }

  function Comp(v: Vec, axis: Axis): real
  {
    if axis == Vertical then v.y else v.x
  }

  function WithComp(v: Vec, axis: Axis, c: real): Vec
  {
    if axis == Vertical then v.(y := c) else v.(x := c)
  }

  /** The box and velocity a collision pass works on. */
  datatype Body = Body(bounds: Rect, vel: Vec)

  /** Where a box moving with velocity component `c` is put against `rect`: past its far edge when moving backwards, else before its near edge. */
  function SnapPos(axis: Axis, body: Body, rect: Rect): real
  {
    if Comp(body.vel, axis) < 0.0 then FarSnap(axis, rect) else NearSnap(axis, body, rect)
  }

  /** One sampled rectangle of a pass: on overlap, snap along the axis and stop on it. */
  function Hit(axis: Axis, body: Body, rect: Rect): Body
  {
    if Overlaps(body.bounds, rect) then
      Body(WithPos(body.bounds, axis, SnapPos(axis, body, rect)), WithComp(body.vel, axis, 0.0))
    else
      body
  }

  /** A pass over the sample rectangles in order. */
  function Pass(axis: Axis, body: Body, rs: seq<Rect>): Body
    decreases |rs|
  {
    if rs == [] then body else Hit(axis, Pass(axis, body, rs[..|rs| - 1]), rs[|rs| - 1])
  }

  /** The box moved along one axis by its velocity. */
  function Advance(axis: Axis, b: Rect, v: Vec): Rect
  {
    WithPos(b, axis, Pos(b, axis) + Comp(v, axis))
  }

  /** A snapped box no longer overlaps the rectangle it was snapped against. */
  lemma HitClears(axis: Axis, body: Body, rect: Rect)
    requires Overlaps(body.bounds, rect)
    ensures !Overlaps(Hit(axis, body, rect).bounds, rect)
  {
  }

  /** A pass changes only its own axis: the other coordinate, the size and the other velocity component stay. */
  lemma {:induction false} PassOnlyOwnAxis(axis: Axis, body: Body, rs: seq<Rect>)
    ensures var out := Pass(axis, body, rs);
      out.bounds == WithPos(body.bounds, axis, Pos(out.bounds, axis)) &&
      out.vel == WithComp(body.vel, axis, Comp(out.vel, axis))
    decreases |rs|
  {
    if rs != [] {
      PassOnlyOwnAxis(axis, body, rs[..|rs| - 1]);
    }
  }

  /** A pass either keeps the velocity component of its axis or sets it to zero. */
  lemma {:induction false} PassVelocity(axis: Axis, body: Body, rs: seq<Rect>)
    ensures var c := Comp(Pass(axis, body, rs).vel, axis); c == Comp(body.vel, axis) || c == 0.0
    decreases |rs|
  {
    if rs != [] {
      PassVelocity(axis, body, rs[..|rs| - 1]);
    }
  }

  /** When no sample rectangle overlaps the box, the pass changes nothing. */
  lemma {:induction false} PassFree(axis: Axis, body: Body, rs: seq<Rect>)
    requires forall k :: 0 <= k < |rs| ==> !Overlaps(body.bounds, rs[k])
    ensures Pass(axis, body, rs) == body
    decreases |rs|
  {
    if rs != [] {
      PassFree(axis, body, rs[..|rs| - 1]);
    }
  }

  /** When some sample rectangle overlaps the box, the pass stops the box on its axis. */
  lemma {:induction false} PassStops(axis: Axis, body: Body, rs: seq<Rect>, k: int)
    requires 0 <= k < |rs| && Overlaps(body.bounds, rs[k])
    ensures Comp(Pass(axis, body, rs).vel, axis) == 0.0
    decreases |rs|
  {
    var n := |rs| - 1;
    var pre := rs[..n];
    if exists j :: 0 <= j < n && Overlaps(body.bounds, pre[j]) {
      var j :| 0 <= j < n && Overlaps(body.bounds, pre[j]);
      PassStops(axis, body, pre, j);
    } else {
      PassFree(axis, body, pre);
      assert k == n;
    }
  }

  /** Sample `j` of a pass overlaps the box as the earlier samples left it. */
  predicate Hits(axis: Axis, body: Body, rs: seq<Rect>, j: int)
  {
    0 <= j < |rs| && Overlaps(Pass(axis, body, rs[..j]).bounds, rs[j])
  }

  /** Position a box of the size of `body` takes when snapped before the near edge of `rect`. */
  function NearSnap(axis: Axis, body: Body, rect: Rect): real
  {
    Pos(rect, axis) - Extent(body.bounds, axis) - SNAP_GAP
  }

  /** Position a box takes when snapped past the far edge of `rect`. */
  function FarSnap(axis: Axis, rect: Rect): real
  {
    Pos(rect, axis) + Extent(rect, axis) + SNAP_GAP
  }

  /** Sample `k` is the last one of the pass that hits. */
  predicate LastHit(axis: Axis, body: Body, rs: seq<Rect>, k: int)
  {
    Hits(axis, body, rs, k) && forall j :: k < j < |rs| ==> !Hits(axis, body, rs, j)
  }

  /** No sample before `k` hits. */
  predicate NoHitBefore(axis: Axis, body: Body, rs: seq<Rect>, k: int)
  {
    forall j :: 0 <= j < k ==> !Hits(axis, body, rs, j)
  }

  /** Where the last hit `k` leaves the box: past its far edge exactly when it is also the first hit and the box entered moving backwards, otherwise before its near edge. */
  predicate SnappedBy(axis: Axis, body: Body, rs: seq<Rect>, k: int, out: Body)
    requires 0 <= k < |rs|
  {
    Pos(out.bounds, axis) ==
      if Comp(body.vel, axis) < 0.0 && NoHitBefore(axis, body, rs, k) then FarSnap(axis, rs[k])
      else NearSnap(axis, body, rs[k])
  }

  lemma HitsOfPrefix(axis: Axis, body: Body, rs: seq<Rect>, n: int)
    requires 0 <= n <= |rs|
    ensures forall j :: 0 <= j < n ==> (Hits(axis, body, rs, j) <==> Hits(axis, body, rs[..n], j))
  {
    forall j | 0 <= j < n
      ensures Hits(axis, body, rs, j) <==> Hits(axis, body, rs[..n], j)
    {
      assert rs[..n][..j] == rs[..j];
    }
  }

  /** A pass in which no sample hits leaves the box as it was. */
  lemma {:induction false} PassNoHit(axis: Axis, body: Body, rs: seq<Rect>)
    requires NoHitBefore(axis, body, rs, |rs|)
    ensures Pass(axis, body, rs) == body
    decreases |rs|
  {
    if rs != [] {
      var n := |rs| - 1;
      HitsOfPrefix(axis, body, rs, n);
      PassNoHit(axis, body, rs[..n]);
      assert !Hits(axis, body, rs, n);
    }
  }

  /**
   * The result of a pass: with no hit, the unchanged box; otherwise the box is
   * stopped and placed by the last sample that hit. Only the first hit can see a
   * negative velocity, so the snap past the far edge happens only when the last
   * hit is also the first and the box entered the pass moving backwards; every
   * later hit snaps before the near edge.
   */
  lemma {:induction false} PassSnaps(axis: Axis, body: Body, rs: seq<Rect>)
    ensures var out := Pass(axis, body, rs);
      (out == body && NoHitBefore(axis, body, rs, |rs|)) ||
      (Comp(out.vel, axis) == 0.0 && exists k :: LastHit(axis, body, rs, k) && SnappedBy(axis, body, rs, k, out))
    decreases |rs|
  {
    if rs != [] {
      var n := |rs| - 1;
      var pre := rs[..n];
      PassSnaps(axis, body, pre);
      HitsOfPrefix(axis, body, rs, n);
      var mid := Pass(axis, body, pre);
      if Overlaps(mid.bounds, rs[n]) {
        PassHitLast(axis, body, rs);
      } else {
        assert !Hits(axis, body, rs, n);
        if !(mid == body && NoHitBefore(axis, body, pre, n)) {
          var k :| LastHit(axis, body, pre, k) && SnappedBy(axis, body, pre, k, mid);
          assert LastHit(axis, body, rs, k);
          assert NoHitBefore(axis, body, pre, k) <==> NoHitBefore(axis, body, rs, k);
          assert SnappedBy(axis, body, rs, k, Pass(axis, body, rs));
        }
      }
    }
  }

  /** When the last sample of a pass hits, it decides where the box ends. */
  lemma PassHitLast(axis: Axis, body: Body, rs: seq<Rect>)
    requires rs != [] && Hits(axis, body, rs, |rs| - 1)
    requires var pre := rs[..|rs| - 1]; var mid := Pass(axis, body, pre);
      (mid == body && NoHitBefore(axis, body, pre, |pre|)) || Comp(mid.vel, axis) == 0.0
    requires forall j :: 0 <= j < |rs| - 1 ==> (Hits(axis, body, rs, j) <==> Hits(axis, body, rs[..|rs| - 1], j))
    ensures var out := Pass(axis, body, rs);
      Comp(out.vel, axis) == 0.0 && LastHit(axis, body, rs, |rs| - 1) && SnappedBy(axis, body, rs, |rs| - 1, out)
  {
    var n := |rs| - 1;
    var pre := rs[..n];
    PassOnlyOwnAxis(axis, body, pre);
    PassVelocity(axis, body, pre);
    var mid := Pass(axis, body, pre);
    assert Extent(mid.bounds, axis) == Extent(body.bounds, axis);
    if NoHitBefore(axis, body, rs, n) {
      forall j | 0 <= j < n
        ensures !Hits(axis, body, pre, j)
      {
        assert !Hits(axis, body, rs, j);
      }
      PassNoHit(axis, body, pre);
    }
  }

  /** The last sample that hits fixes where the pass leaves the box and stops it. */
  lemma LastHitPlaces(axis: Axis, body: Body, rs: seq<Rect>, k: int)
    requires LastHit(axis, body, rs, k)
    ensures var out := Pass(axis, body, rs);
      Comp(out.vel, axis) == 0.0 &&
      Pos(out.bounds, axis) ==
        if Comp(body.vel, axis) < 0.0 && NoHitBefore(axis, body, rs, k) then FarSnap(axis, rs[k])
        else NearSnap(axis, body, rs[k])
  {
    PassSnaps(axis, body, rs);
    assert !NoHitBefore(axis, body, rs, |rs|);
    var k' :| LastHit(axis, body, rs, k') && SnappedBy(axis, body, rs, k', Pass(axis, body, rs));
    assert k' == k;
  }

  /** Once its axis's velocity is 0, a pass leaves the box alone or snaps it before the near edge of the last sample that hit. */
  lemma PassStoppedSnapsNear(axis: Axis, body: Body, rs: seq<Rect>)
    requires Comp(body.vel, axis) == 0.0
    ensures var out := Pass(axis, body, rs);
      out == body || exists k :: LastHit(axis, body, rs, k) && Pos(out.bounds, axis) == NearSnap(axis, body, rs[k])
  {
    PassSnaps(axis, body, rs);
  }

  /** The outcome of `TryMove`: the box, the velocity and the four sample rectangles. */
  datatype Motion = Motion(bounds: Rect, vel: Vec, rects: seq<Rect>)

  /** The box after the vertical pass, the first half of `Moved`. */
  function VerticalPass(b: Rect, v: Vec, rs: seq<Rect>, tiles: array2<bool>): Body
    reads tiles
  {
    var b1 := Advance(Vertical, b, v);
    Pass(Vertical, Body(b1, v), Fetched(b1, rs, tiles))
  }

  /** Collision resolution: the whole vertical pass first, then the horizontal pass from where it left the box. */
  function Moved(b: Rect, v: Vec, rs: seq<Rect>, tiles: array2<bool>): Motion
    reads tiles
  {
    var rs1 := Fetched(Advance(Vertical, b, v), rs, tiles);
    var afterY := VerticalPass(b, v, rs, tiles);
    var b2 := Advance(Horizontal, afterY.bounds, afterY.vel);
    var rs2 := Fetched(b2, rs1, tiles);
    var afterX := Pass(Horizontal, Body(b2, afterY.vel), rs2);
    Motion(afterX.bounds, afterX.vel, rs2)
  }

  /** Collision resolution never changes the size of the box. */
  lemma MovedKeepsSize(b: Rect, v: Vec, rs: seq<Rect>, tiles: array2<bool>)
    ensures Moved(b, v, rs, tiles).bounds.width == b.width && Moved(b, v, rs, tiles).bounds.height == b.height
  {
    var b1 := Advance(Vertical, b, v);
    PassOnlyOwnAxis(Vertical, Body(b1, v), Fetched(b1, rs, tiles));
    var afterY := VerticalPass(b, v, rs, tiles);
    var b2 := Advance(Horizontal, afterY.bounds, afterY.vel);
    PassOnlyOwnAxis(Horizontal, Body(b2, afterY.vel), Fetched(b2, Fetched(b1, rs, tiles), tiles));
  }

  /**
   * The vertical outcome: the final `y` and `vel.y` are those the vertical pass
   * left (the horizontal pass does not touch them); with no overlap the box
   * advances by exactly `vel.y` and keeps it, and with an overlap `vel.y` is 0.
   */
  lemma MovedVertical(b: Rect, v: Vec, rs: seq<Rect>, tiles: array2<bool>)
    ensures var m, afterY := Moved(b, v, rs, tiles), VerticalPass(b, v, rs, tiles);
      m.bounds.y == afterY.bounds.y && m.vel.y == afterY.vel.y
    ensures var b1 := Advance(Vertical, b, v); var rs1 := Fetched(b1, rs, tiles); var m := Moved(b, v, rs, tiles);
      ((forall k :: 0 <= k < |rs1| ==> !Overlaps(b1, rs1[k])) ==> m.bounds.y == b.y + v.y && m.vel.y == v.y) &&
      ((exists k :: 0 <= k < |rs1| && Overlaps(b1, rs1[k])) ==> m.vel.y == 0.0)
  {
    var b1 := Advance(Vertical, b, v);
    var rs1 := Fetched(b1, rs, tiles);
    var afterY := VerticalPass(b, v, rs, tiles);
    var b2 := Advance(Horizontal, afterY.bounds, afterY.vel);
    PassOnlyOwnAxis(Horizontal, Body(b2, afterY.vel), Fetched(b2, rs1, tiles));
    if forall k :: 0 <= k < |rs1| ==> !Overlaps(b1, rs1[k]) {
      PassFree(Vertical, Body(b1, v), rs1);
    }
    if exists k :: 0 <= k < |rs1| && Overlaps(b1, rs1[k]) {
      var k :| 0 <= k < |rs1| && Overlaps(b1, rs1[k]);
      PassStops(Vertical, Body(b1, v), rs1, k);
    }
  }

  /**
   * The horizontal outcome: the vertical pass leaves `x` and `vel.x` as they
   * were, the box then advances by `vel.x` from where the vertical pass left
   * it; with no overlap there it keeps that position and `vel.x`, and with an
   * overlap `vel.x` is 0.
   */
  lemma MovedHorizontal(b: Rect, v: Vec, rs: seq<Rect>, tiles: array2<bool>)
    ensures var afterY := VerticalPass(b, v, rs, tiles);
      afterY.bounds.x == b.x && afterY.vel.x == v.x
    ensures var afterY := VerticalPass(b, v, rs, tiles);
      var b2 := afterY.bounds.(x := b.x + v.x);
      var rs2 := Fetched(b2, Fetched(Advance(Vertical, b, v), rs, tiles), tiles);
      var m := Moved(b, v, rs, tiles);
      ((forall k :: 0 <= k < |rs2| ==> !Overlaps(b2, rs2[k])) ==> m.bounds == b2 && m.vel.x == v.x) &&
      ((exists k :: 0 <= k < |rs2| && Overlaps(b2, rs2[k])) ==> m.vel.x == 0.0)
  {
    var b1 := Advance(Vertical, b, v);
    var rs1 := Fetched(b1, rs, tiles);
    PassOnlyOwnAxis(Vertical, Body(b1, v), rs1);
    var afterY := VerticalPass(b, v, rs, tiles);
    var b2 := afterY.bounds.(x := b.x + v.x);
    assert b2 == Advance(Horizontal, afterY.bounds, afterY.vel);
    var rs2 := Fetched(b2, rs1, tiles);
    if forall k :: 0 <= k < |rs2| ==> !Overlaps(b2, rs2[k]) {
      PassFree(Horizontal, Body(b2, afterY.vel), rs2);
    }
    if exists k :: 0 <= k < |rs2| && Overlaps(b2, rs2[k]) {
      var k :| 0 <= k < |rs2| && Overlaps(b2, rs2[k]);
      PassStops(Horizontal, Body(b2, afterY.vel), rs2, k);
    }
  }

  /** Collision resolution keeps each velocity component or zeroes it. */
  lemma MovedVelocity(b: Rect, v: Vec, rs: seq<Rect>, tiles: array2<bool>)
    ensures var m := Moved(b, v, rs, tiles);
      (m.vel.x == v.x || m.vel.x == 0.0) && (m.vel.y == v.y || m.vel.y == 0.0)
  {
    var b1 := Advance(Vertical, b, v);
    var rs1 := Fetched(b1, rs, tiles);
    PassOnlyOwnAxis(Vertical, Body(b1, v), rs1);
    PassVelocity(Vertical, Body(b1, v), rs1);
    var afterY := VerticalPass(b, v, rs, tiles);
    var b2 := Advance(Horizontal, afterY.bounds, afterY.vel);
    var rs2 := Fetched(b2, rs1, tiles);
    PassOnlyOwnAxis(Horizontal, Body(b2, afterY.vel), rs2);
    PassVelocity(Horizontal, Body(b2, afterY.vel), rs2);
  }

  // ---------------------------------------------------------------------------
  // Velocity integration

  /** The clamp of one velocity component to the interval [-m, m]. */
  function Clamp(c: real, m: real): (r: real)
    requires 0.0 <= m
    ensures -m <= r <= m
    ensures -m <= c <= m ==> r == c
    ensures c < -m ==> r == -m
    ensures m < c ==> r == m
  {
    if c > m then m else if c < -m then -m else c
  }

  /** Damping toward zero at rate `10 * fs` when walking, plain scaling by `fs` otherwise. */
  function Damped(v: Vec, state: EntityState, fs: real): Vec
  {
    if state == Walking then Scale(v, 1.0 - 10.0 * fs) else Scale(v, fs)
  }

  /** The velocity `Update` leaves once collision resolution produced `v`. */
  function Integrated(v: Vec, a: Vec, state: EntityState, fs: real): Vec
  {
    var m := GetMaxVelocity();
    Damped(Vec(Clamp(v.x + a.x, m), Clamp(v.y + a.y, m)), state, fs)
  }

  /** A step length under which the damping factor of `state` lies in [-1, 1]. */
  predicate DampingStep(state: EntityState, fs: real)
  {
    if state == Walking then 0.0 <= fs <= 0.2 else 0.0 <= fs <= 1.0
  }

  lemma ScaleShrinks(c: real, k: real)
    requires -1.0 <= k <= 1.0
    ensures Abs(c * k) <= Abs(c)
  {
    if 0.0 <= c {
      if 0.0 <= k { assert c * k <= c * 1.0; } else { assert c * (-k) <= c * 1.0; }
    } else {
      if 0.0 <= k { assert (-c) * k <= (-c) * 1.0; } else { assert (-c) * (-k) <= (-c) * 1.0; }
    }
  }

  lemma DampingShrinks(v: Vec, state: EntityState, fs: real)
    requires DampingStep(state, fs)
    ensures var w := Damped(v, state, fs); Abs(w.x) <= Abs(v.x) && Abs(w.y) <= Abs(v.y)
  {
    var k := if state == Walking then 1.0 - 10.0 * fs else fs;
    ScaleShrinks(v.x, k);
    ScaleShrinks(v.y, k);
  }

  /** With a step length the damping tolerates, `Update` leaves each velocity component within [-VEL_MAX, VEL_MAX]. */
  lemma IntegratedBounded(v: Vec, a: Vec, state: EntityState, fs: real)
    requires DampingStep(state, fs)
    ensures var w := Integrated(v, a, state, fs); Abs(w.x) <= VEL_MAX && Abs(w.y) <= VEL_MAX
  {
    var m := GetMaxVelocity();
    DampingShrinks(Vec(Clamp(v.x + a.x, m), Clamp(v.y + a.y, m)), state, fs);
  }

  /** The idle test: both velocity components strictly inside (-MIN_WALK_VELOCITY, MIN_WALK_VELOCITY). */
  predicate AtRest(v: Vec)
  {
    -MIN_WALK_VELOCITY < v.x < MIN_WALK_VELOCITY && -MIN_WALK_VELOCITY < v.y < MIN_WALK_VELOCITY
  }

  /** An entity at rest with no acceleration is still at rest after a step of a tolerated length, whatever it bumps into. */
  lemma RestPersists(b: Rect, v: Vec, rs: seq<Rect>, tiles: array2<bool>, state: EntityState, fs: real)
    requires AtRest(v) && DampingStep(state, fs)
    ensures AtRest(Integrated(Moved(b, v, rs, tiles).vel, ZERO, state, fs))
  {
    var w := Moved(b, v, rs, tiles).vel;
    MovedVelocity(b, v, rs, tiles);
    var m := GetMaxVelocity();
    var c := Vec(Clamp(w.x + 0.0, m), Clamp(w.y + 0.0, m));
    assert AtRest(c);
    DampingShrinks(c, state, fs);
  }

  /**
   * Collision resolution does not keep a box clear of the tiles: on a grid whose
   * only collidable tiles are (0, 2) and (2, 2), a box clear of both is snapped
   * by the horizontal pass against (0, 2) into (2, 2), which that pass did not sample.
   */
  lemma SnapCanEnterTile(tiles: array2<bool>, stale: seq<Rect>)
    requires tiles.Length0 == 5 && tiles.Length1 == 5
    requires forall x, y :: 0 <= x < 5 && 0 <= y < 5 ==> (tiles[x, y] <==> (x == 0 || x == 2) && y == 2)
    ensures var b, v := Rect(1.0, 2.96, 1.0, 0.9), Vec(-0.03, 0.02);
      var m := Moved(b, v, stale, tiles);
      (forall x, y :: 0 <= x < 5 && 0 <= y < 5 && tiles[x, y] ==> !Overlaps(b, Rect(x as real, y as real, 1.0, 1.0))) &&
      m.bounds == Rect(1.01, 2.98, 1.0, 0.9) && tiles[2, 2] && Overlaps(m.bounds, Rect(2.0, 2.0, 1.0, 1.0)) &&
      forall k :: 0 <= k < |m.rects| ==> m.rects[k] != Rect(2.0, 2.0, 1.0, 1.0)
  {
    var b, v := Rect(1.0, 2.96, 1.0, 0.9), Vec(-0.03, 0.02);
    var b1 := Advance(Vertical, b, v);
    assert b1 == Rect(1.0, 2.98, 1.0, 0.9);
    assert (2.98 as real).Floor == 2 && (3.88 as real).Floor == 3;
    assert Corners(b1) == [Cell(1, 2), Cell(2, 2), Cell(2, 3), Cell(1, 3)];
    var rs1 := Fetched(b1, stale, tiles);
    assert rs1 == [NO_RECT, Rect(2.0, 2.0, 1.0, 1.0), NO_RECT, NO_RECT];
    PassFree(Vertical, Body(b1, v), rs1);
    var b2 := Rect(0.97, 2.98, 1.0, 0.9);
    assert Advance(Horizontal, b1, v) == b2;
    assert (0.97 as real).Floor == 0 && (1.97 as real).Floor == 1;
    assert Corners(b2) == [Cell(0, 2), Cell(1, 2), Cell(1, 3), Cell(0, 3)];
    var rs2 := Fetched(b2, rs1, tiles);
    assert rs2 == [Rect(0.0, 2.0, 1.0, 1.0), NO_RECT, NO_RECT, NO_RECT];
    var h := Hit(Horizontal, Body(b2, v), rs2[0]);
    assert h == Body(Rect(1.01, 2.98, 1.0, 0.9), Vec(0.0, 0.02));
    assert !Overlaps(h.bounds, NO_RECT);
    assert rs2[..1] == [rs2[0]] && rs2[..2][..1] == rs2[..1] && rs2[..3][..2] == rs2[..2] && rs2[..4] == rs2;
    assert Pass(Horizontal, Body(b2, v), rs2[..1]) == h;
    assert Pass(Horizontal, Body(b2, v), rs2[..2]) == h;
    assert Pass(Horizontal, Body(b2, v), rs2[..3]) == h;
  }

  /**
   * A step of length 0 is not a no-op on any grid: when neither pass meets an
   * overlapping sample, the box still moves by its whole velocity, and an idle
   * entity then loses that velocity whatever its acceleration.
   */
  lemma ZeroStepMoves(b: Rect, v: Vec, rs: seq<Rect>, tiles: array2<bool>, a: Vec)
    requires var b1 := b.(y := b.y + v.y); var rs1 := Fetched(b1, rs, tiles);
      var b2 := b1.(x := b.x + v.x); var rs2 := Fetched(b2, rs1, tiles);
      (forall k :: 0 <= k < |rs1| ==> !Overlaps(b1, rs1[k])) && (forall k :: 0 <= k < |rs2| ==> !Overlaps(b2, rs2[k]))
    ensures var m := Moved(b, v, rs, tiles);
      m.bounds == Rect(b.x + v.x, b.y + v.y, b.width, b.height) && m.vel == v && Integrated(m.vel, a, Idle, 0.0) == ZERO
  {
    var b1 := b.(y := b.y + v.y);
    assert b1 == Advance(Vertical, b, v);
    PassFree(Vertical, Body(b1, v), Fetched(b1, rs, tiles));
    MovedVertical(b, v, rs, tiles);
    MovedHorizontal(b, v, rs, tiles);
  }

  /**
   * A step of length 0 is not a no-op: an idle entity loses its velocity, and
   * the box still moves by the velocity it had.
   */
  lemma ZeroStepStillMoves(tiles: array2<bool>)
    requires tiles.Length0 == 0
    ensures var b, v := Rect(5.0, 5.0, 1.0, 1.0), Vec(0.03, 0.0);
      var stale := [NO_RECT, NO_RECT, NO_RECT, NO_RECT];
      Moved(b, v, stale, tiles) == Motion(Rect(5.03, 5.0, 1.0, 1.0), v, stale) &&
      Integrated(v, ZERO, Idle, 0.0) == ZERO
  {
    var b, v := Rect(5.0, 5.0, 1.0, 1.0), Vec(0.03, 0.0);
    var stale := [NO_RECT, NO_RECT, NO_RECT, NO_RECT];
    assert !InGrid(Corners(b)[0], tiles);
    assert !InGrid(Corners(Advance(Horizontal, b, v))[0], tiles);
    PassFree(Vertical, Body(b, v), stale);
    PassFree(Horizontal, Body(Rect(5.03, 5.0, 1.0, 1.0), v), stale);
  }

  // ---------------------------------------------------------------------------
  // The actor

  class Entity {
    var state: EntityState
    var direction: Direction
    var accel: Vec
    var vel: Vec
    var stateTime: real
    const width: real
    const height: real
    var bounds: Rect
    /** The four sample rectangles, overwritten by each successful lookup. */
    const r: array<Rect>
    /** The level's tile grid: `tiles[x, y]` holds whether that tile is collidable. */
    const tiles: array2<bool>

    ghost predicate Valid()
    {
      r.Length == 4
    }

    function IntentOf(): Intent
      reads this
    {
      Intent(accel, direction, state)
    }

    constructor (x: real, y: real, width: real, height: real, tiles: array2<bool>)
      ensures Valid() && fresh(r) && this.tiles == tiles
      ensures bounds == Rect(x, y, width, height) && this.width == width && this.height == height
      ensures state == Idle && direction == Down && accel == ZERO && vel == ZERO && stateTime == 0.0
      ensures r[..] == [ZERO_RECT, ZERO_RECT, ZERO_RECT, ZERO_RECT]
    {
      this.tiles := tiles;
      this.width := width;
      this.height := height;
      bounds := Rect(x, y, width, height);
      state := Idle;
      direction := Down;
      accel := ZERO;
      vel := ZERO;
      stateTime := 0.0;
      r := new Rect[4](_ => ZERO_RECT);
    }

    /** Records the intent to move: one axis of the acceleration, the facing and the walking state. */
    method MoveWithAccel(dir: Direction)
      modifies this`accel, this`direction, this`state
      ensures IntentOf() == Steered(old(IntentOf()), dir)
    {
      if dir == Up {
        accel := accel.(y := ACCEL_MAX);
      } else if dir == Down {
        accel := accel.(y := -ACCEL_MAX);
      } else if dir == Left {
        accel := accel.(x := -ACCEL_MAX);
      } else if dir == Right {
        accel := accel.(x := ACCEL_MAX);
      }
      direction := dir;
      state := Walking;
    }

    /** Samples the four corner tiles of the box into `r`; off the grid, `r` is left as it was. */
    method FetchCollidableRects()
      requires Valid()
      modifies r
      ensures r[..] == Fetched(bounds, old(r[..]), tiles)
    {
      var p1x := Trunc(bounds.x);
      var p1y := bounds.y.Floor;
      var p2x := Trunc(bounds.x + bounds.width);
      var p2y := bounds.y.Floor;
      var p3x := Trunc(bounds.x + bounds.width);
      var p3y := Trunc(bounds.y + bounds.height);
      var p4x := Trunc(bounds.x);
      var p4y := Trunc(bounds.y + bounds.height);
      ghost var cs := Corners(bounds);
      assert cs == [Cell(p1x, p1y), Cell(p2x, p2y), Cell(p3x, p3y), Cell(p4x, p4y)];
      if InGrid(Cell(p1x, p1y), tiles) && InGrid(Cell(p2x, p2y), tiles)
        && InGrid(Cell(p3x, p3y), tiles) && InGrid(Cell(p4x, p4y), tiles)
      {
        r[0] := if tiles[p1x, p1y] then Rect(p1x as real, p1y as real, 1.0, 1.0) else NO_RECT;
        r[1] := if tiles[p2x, p2y] then Rect(p2x as real, p2y as real, 1.0, 1.0) else NO_RECT;
        r[2] := if tiles[p3x, p3y] then Rect(p3x as real, p3y as real, 1.0, 1.0) else NO_RECT;
        r[3] := if tiles[p4x, p4y] then Rect(p4x as real, p4y as real, 1.0, 1.0) else NO_RECT;
      } else if !InGrid(Cell(p1x, p1y), tiles) {
        assert !InGrid(cs[0], tiles);
      } else if !InGrid(Cell(p2x, p2y), tiles) {
        assert !InGrid(cs[1], tiles);
      } else if !InGrid(Cell(p3x, p3y), tiles) {
        assert !InGrid(cs[2], tiles);
      } else {
        assert !InGrid(cs[3], tiles);
      }
    }

    /** Moves the box by its velocity, resolving collisions vertically first, then horizontally. */
    method TryMove()
      requires Valid()
      modifies this`bounds, this`vel, r
      ensures Motion(bounds, vel, r[..]) == Moved(old(bounds), old(vel), old(r[..]), tiles)
    {
      bounds := bounds.(y := bounds.y + vel.y);
      FetchCollidableRects();
      ghost var ys := r[..];
      ghost var beforeY := Body(bounds, vel);
      for i := 0 to r.Length
        invariant r[..] == ys
        invariant Body(bounds, vel) == Pass(Vertical, beforeY, ys[..i])
      {
        var rect := r[i];
        assert ys[..i + 1][..i] == ys[..i];
        if Overlaps(bounds, rect) {
          if vel.y < 0.0 {
            bounds := bounds.(y := rect.y + rect.height + SNAP_GAP);
          } else {
            bounds := bounds.(y := rect.y - bounds.height - SNAP_GAP);
          }
          vel := vel.(y := 0.0);
        }
      }
      assert ys[..4] == ys;

      bounds := bounds.(x := bounds.x + vel.x);
      FetchCollidableRects();
      ghost var xs := r[..];
      ghost var beforeX := Body(bounds, vel);
      for i := 0 to r.Length
        invariant r[..] == xs
        invariant Body(bounds, vel) == Pass(Horizontal, beforeX, xs[..i])
      {
        var rect := r[i];
        assert xs[..i + 1][..i] == xs[..i];
        if Overlaps(bounds, rect) {
          if vel.x < 0.0 {
            bounds := bounds.(x := rect.x + rect.width + SNAP_GAP);
          } else {
            bounds := bounds.(x := rect.x - bounds.width - SNAP_GAP);
          }
          vel := vel.(x := 0.0);
        }
      }
      assert xs[..4] == xs;
    }

    /** One simulation step: collision resolution, then integration of acceleration into velocity. */
    method Update(fixedStep: real)
      requires Valid()
      modifies this`bounds, this`vel, this`accel, this`stateTime, r
      ensures var m := Moved(old(bounds), old(vel), old(r[..]), tiles);
        bounds == m.bounds && r[..] == m.rects && vel == Integrated(m.vel, old(accel), state, fixedStep)
      ensures accel == Scale(old(accel), fixedStep) && stateTime == old(stateTime) + fixedStep
    {
      TryMove();
      Integrate(fixedStep);
      stateTime := stateTime + fixedStep;
    }

    /** The integration half of `Update`: add, clamp each axis, scale the acceleration, then damp or scale the velocity. */
    method Integrate(fixedStep: real)
      modifies this`vel, this`accel
      ensures vel == Integrated(old(vel), old(accel), state, fixedStep)
      ensures accel == Scale(old(accel), fixedStep)
    {
      vel := Vec(vel.x + accel.x, vel.y + accel.y);
      if vel.x > GetMaxVelocity() {
        vel := vel.(x := GetMaxVelocity());
      }
      if vel.x < -GetMaxVelocity() {
        vel := vel.(x := -GetMaxVelocity());
      }
      if vel.y > GetMaxVelocity() {
        vel := vel.(y := GetMaxVelocity());
      }
      if vel.y < -GetMaxVelocity() {
        vel := vel.(y := -GetMaxVelocity());
      }
      ghost var clamped := vel;
      assert clamped == Vec(Clamp(old(vel).x + old(accel).x, VEL_MAX), Clamp(old(vel).y + old(accel).y, VEL_MAX));
      accel := Scale(accel, fixedStep);

      if state == Walking {
        vel := Scale(vel, 1.0 - 10.0 * fixedStep);
      } else {
        vel := Scale(vel, fixedStep);
      }
    }

    /** The idle test; it also puts an entity that passes it into the idle state. */
    method IsNotWalking() returns (still: bool)
      modifies this`state
      ensures still == AtRest(vel)
      ensures state == if still then Idle else old(state)
    {
      if vel.x > -MIN_WALK_VELOCITY && vel.x < MIN_WALK_VELOCITY
        && vel.y > -MIN_WALK_VELOCITY && vel.y < MIN_WALK_VELOCITY
      {
        state := Idle;
        return true;
      }
      return false;
    }
  }
}
