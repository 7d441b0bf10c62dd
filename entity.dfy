/**
 * `Entity` of entity.py: an integer rectangle moved one axis at a time
 * against a list of tiles. Along X the rectangle is snapped out of every
 * tile it overlaps after the step (the last one in list order decides),
 * then the same is done along Y from the X-corrected rectangle.
 *
 * The world's collision-mesh query becomes the `tiles` parameter, and the
 * conversion of `vel * dt` to whole pixels becomes the `stepX`/`stepY` parameters.
 */
module Entities {
  import opened Bezier
  import opened CameraModel

  /** A `pygame.Rect`: top-left corner and size. */
  datatype Rect = Rect(x: int, y: int, w: int, h: int) {
    function Right(): int { x + w }
    function Bottom(): int { y + h }
  }

  /** `colliderect`: the open intervals overlap on both axes (touching edges do not collide). */
  predicate Collides(a: Rect, b: Rect) {
    a.x < b.Right() && b.x < a.Right() && a.y < b.Bottom() && b.y < a.Bottom()
  }

  /** Overlap does not depend on which rectangle asks. */
  lemma CollidesSymmetric(a: Rect, b: Rect)
    ensures Collides(a, b) <==> Collides(b, a)
  {
  }

  /**
   * Rectangles that only touch along an edge do not collide: in particular a
   * rectangle snapped against a tile's facing edge no longer overlaps it.
   */
  lemma TouchingEdgesDoNotCollide(a: Rect, b: Rect)
    requires a.Right() == b.x || b.Right() == a.x || a.Bottom() == b.y || b.Bottom() == a.y
    ensures !Collides(a, b)
  {
  }

  /** `[tile for tile in tiles if rect.colliderect(tile)]`, in list order. */
  function Colliding(tiles: seq<Rect>, r: Rect): (hits: seq<Rect>)
    ensures |hits| <= |tiles|
    ensures forall t :: t in hits <==> t in tiles && Collides(r, t)
  {
    if tiles == [] then []
    else
      var rest := Colliding(tiles[..|tiles| - 1], r);
      var last := tiles[|tiles| - 1];
      assert tiles == tiles[..|tiles| - 1] + [last];
      if Collides(r, last) then rest + [last] else rest
  }

  /**
   * The last overlapping tile is the last tile in list order that overlaps:
   * none after it does.
   */
  lemma {:induction false} LastHitIsLastColliding(tiles: seq<Rect>, r: Rect)
    requires Colliding(tiles, r) != []
    ensures exists i :: 0 <= i < |tiles| && tiles[i] == Colliding(tiles, r)[|Colliding(tiles, r)| - 1]
                        && forall j :: i < j < |tiles| ==> !Collides(r, tiles[j])
  {
    var last := tiles[|tiles| - 1];
    if !Collides(r, last) {
      var init := tiles[..|tiles| - 1];
      LastHitIsLastColliding(init, r);
      var i :| 0 <= i < |init| && init[i] == Colliding(init, r)[|Colliding(init, r)| - 1]
               && forall j :: i < j < |init| ==> !Collides(r, init[j]);
      assert tiles[i] == init[i];
      assert forall j :: i < j < |tiles| ==> !Collides(r, tiles[j]) by {
        forall j | i < j < |tiles| ensures !Collides(r, tiles[j]) {
          if j < |init| { assert tiles[j] == init[j]; }
        }
      }
    } else {
      assert tiles[|tiles| - 1] == Colliding(tiles, r)[|Colliding(tiles, r)| - 1];
    }
  }

  /** The four flags `move` reports. */
  datatype Directions = Directions(up: bool, down: bool, left: bool, right: bool)

  /**
   * Where the X pass leaves the rectangle's left edge, given the tiles it
   * overlaps: moving right, against the left edge of the last one; moving
   * left, against its right edge; not moving, or nothing hit, where it is.
   */
  function SnappedX(r: Rect, hits: seq<Rect>, vx: real): int {
    if hits == [] || vx == 0.0 then r.x
    else if vx > 0.0 then hits[|hits| - 1].x - r.w
    else hits[|hits| - 1].Right()
  }

  /** The same along Y: moving down, against the top of the last hit; moving up, against its bottom. */
  function SnappedY(r: Rect, hits: seq<Rect>, vy: real): int {
    if hits == [] || vy == 0.0 then r.y
    else if vy > 0.0 then hits[|hits| - 1].y - r.h
    else hits[|hits| - 1].Bottom()
  }

  /**
   * The X loop of `move`: `r` has already been stepped; the overlap list is
   * taken once, then each tile in it snaps the rectangle and sets a flag.
   */
  method ResolveX(r: Rect, tiles: seq<Rect>, vx: real) returns (s: Rect, left: bool, right: bool)
    ensures s == r.(x := SnappedX(r, Colliding(tiles, r), vx))
    ensures left <==> vx < 0.0 && Colliding(tiles, r) != []
    ensures right <==> vx > 0.0 && Colliding(tiles, r) != []
  {
    var hits := Colliding(tiles, r);
    s, left, right := r, false, false;
    for i := 0 to |hits|
      invariant s == r.(x := SnappedX(r, hits[..i], vx))
      invariant left <==> vx < 0.0 && i > 0
      invariant right <==> vx > 0.0 && i > 0
    {
      var tile := hits[i];
      assert hits[..i + 1][i] == tile;
      if vx > 0.0 {
        s := s.(x := tile.x - r.w);
        right := true;
      } else if vx < 0.0 {
        s := s.(x := tile.Right());
        left := true;
      }
    }
    assert hits[..|hits|] == hits;
  }

  /** The Y loop of `move`, on the X-corrected rectangle after its Y step. */
  method ResolveY(r: Rect, tiles: seq<Rect>, vy: real) returns (s: Rect, up: bool, down: bool)
    ensures s == r.(y := SnappedY(r, Colliding(tiles, r), vy))
    ensures up <==> vy < 0.0 && Colliding(tiles, r) != []
    ensures down <==> vy > 0.0 && Colliding(tiles, r) != []
  {
    var hits := Colliding(tiles, r);
    s, up, down := r, false, false;
    for i := 0 to |hits|
      invariant s == r.(y := SnappedY(r, hits[..i], vy))
      invariant up <==> vy < 0.0 && i > 0
      invariant down <==> vy > 0.0 && i > 0
    {
      var tile := hits[i];
      assert hits[..i + 1][i] == tile;
      if vy > 0.0 {
        s := s.(y := tile.y - r.h);
        down := true;
      } else if vy < 0.0 {
        s := s.(y := tile.Bottom());
        up := true;
      }
    }
    assert hits[..|hits|] == hits;
  }

  /** Final rectangle and flags of one `move`. */
  datatype Outcome = Outcome(rect: Rect, dirs: Directions)

  /** The rectangle after the X step (before any snapping). */
  function SteppedX(r: Rect, stepX: int): Rect {
    r.(x := r.x + stepX)
  }

  /** The rectangle after the X pass. */
  function PassX(r: Rect, tiles: seq<Rect>, stepX: int, vx: real): Rect {
    var rx := SteppedX(r, stepX);
    rx.(x := SnappedX(rx, Colliding(tiles, rx), vx))
  }

  /** The rectangle after the X pass and the Y step (before any Y snapping). */
  function SteppedY(r: Rect, tiles: seq<Rect>, stepX: int, stepY: int, vx: real): Rect {
    var ax := PassX(r, tiles, stepX, vx);
    ax.(y := ax.y + stepY)
  }

  /** What `move` computes: the X pass, then the Y pass from where the X pass left the rectangle. */
  function Resolve(r: Rect, tiles: seq<Rect>, stepX: int, stepY: int, vx: real, vy: real): (o: Outcome)
    ensures o.rect.w == r.w && o.rect.h == r.h
    ensures o.rect.x == PassX(r, tiles, stepX, vx).x
  {
    var rx := SteppedX(r, stepX);
    var hx := Colliding(tiles, rx);
    var ry := SteppedY(r, tiles, stepX, stepY, vx);
    var hy := Colliding(tiles, ry);
    Outcome(ry.(y := SnappedY(ry, hy, vy)),
            Directions(up := vy < 0.0 && hy != [], down := vy > 0.0 && hy != [],
                       left := vx < 0.0 && hx != [], right := vx > 0.0 && hx != []))
  }

  /** The X pass sets only `left`/`right`, exactly when moving along X into a tile; the Y pass only `up`/`down`. */
  lemma FlagsPerAxis(r: Rect, tiles: seq<Rect>, stepX: int, stepY: int, vx: real, vy: real)
    ensures var d := Resolve(r, tiles, stepX, stepY, vx, vy).dirs;
            && (d.left || d.right <==> vx != 0.0 && exists t :: t in tiles && Collides(SteppedX(r, stepX), t))
            && (d.up || d.down <==> vy != 0.0 && exists t :: t in tiles && Collides(SteppedY(r, tiles, stepX, stepY, vx), t))
            && !(d.left && d.right) && !(d.up && d.down)
  {
    var hx := Colliding(tiles, SteppedX(r, stepX));
    if hx != [] {
      assert hx[0] in hx;
    }
    var hy := Colliding(tiles, SteppedY(r, tiles, stepX, stepY, vx));
    if hy != [] {
      assert hy[0] in hy;
    }
  }

  /** With no tile overlapping after either step, the rectangle is just translated and no flag is set. */
  lemma NoOverlapTranslates(r: Rect, tiles: seq<Rect>, stepX: int, stepY: int, vx: real, vy: real)
    requires forall t :: t in tiles ==> !Collides(r.(x := r.x + stepX), t)
    requires forall t :: t in tiles ==> !Collides(r.(x := r.x + stepX, y := r.y + stepY), t)
    ensures Resolve(r, tiles, stepX, stepY, vx, vy)
            == Outcome(r.(x := r.x + stepX, y := r.y + stepY), Directions(false, false, false, false))
  {
    NothingHit(tiles, SteppedX(r, stepX));
    NothingHit(tiles, SteppedY(r, tiles, stepX, stepY, vx));
  }

  /** No tile overlaps, so the overlap list is empty. */
  lemma {:induction false} NothingHit(tiles: seq<Rect>, r: Rect)
    requires forall t :: t in tiles ==> !Collides(r, t)
    ensures Colliding(tiles, r) == []
  {
    if tiles != [] {
      var init := tiles[..|tiles| - 1];
      assert forall t :: t in init ==> t in tiles;
      assert tiles[|tiles| - 1] in tiles;
      NothingHit(init, r);
    }
  }

  /** Not moving along an axis means that axis only takes its step, overlaps or not, and sets no flag there. */
  lemma StillAxisNeverSnaps(r: Rect, tiles: seq<Rect>, stepX: int, stepY: int, vx: real, vy: real)
    ensures var o := Resolve(r, tiles, stepX, stepY, vx, vy);
            && (vx == 0.0 ==> o.rect.x == r.x + stepX && !o.dirs.left && !o.dirs.right)
            && (vy == 0.0 ==> o.rect.y == PassX(r, tiles, stepX, vx).y + stepY && !o.dirs.up && !o.dirs.down)
  {
  }

  /**
   * Moving right into tiles, the rectangle ends with its right edge on the
   * left edge of the last tile it overlapped, and so no longer overlaps it;
   * moving left, its left edge ends on that tile's right edge.
   */
  lemma {:induction false} SnapClearsLastTile(r: Rect, tiles: seq<Rect>, stepX: int, vx: real)
    requires Colliding(tiles, SteppedX(r, stepX)) != []
    ensures var hits := Colliding(tiles, SteppedX(r, stepX));
            var last := hits[|hits| - 1];
            var a := PassX(r, tiles, stepX, vx);
            && (vx > 0.0 ==> a.Right() == last.x && !Collides(a, last))
            && (vx < 0.0 ==> a.x == last.Right() && !Collides(a, last))
            && (exists i :: 0 <= i < |tiles| && tiles[i] == last
                 && forall j :: i < j < |tiles| ==> !Collides(SteppedX(r, stepX), tiles[j]))
  {
    LastHitIsLastColliding(tiles, SteppedX(r, stepX));
  }

  /**
   * A rectangle moving right (and not vertically) into one tile stops with its
   * right edge on the tile's left edge, with `right` the only flag set.
   */
  lemma StopsAgainstTile(r: Rect, tile: Rect, stepX: int, stepY: int, vx: real)
    requires vx > 0.0 && Collides(r.(x := r.x + stepX), tile)
    ensures var o := Resolve(r, [tile], stepX, stepY, vx, 0.0);
            o.rect.Right() == tile.x && o.dirs == Directions(false, false, false, true)
  {
    assert Colliding([tile], SteppedX(r, stepX)) == [tile];
  }

  /** The render position `update` submits: `x + w // 2 - img_w`, `y + h // 2 - img_h`. */
  function RenderPos(x: int, y: int, w: int, h: int, imgW: int, imgH: int): (p: Point)
    ensures 2.0 * (p.x + imgW as real) <= (2 * x + w) as real < 2.0 * (p.x + imgW as real) + 2.0
    ensures 2.0 * (p.y + imgH as real) <= (2 * y + h) as real < 2.0 * (p.y + imgH as real) + 2.0
    ensures p.x == p.x.Floor as real && p.y == p.y.Floor as real
  {
    Point((x + w / 2 - imgW) as real, (y + h / 2 - imgH) as real)
  }

  class Entity {
    var x: int
    var y: int
    const w: int
    const h: int
    var rect: Rect
    /** Handle of the entity's image surface. */
    const img: nat
    var velX: real
    var velY: real

    /** The rectangle is where the entity is, with its size. */
    ghost predicate Valid()
      reads this
    {
      rect == Rect(x, y, w, h)
    }

    constructor(x0: int, y0: int, w0: int, h0: int, img0: nat)
      ensures Valid() && x == x0 && y == y0 && w == w0 && h == h0 && img == img0
      ensures velX == 0.0 && velY == 0.0
    {
      x, y, w, h, img := x0, y0, w0, h0, img0;
      rect := Rect(x0, y0, w0, h0);
      velX, velY := 0.0, 0.0;
    }

    /**
     * `move`: the X pass, then the Y pass; `x`, `y` follow the rectangle and the
     * displacement is final minus original position. The velocity is untouched.
     */
    method Move(tiles: seq<Rect>, stepX: int, stepY: int) returns (dirs: Directions, movedX: int, movedY: int)
      requires Valid()
      modifies this
      ensures Valid()
      ensures Resolve(old(rect), tiles, stepX, stepY, velX, velY) == Outcome(rect, dirs)
      ensures movedX == x - old(x) && movedY == y - old(y)
      ensures velX == old(velX) && velY == old(velY)
    {
      var origX, origY := rect.x, rect.y;
      var left, right, up, down;
      rect := rect.(x := rect.x + stepX);
      rect, left, right := ResolveX(rect, tiles, velX);
      rect := rect.(y := rect.y + stepY);
      rect, up, down := ResolveY(rect, tiles, velY);
      y, x := rect.y, rect.x;
      dirs := Directions(up, down, left, right);
      movedX, movedY := x - origX, y - origY;
    }

    /**
     * `update`: move, zero each velocity component whose axis was blocked, and
     * queue the image on the camera.
     */
    method Update(tiles: seq<Rect>, stepX: int, stepY: int, cam: Camera, imgW: int, imgH: int)
      requires Valid()
      modifies this, cam
      ensures Valid()
      ensures var o := Resolve(old(rect), tiles, stepX, stepY, old(velX), old(velY));
              && rect == o.rect
              && velX == (if o.dirs.left || o.dirs.right then 0.0 else old(velX))
              && velY == (if o.dirs.up || o.dirs.down then 0.0 else old(velY))
      ensures cam.State() == old(cam.State()).(batch := old(cam.toBlit) + [Blit(img, RenderPos(x, y, w, h, imgW, imgH))])
    {
      var dirs, _, _ := Move(tiles, stepX, stepY);
      if dirs.down || dirs.up {
        velY := 0.0;
      }
      if dirs.right || dirs.left {
        velX := 0.0;
      }
      cam.Render(img, RenderPos(x, y, w, h, imgW, imgH));
    }
  }
}
