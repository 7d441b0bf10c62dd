/**
 * `Player` of entity.py: per frame, held keys turn the heading, thrust along
 * it or reset the pose; then each velocity component is clamped to the cap,
 * gravity is added, the body moves against the tiles, blocked components are
 * zeroed, and each component decelerates linearly, snapping to rest within 1.
 *
 * `sin`/`cos` of an angle in degrees are the parameters `sinDeg`/`cosDeg`.
 */
module Players {
  import opened Entities

  const VelCap: real := 8.0
  const Speed: real := 2.0
  const RotSpeed: real := 3.0
  const DecelSpeed: real := 1.0
  const AccelSpeed: real := 1.0

  datatype Key = Space | KeyA | KeyD | Return | OtherKey(code: int)
  datatype EventKind = KeyHold | OtherKind(code: int)
  datatype Event = Event(kind: EventKind, key: Key)

  /** What a frame changes: position, rectangle, velocity and heading. */
  datatype Pose = Pose(x: int, y: int, rect: Rect, vx: real, vy: real, fwd: real)

  /** Position and rectangle agree. */
  predicate InSync(p: Pose) {
    p.rect.x == p.x && p.rect.y == p.y
  }

  /** The pose the RETURN key resets to: the origin, at rest, heading 0, same size. */
  function Origin(r: Rect): Pose {
    Pose(0, 0, r.(x := 0, y := 0), 0.0, 0.0, 0.0)
  }

  /**
   * One input event; only held keys act, and keys without a case are ignored.
   * Only a held RETURN moves the body, and it always resets the pose; only
   * thrust or RETURN changes the velocity; only turning or RETURN the heading.
   */
  function ApplyEvent(p: Pose, e: Event, sinDeg: real -> real, cosDeg: real -> real): (r: Pose)
    ensures !e.kind.KeyHold? ==> r == p
    ensures r.rect.w == p.rect.w && r.rect.h == p.rect.h
    ensures (r.x == p.x && r.y == p.y && r.rect == p.rect) || e == Event(KeyHold, Return)
    ensures (r.vx, r.vy) != (p.vx, p.vy) ==> e == Event(KeyHold, Space) || e == Event(KeyHold, Return)
    ensures r.fwd != p.fwd ==> e == Event(KeyHold, KeyA) || e == Event(KeyHold, KeyD) || e == Event(KeyHold, Return)
    ensures e == Event(KeyHold, Return) ==> r == Origin(p.rect)
  {
    if !e.kind.KeyHold? then p
    else match e.key
      case Space =>
        p.(vy := p.vy - Speed * sinDeg(p.fwd) * AccelSpeed,
           vx := p.vx + Speed * cosDeg(p.fwd) * AccelSpeed)
      case KeyA => p.(fwd := p.fwd + RotSpeed)
      case KeyD => p.(fwd := p.fwd - RotSpeed)
      case Return => Origin(p.rect)
      case OtherKey(_) => p
  }

  /** The frame's events in order; the size never changes and position stays in sync with the rectangle. */
  function ApplyEvents(p: Pose, es: seq<Event>, sinDeg: real -> real, cosDeg: real -> real): (r: Pose)
    ensures r.rect.w == p.rect.w && r.rect.h == p.rect.h
    ensures InSync(p) ==> InSync(r)
  {
    if es == [] then p
    else ApplyEvent(ApplyEvents(p, es[..|es| - 1], sinDeg, cosDeg), es[|es| - 1], sinDeg, cosDeg)
  }

  /** Handling two batches of events one after the other is handling them together. */
  lemma {:induction false} ApplyEventsAppend(p: Pose, a: seq<Event>, b: seq<Event>, sinDeg: real -> real, cosDeg: real -> real)
    ensures ApplyEvents(p, a + b, sinDeg, cosDeg) == ApplyEvents(ApplyEvents(p, a, sinDeg, cosDeg), b, sinDeg, cosDeg)
  {
    if b == [] {
      assert a + b == a;
    } else {
      assert (a + b)[..|a + b| - 1] == a + b[..|b| - 1];
      ApplyEventsAppend(p, a, b[..|b| - 1], sinDeg, cosDeg);
    }
  }

  /** The held-key events of a frame, in order. */
  function Held(es: seq<Event>): seq<Event> {
    if es == [] then []
    else Held(es[..|es| - 1]) + (if es[|es| - 1].kind.KeyHold? then [es[|es| - 1]] else [])
  }

  /** Events other than held keys change nothing. */
  lemma {:induction false} OnlyHeldKeysAct(p: Pose, es: seq<Event>, sinDeg: real -> real, cosDeg: real -> real)
    ensures ApplyEvents(p, es, sinDeg, cosDeg) == ApplyEvents(p, Held(es), sinDeg, cosDeg)
  {
    if es != [] {
      var init, last := es[..|es| - 1], es[|es| - 1];
      OnlyHeldKeysAct(p, init, sinDeg, cosDeg);
      if last.kind.KeyHold? {
        assert Held(es)[..|Held(es)| - 1] == Held(init);
      } else {
        assert Held(es) == Held(init);
      }
    }
  }

  /** Held A keys minus held D keys. */
  function Turns(es: seq<Event>): int {
    if es == [] then 0
    else Turns(es[..|es| - 1]) + (if es[|es| - 1] == Event(KeyHold, KeyA) then 1
                                  else if es[|es| - 1] == Event(KeyHold, KeyD) then -1 else 0)
  }

  /** A frame of held A and D keys only turns the heading, by the rotation speed per key. */
  lemma {:induction false} TurningOnlyTurns(p: Pose, es: seq<Event>, sinDeg: real -> real, cosDeg: real -> real)
    requires forall i :: 0 <= i < |es| ==> es[i] == Event(KeyHold, KeyA) || es[i] == Event(KeyHold, KeyD)
    ensures ApplyEvents(p, es, sinDeg, cosDeg) == p.(fwd := p.fwd + RotSpeed * Turns(es) as real)
  {
    if es != [] {
      TurningOnlyTurns(p, es[..|es| - 1], sinDeg, cosDeg);
    }
  }

  /** After a held RETURN, the pose depends only on the size and on the events after it. */
  lemma ResetForgetsThePast(p: Pose, before: seq<Event>, after: seq<Event>, sinDeg: real -> real, cosDeg: real -> real)
    ensures ApplyEvents(p, before + [Event(KeyHold, Return)] + after, sinDeg, cosDeg)
            == ApplyEvents(Origin(p.rect), after, sinDeg, cosDeg)
  {
    var reset := [Event(KeyHold, Return)];
    ApplyEventsAppend(p, before + reset, after, sinDeg, cosDeg);
    ApplyEventsAppend(p, before, reset, sinDeg, cosDeg);
    assert reset[..0] == [];
  }

  /** The cap on each velocity component. */
  function Clamp(v: real): (r: real)
    ensures -VelCap <= r <= VelCap
    ensures -VelCap <= v <= VelCap ==> r == v
    ensures r != v ==> (v > VelCap && r == VelCap) || (v < -VelCap && r == -VelCap)
  {
    if v > VelCap then VelCap else if v < -VelCap then -VelCap else v
  }

  /** The velocity the move uses: capped, plus gravity on the vertical component. */
  function CappedWithGravity(p: Pose, gravity: real): (r: Pose)
    ensures -VelCap <= r.vx <= VelCap
    ensures -VelCap + gravity <= r.vy <= VelCap + gravity
    ensures r.vx == Clamp(p.vx) && r.vy == Clamp(p.vy) + gravity
    ensures r == p.(vx := r.vx, vy := r.vy)
  {
    p.(vx := Clamp(p.vx), vy := Clamp(p.vy) + gravity)
  }

  /** Linear deceleration of one component, snapping to 0 within 1 of rest. */
  function Decel(v: real): (r: real)
    ensures v >= 0.0 ==> 0.0 <= r <= v
    ensures v <= 0.0 ==> v <= r <= 0.0
    ensures -1.0 <= v <= 1.0 ==> r == 0.0
    ensures v > 1.0 || v < -1.0 ==> r - v == (if v > 0.0 then -DecelSpeed else DecelSpeed)
  {
    if v > 0.0 then (if v <= 1.0 then 0.0 else v - DecelSpeed)
    else if v < 0.0 then (if v >= -1.0 then 0.0 else v + DecelSpeed)
    else v
  }

  /** `k` frames of deceleration alone. */
  function DecelFrames(v: real, k: nat): real
    decreases k
  {
    if k == 0 then v else DecelFrames(Decel(v), k - 1)
  }

  /** With no other force, a component comes to rest within as many frames as its magnitude. */
  lemma {:induction false} ComesToRest(v: real, k: nat)
    requires -(k as real) <= v <= k as real
    ensures DecelFrames(v, k) == 0.0
    decreases k
  {
    if k > 0 {
      ComesToRest(Decel(v), k - 1);
    } else {
      assert v == 0.0;
    }
  }

  /** The move of one frame, on the pose after input, cap and gravity. */
  function FrameMove(p: Pose, gravity: real, events: seq<Event>, tiles: seq<Rect>, stepX: int, stepY: int,
                     sinDeg: real -> real, cosDeg: real -> real): Outcome
  {
    var q := CappedWithGravity(ApplyEvents(p, events, sinDeg, cosDeg), gravity);
    Resolve(q.rect, tiles, stepX, stepY, q.vx, q.vy)
  }

  /** The pose after one `update`. */
  function Frame(p: Pose, gravity: real, events: seq<Event>, tiles: seq<Rect>, stepX: int, stepY: int,
                 sinDeg: real -> real, cosDeg: real -> real): (r: Pose)
    ensures InSync(r) && r.rect.w == p.rect.w && r.rect.h == p.rect.h
    ensures r.fwd == ApplyEvents(p, events, sinDeg, cosDeg).fwd
  {
    var q := CappedWithGravity(ApplyEvents(p, events, sinDeg, cosDeg), gravity);
    var o := FrameMove(p, gravity, events, tiles, stepX, stepY, sinDeg, cosDeg);
    var vxAfter := if o.dirs.left || o.dirs.right then 0.0 else q.vx;
    var vyAfter := if o.dirs.up || o.dirs.down then 0.0 else q.vy;
    Pose(o.rect.x, o.rect.y, o.rect, Decel(vxAfter), Decel(vyAfter), q.fwd)
  }

  /**
   * After a frame each component is strictly inside the cap band (the vertical
   * one shifted by gravity), and a component whose axis was blocked is at rest.
   */
  lemma FrameVelocity(p: Pose, gravity: real, events: seq<Event>, tiles: seq<Rect>, stepX: int, stepY: int,
                      sinDeg: real -> real, cosDeg: real -> real)
    ensures var r := Frame(p, gravity, events, tiles, stepX, stepY, sinDeg, cosDeg);
            var d := FrameMove(p, gravity, events, tiles, stepX, stepY, sinDeg, cosDeg).dirs;
            && -VelCap < r.vx < VelCap
            && (gravity >= 0.0 ==> -VelCap < r.vy < VelCap + gravity)
            && (d.left || d.right ==> r.vx == 0.0)
            && (d.up || d.down ==> r.vy == 0.0)
  {
  }

  class Player {
    const body: Entity
    const gravity: real
    /** Heading in degrees. */
    var fwd: real

    function Snapshot(): Pose
      reads this, body
    {
      Pose(body.x, body.y, body.rect, body.velX, body.velY, fwd)
    }

    constructor(x: int, y: int, w: int, h: int, img: nat, gravity0: real)
      ensures fresh(body) && body.Valid() && gravity == gravity0
      ensures Snapshot() == Pose(x, y, Rect(x, y, w, h), 0.0, 0.0, 0.0)
    {
      body := new Entity(x, y, w, h, img);
      gravity := gravity0;
      fwd := 0.0;
    }

    /** The event loop of `update`. */
    method HandleInput(events: seq<Event>, sinDeg: real -> real, cosDeg: real -> real)
      requires body.Valid()
      modifies this, body
      ensures body.Valid()
      ensures Snapshot() == ApplyEvents(old(Snapshot()), events, sinDeg, cosDeg)
    {
      for i := 0 to |events|
        invariant body.Valid()
        invariant Snapshot() == ApplyEvents(old(Snapshot()), events[..i], sinDeg, cosDeg)
      {
        assert events[..i + 1][..i] == events[..i];
        var e := events[i];
        if e.kind.KeyHold? {
          match e.key {
            case Space =>
              body.velY := body.velY - Speed * sinDeg(fwd) * AccelSpeed;
              body.velX := body.velX + Speed * cosDeg(fwd) * AccelSpeed;
            case KeyA =>
              fwd := fwd + RotSpeed;
            case KeyD =>
              fwd := fwd - RotSpeed;
            case Return =>
              body.x, body.y := 0, 0;
              body.rect := body.rect.(x := 0, y := 0);
              body.velX, body.velY := 0.0, 0.0;
              fwd := 0.0;
            case OtherKey(_) =>
          }
        }
      }
      assert events[..|events|] == events;
    }

    /** `update`: input, cap, gravity, move, zero blocked components, decelerate. */
    method Update(events: seq<Event>, tiles: seq<Rect>, stepX: int, stepY: int,
                  sinDeg: real -> real, cosDeg: real -> real)
      requires body.Valid()
      modifies this, body
      ensures body.Valid()
      ensures Snapshot() == Frame(old(Snapshot()), gravity, events, tiles, stepX, stepY, sinDeg, cosDeg)
    {
      HandleInput(events, sinDeg, cosDeg);
      CapVelocity();
      ghost var moving := Snapshot();
      var dirs, _, _ := body.Move(tiles, stepX, stepY);
      assert Resolve(moving.rect, tiles, stepX, stepY, moving.vx, moving.vy) == Outcome(body.rect, dirs);
      Settle(dirs);
    }

    /** The cap on both components, then gravity on the vertical one. */
    method CapVelocity()
      requires body.Valid()
      modifies body
      ensures body.Valid()
      ensures Snapshot() == CappedWithGravity(old(Snapshot()), gravity)
    {
      if body.velX > VelCap {
        body.velX := VelCap;
      }
      if body.velY > VelCap {
        body.velY := VelCap;
      }
      if body.velX < -VelCap {
        body.velX := -VelCap;
      }
      if body.velY < -VelCap {
        body.velY := -VelCap;
      }
      body.velY := body.velY + gravity;
    }

    /** After the move: zero each blocked component, then decelerate both. */
    method Settle(dirs: Directions)
      requires body.Valid()
      modifies body
      ensures body.Valid()
      ensures Snapshot() == old(Snapshot()).(vx := Decel(if dirs.left || dirs.right then 0.0 else old(body.velX)),
                                             vy := Decel(if dirs.up || dirs.down then 0.0 else old(body.velY)))
    {
      if dirs.down || dirs.up {
        body.velY := 0.0;
      }
      if dirs.right || dirs.left {
        body.velX := 0.0;
      }

      if body.velX > 0.0 {
        if body.velX <= 1.0 {
          body.velX := 0.0;
        } else {
          body.velX := body.velX - DecelSpeed;
        }
      } else if body.velX < 0.0 {
        if body.velX >= -1.0 {
          body.velX := 0.0;
        } else {
          body.velX := body.velX + DecelSpeed;
        }
      }
      if body.velY > 0.0 {
        if body.velY <= 1.0 {
          body.velY := 0.0;
        } else {
          body.velY := body.velY - DecelSpeed;
        }
      } else if body.velY < 0.0 {
        if body.velY >= -1.0 {
          body.velY := 0.0;
        } else {
          body.velY := body.velY + DecelSpeed;
        }
      }
    }
  }
}
