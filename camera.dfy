/**
 * The `Camera` of camera.py: scroll and zoom that manual calls change only
 * while unlocked, a render batch that `Update` composites at the current scroll
 * and then empties, and cutscene playback as a cursor that `Update` advances
 * one entry per call, unlocking on the call after the last entry.
 *
 * Each state-changing method is specified by a function on `CameraState`;
 * the lemmas over those functions state what holds across several calls.
 */
module CameraModel {
  import opened Wrappers
  import opened Bezier
  import opened Cutscenes

  /** Below this zoom a negative adjustment is refused. */
  const MinZoom: real := 0.1

  /** One pending draw: a surface handle and the position it was submitted at. */
  datatype Blit = Blit(surf: nat, pos: Point)

  /** The playback cursor: the path being played and the index of the next entry. */
  datatype Cursor = Cursor(path: seq<Point>, next: nat)

  /** `play_cutscene` on a name that was never registered raises KeyError. */
  datatype CameraError = UnknownCutscene(name: string)

  /** Everything a `Camera` holds that its methods change. */
  datatype CameraState = CameraState(
    scroll: Point,
    zoom: real,
    locked: bool,
    cursor: Option<Cursor>,
    batch: seq<Blit>,
    cutscenes: map<string, seq<Point>>)

  // ---------------------------------------------------------------------------
  // Cutscene paths

  /** `[normalize(o[0], p[0]), normalize(o[1], p[1])]`, with `normalize` from a helper module. */
  function NormalizePoint(origin: Point, p: Point, normalize: (real, real) -> real): Point {
    Point(normalize(origin.x, p.x), normalize(origin.y, p.y))
  }

  /**
   * The stored curve after the first `k` iterations of the in-place rewrite
   * `points[i] = normalize(points[0], point)`. Iteration 0 overwrites
   * `points[0]`, so every later entry is normalised against the NEW first entry.
   */
  function InPlaceNormalized(curve: seq<Point>, normalize: (real, real) -> real, k: nat): (r: seq<Point>)
    requires k <= |curve|
    ensures |r| == |curve|
    ensures forall i :: k <= i < |r| ==> r[i] == curve[i]
    ensures k > 0 ==> r[0] == NormalizePoint(curve[0], curve[0], normalize)
    ensures forall i :: 1 <= i < k ==> r[i] == NormalizePoint(r[0], curve[i], normalize)
  {
    if k == 0 then curve
    else
      var p := InPlaceNormalized(curve, normalize, k - 1);
      p[k - 1 := NormalizePoint(p[0], p[k - 1], normalize)]
  }

  /** The whole curve after the rewrite loop. */
  function Normalized(curve: seq<Point>, normalize: (real, real) -> real): seq<Point> {
    InPlaceNormalized(curve, normalize, |curve|)
  }

  /** The rewrite loop of `play_cutscene`, on a copy of the stored curve. */
  method NormalizeCurve(curve: seq<Point>, normalize: (real, real) -> real) returns (points: seq<Point>)
    ensures |points| == |curve|
    ensures |curve| > 0 ==> points[0] == NormalizePoint(curve[0], curve[0], normalize)
    ensures forall i :: 1 <= i < |curve| ==> points[i] == NormalizePoint(points[0], curve[i], normalize)
    ensures points == Normalized(curve, normalize)
  {
    points := curve;
    for i := 0 to |points|
      invariant |points| == |curve|
      invariant points == InPlaceNormalized(curve, normalize, i)
    {
      points := points[i := NormalizePoint(points[0], points[i], normalize)];
    }
  }

  /** The sum of a list of displacements. */
  function Total(ds: seq<Point>): Point {
    if ds == [] then Point(0.0, 0.0) else Total(ds[..|ds| - 1]).Plus(ds[|ds| - 1])
  }

  /**
   * The absolute path a cutscene plays: entry `i` is the start moved by the
   * first `i + 1` displacements (fresh values, see the aliasing note below).
   */
  function PrefixPath(start: Point, ds: seq<Point>): (r: seq<Point>)
    ensures |r| == |ds|
    ensures forall i :: 0 <= i < |r| ==> r[i] == start.Plus(Total(ds[..i + 1]))
  {
    if ds == [] then []
    else
      var init := ds[..|ds| - 1];
      assert forall j :: 0 <= j <= |init| ==> init[..j] == ds[..j];
      assert ds[..|ds|] == ds;
      PrefixPath(start, init) + [start.Plus(Total(ds))]
  }

  /** The path starts one displacement away from the start and moves by one displacement per entry. */
  lemma PathFollowsDeltas(start: Point, ds: seq<Point>, i: nat)
    requires i < |ds|
    ensures PrefixPath(start, ds)[i] == (if i == 0 then start else PrefixPath(start, ds)[i - 1]).Plus(ds[i])
  {
    var path := PrefixPath(start, ds);
    assert ds[..i + 1][..i] == ds[..i];
    if i == 0 {
      assert ds[..1] == [ds[0]];
      assert Total([ds[0]]) == Total([]).Plus(ds[0]);
    }
  }

  /**
   * The accumulation loop of `play_cutscene`, with a fresh point per entry:
   * `last_point` advances by each displacement and each entry is a copy.
   */
  method Accumulate(start: Point, ds: seq<Point>) returns (path: seq<Point>)
    ensures |path| == |ds|
    ensures forall i :: 0 <= i < |ds| ==> path[i] == start.Plus(Total(ds[..i + 1]))
    ensures path == PrefixPath(start, ds)
  {
    path := [];
    var last := start;
    for i := 0 to |ds|
      invariant last == start.Plus(Total(ds[..i]))
      invariant path == PrefixPath(start, ds[..i])
    {
      assert ds[..i + 1][..i] == ds[..i];
      last := last.Plus(ds[i]);
      path := path + [last];
    }
    assert ds[..|ds|] == ds;
  }

  /**
   * A Python list, shared by reference: `last_point = self.scroll` makes the
   * accumulator the very list that holds the camera's scroll.
   */
  class SharedPoint {
    var x: real
    var y: real

    constructor(p: Point)
      ensures x == p.x && y == p.y
    {
      x, y := p.x, p.y;
    }

    function Value(): Point
      reads this
    {
      Point(x, y)
    }
  }

  /**
   * The accumulation loop AS WRITTEN: each iteration adds into the shared
   * list and appends that same list, so every entry is one object whose
   * final value is the end of the path, and the scroll has already jumped there.
   */
  method AliasedAccumulate(last: SharedPoint, ds: seq<Point>) returns (entries: seq<SharedPoint>)
    modifies last
    ensures |entries| == |ds|
    ensures forall i :: 0 <= i < |entries| ==> entries[i] == last
    ensures last.Value() == old(last.Value()).Plus(Total(ds))
  {
    entries := [];
    ghost var start := last.Value();
    for i := 0 to |ds|
      invariant |entries| == i
      invariant forall j :: 0 <= j < i ==> entries[j] == last
      invariant last.Value() == start.Plus(Total(ds[..i]))
    {
      assert ds[..i + 1][..i] == ds[..i];
      last.x := last.x + ds[i].x;
      last.y := last.y + ds[i].y;
      entries := entries + [last];
    }
    assert ds[..|ds|] == ds;
  }

  /** Two displacements: the path visits the start moved by the first, then by both. */
  lemma {:induction false} TwoStepPath(start: Point, ds: seq<Point>)
    requires |ds| == 2
    ensures Total(ds) == Point(ds[0].x + ds[1].x, ds[0].y + ds[1].y)
    ensures PrefixPath(start, ds) == [start.Plus(ds[0]), start.Plus(ds[0]).Plus(ds[1])]
  {
    var first := ds[..1];
    assert first[..0] == [];
    assert Total(first) == Point(0.0, 0.0).Plus(ds[0]);
    assert Total(ds) == Total(first).Plus(ds[1]);
    assert PrefixPath(start, first) == PrefixPath(start, []) + [start.Plus(Total(first))];
    assert PrefixPath(start, ds) == PrefixPath(start, first) + [start.Plus(Total(ds))];
  }

  /**
   * Counterexample to the as-written loop: from scroll (0, 0) with normalised
   * entries (0, 0) and (1, 0), both entries the loop hands back read (1, 0).
   */
  method AliasingCounterexample() returns (seen: seq<Point>)
    ensures seen == [Point(1.0, 0.0), Point(1.0, 0.0)]
  {
    var ds := [Point(0.0, 0.0), Point(1.0, 0.0)];
    var scroll := new SharedPoint(Point(0.0, 0.0));
    var entries := AliasedAccumulate(scroll, ds);
    TwoStepPath(Point(0.0, 0.0), ds);
    seen := [entries[0].Value(), entries[1].Value()];
  }

  /** For the same input the path should pass through (0, 0) and then (1, 0). */
  lemma IntendedCounterexamplePath(ds: seq<Point>)
    requires ds == [Point(0.0, 0.0), Point(1.0, 0.0)]
    ensures PrefixPath(Point(0.0, 0.0), ds) == [Point(0.0, 0.0), Point(1.0, 0.0)]
  {
    TwoStepPath(Point(0.0, 0.0), ds);
  }

  // ---------------------------------------------------------------------------
  // Specification of the camera's operations

  /** `play_cutscene` on a registered name: the stored curve is rewritten, and the path installed and locked. */
  function PlayedPath(s: CameraState, name: string, normalize: (real, real) -> real): seq<Point>
    requires name in s.cutscenes
  {
    PrefixPath(s.scroll, Normalized(s.cutscenes[name], normalize))
  }

  function Played(s: CameraState, name: string, normalize: (real, real) -> real): (r: CameraState)
    requires name in s.cutscenes
    ensures r.locked && r.cursor == Some(Cursor(PlayedPath(s, name, normalize), 0))
    ensures |PlayedPath(s, name, normalize)| == |s.cutscenes[name]|
    ensures r.scroll == s.scroll && r.zoom == s.zoom && r.batch == s.batch
    ensures r.cutscenes.Keys == s.cutscenes.Keys
  {
    s.(cutscenes := s.cutscenes[name := Normalized(s.cutscenes[name], normalize)],
       cursor := Some(Cursor(PlayedPath(s, name, normalize), 0)),
       locked := true)
  }

  /**
   * The cursor part of `update`: take the next entry as the scroll, or, once
   * the path is exhausted, unlock and drop the cursor leaving the scroll alone.
   */
  function Advance(s: CameraState): (r: CameraState)
    ensures r.zoom == s.zoom && r.batch == s.batch && r.cutscenes == s.cutscenes
    ensures s.cursor == None ==> r == s
  {
    match s.cursor
    case None => s
    case Some(c) =>
      if c.next < |c.path| then s.(scroll := c.path[c.next], cursor := Some(Cursor(c.path, c.next + 1)))
      else s.(locked := false, cursor := None)
  }

  /** The state after one `update`: the cursor advanced and the batch emptied. */
  function Updated(s: CameraState): (r: CameraState)
    ensures r.batch == []
  {
    Advance(s).(batch := [])
  }

  /** The state after `k` calls of `update`. */
  function Updates(s: CameraState, k: nat): CameraState {
    if k == 0 then s else Updated(Updates(s, k - 1))
  }

  /**
   * With a fresh cursor over `path`, each of the first `|path|` updates moves the
   * scroll to the next entry, in order, and leaves the lock as it was.
   */
  lemma {:induction false} PlaybackVisitsPath(s: CameraState, k: nat)
    requires s.cursor.Some? && s.cursor.value.next == 0
    requires k <= |s.cursor.value.path|
    ensures Updates(s, k).cursor == Some(Cursor(s.cursor.value.path, k))
    ensures Updates(s, k).locked == s.locked
    ensures Updates(s, k).scroll == if k == 0 then s.scroll else s.cursor.value.path[k - 1]
    ensures Updates(s, k).zoom == s.zoom && Updates(s, k).cutscenes == s.cutscenes
  {
    if k > 0 {
      PlaybackVisitsPath(s, k - 1);
    }
  }

  /** The update after the last entry unlocks, drops the cursor and keeps the last scroll. */
  lemma PlaybackEnds(s: CameraState)
    requires s.cursor.Some? && s.cursor.value.next == 0
    ensures var path := s.cursor.value.path;
            var e := Updates(s, |path| + 1);
            e.cursor == None && !e.locked && e.zoom == s.zoom
            && e.scroll == if path == [] then s.scroll else path[|path| - 1]
  {
    PlaybackVisitsPath(s, |s.cursor.value.path|);
  }

  /**
   * `play_cutscene` followed by updates: the camera stays locked for exactly as
   * many updates as the curve has points, and the next update unlocks it,
   * having moved the scroll along the returned path.
   */
  lemma CutsceneLocksForItsLength(s: CameraState, name: string, normalize: (real, real) -> real, k: nat)
    requires name in s.cutscenes
    ensures k <= |s.cutscenes[name]| ==> Updates(Played(s, name, normalize), k).locked
    ensures k == |s.cutscenes[name]| + 1 ==> !Updates(Played(s, name, normalize), k).locked
    ensures 0 < k <= |s.cutscenes[name]| ==>
              Updates(Played(s, name, normalize), k).scroll == PlayedPath(s, name, normalize)[k - 1]
  {
    var p := Played(s, name, normalize);
    if k <= |s.cutscenes[name]| {
      PlaybackVisitsPath(p, k);
    } else if k == |s.cutscenes[name]| + 1 {
      PlaybackEnds(p);
    }
  }

  /** The manual scroll and zoom calls, which do nothing while the camera is locked. */
  datatype ManualOp =
    | ZoomBy(flt: real)
    | ScrollBy(delta: Point)
    | ScrollTo(pos: seq<real>)
    | CenterOn(target: Point)

  /** `move_to` reads the first two components of its argument. */
  predicate WellFormed(op: ManualOp) {
    op.ScrollTo? ==> |op.pos| >= 2
  }

  /** One manual call on a screen of `width` by `height`. */
  function Manual(s: CameraState, op: ManualOp, width: nat, height: nat): (r: CameraState)
    requires WellFormed(op)
    ensures s.locked ==> r == s
    ensures r == s.(scroll := r.scroll, zoom := r.zoom)
    ensures !op.ZoomBy? ==> r.zoom == s.zoom
    ensures op.ZoomBy? ==> r.scroll == s.scroll
    ensures op.ZoomBy? && op.flt < 0.0 && s.zoom <= MinZoom ==> r.zoom == s.zoom
    ensures !s.locked && op.CenterOn? ==> r.scroll.Plus(op.target) == Point((width / 2) as real, (height / 2) as real)
  {
    if s.locked then s
    else match op
      case ZoomBy(flt) => if flt < 0.0 && s.zoom <= MinZoom then s else s.(zoom := s.zoom + flt)
      case ScrollBy(d) => s.(scroll := s.scroll.Plus(d))
      case ScrollTo(pos) => s.(scroll := Point(pos[0], pos[1]))
      case CenterOn(p) => s.(scroll := Point((width / 2) as real - p.x, (height / 2) as real - p.y))
  }

  /** A sequence of manual calls, in order. */
  function ManualAll(s: CameraState, ops: seq<ManualOp>, width: nat, height: nat): CameraState
    requires forall i :: 0 <= i < |ops| ==> WellFormed(ops[i])
  {
    if ops == [] then s
    else Manual(ManualAll(s, ops[..|ops| - 1], width, height), ops[|ops| - 1], width, height)
  }

  /** While locked, any sequence of manual calls leaves the whole state unchanged. */
  lemma {:induction false} LockedIgnoresManual(s: CameraState, ops: seq<ManualOp>, width: nat, height: nat)
    requires forall i :: 0 <= i < |ops| ==> WellFormed(ops[i])
    requires s.locked
    ensures ManualAll(s, ops, width, height) == s
  {
    if ops != [] {
      LockedIgnoresManual(s, ops[..|ops| - 1], width, height);
    }
  }

  /**
   * At or below the minimum, zooming out never changes the zoom, however
   * many times it is asked for, and nothing else changes either.
   */
  lemma {:induction false} ZoomOutRefusedAtMinimum(s: CameraState, flts: seq<real>, width: nat, height: nat)
    requires s.zoom <= MinZoom
    requires forall i :: 0 <= i < |flts| ==> flts[i] < 0.0
    ensures ManualAll(s, ZoomCalls(flts), width, height) == s
  {
    if flts != [] {
      assert ZoomCalls(flts)[..|flts| - 1] == ZoomCalls(flts[..|flts| - 1]);
      ZoomOutRefusedAtMinimum(s, flts[..|flts| - 1], width, height);
    }
  }

  /** A zoom call per delta. */
  function ZoomCalls(flts: seq<real>): (ops: seq<ManualOp>)
    ensures |ops| == |flts|
    ensures forall i :: 0 <= i < |ops| ==> ops[i] == ZoomBy(flts[i])
  {
    seq(|flts|, i requires 0 <= i < |flts| => ZoomBy(flts[i]))
  }

  // ---------------------------------------------------------------------------
  // The camera object

  /** The blit loop of `update`: every batched item at its position plus the scroll, in batch order. */
  method Composite(batch: seq<Blit>, scroll: Point) returns (drawn: seq<Blit>)
    ensures |drawn| == |batch|
    ensures forall i :: 0 <= i < |batch| ==> drawn[i] == Blit(batch[i].surf, batch[i].pos.Plus(scroll))
  {
    drawn := [];
    for i := 0 to |batch|
      invariant |drawn| == i
      invariant forall j :: 0 <= j < i ==> drawn[j] == Blit(batch[j].surf, batch[j].pos.Plus(scroll))
    {
      drawn := drawn + [Blit(batch[i].surf, batch[i].pos.Plus(scroll))];
    }
  }

  class Camera {
    const width: nat
    const height: nat
    var scroll: Point
    /** The zoom factor; in the source this attribute shadows the `zoom` method, modelled as `AdjustZoom`. */
    var zoom: real
    var locked: bool
    var cursor: Option<Cursor>
    var toBlit: seq<Blit>
    var cutscenes: map<string, seq<Point>>

    function State(): CameraState
      reads this
    {
      CameraState(scroll, zoom, locked, cursor, toBlit, cutscenes)
    }

    /** Registers every visible entry of the cutscene directory; starts idle at scroll (0, 0), zoom 1. */
    constructor(w: nat, h: nat, srcs: seq<CutsceneSource>, round: real -> real)
      requires forall i :: 0 <= i < |srcs| ==> Loadable(srcs[i])
      ensures width == w && height == h
      ensures State() == CameraState(Point(0.0, 0.0), 1.0, false, None, [], Registry(srcs, round))
    {
      width, height := w, h;
      scroll := Point(0.0, 0.0);
      locked := false;
      toBlit := [];
      zoom := 1.0;
      cursor := None;
      var loaded := LoadCutscenes(srcs, round);
      cutscenes := loaded;
    }

    /**
     * One frame: advance the cursor (or unlock after its last entry), then
     * draw the batch at the new scroll and empty it.
     */
    method Update() returns (drawn: seq<Blit>)
      modifies this
      ensures State() == Updated(old(State()))
      ensures |drawn| == |old(toBlit)|
      ensures forall i :: 0 <= i < |drawn| ==> drawn[i] == Blit(old(toBlit)[i].surf, old(toBlit)[i].pos.Plus(scroll))
    {
      match cursor {
        case None =>
        case Some(c) =>
          if c.next < |c.path| {
            scroll := c.path[c.next];
            cursor := Some(Cursor(c.path, c.next + 1));
          } else {
            Unlock();
            cursor := None;
          }
      }
      drawn := Composite(toBlit, scroll);
      toBlit := [];
    }

    /**
     * Starts a cutscene whatever the lock: rewrites the stored curve, installs
     * a cursor over the path from the current scroll, locks and returns the path.
     */
    method PlayCutscene(name: string, normalize: (real, real) -> real) returns (r: Result<seq<Point>, CameraError>)
      modifies this
      ensures name !in old(cutscenes) ==> r == Failure(UnknownCutscene(name)) && State() == old(State())
      ensures name in old(cutscenes) ==>
                r == Success(PlayedPath(old(State()), name, normalize))
                && State() == Played(old(State()), name, normalize)
    {
      if name !in cutscenes {
        return Failure(UnknownCutscene(name));
      }
      var points := NormalizeCurve(cutscenes[name], normalize);
      cutscenes := cutscenes[name := points];
      var path := Accumulate(scroll, points);
      cursor := Some(Cursor(path, 0));
      Lock();
      r := Success(path);
    }

    /** Queues a draw for the next `Update`; nothing else changes. */
    method Render(surf: nat, pos: Point)
      modifies this
      ensures State() == old(State()).(batch := old(toBlit) + [Blit(surf, pos)])
    {
      toBlit := toBlit + [Blit(surf, pos)];
    }

    /** `zoom(flt)`: adds `flt` unless locked, or unless zooming out at or below the minimum. */
    method AdjustZoom(flt: real)
      modifies this
      ensures State() == Manual(old(State()), ZoomBy(flt), width, height)
      ensures old(locked) || (flt < 0.0 && old(zoom) <= MinZoom) ==> zoom == old(zoom)
      ensures !old(locked) && !(flt < 0.0 && old(zoom) <= MinZoom) ==> zoom == old(zoom) + flt
    {
      if !locked {
        if !(flt < 0.0 && zoom <= MinZoom) {
          zoom := zoom + flt;
        }
      }
    }

    /** `move_by(pos)`: shifts the scroll componentwise unless locked. */
    method MoveBy(delta: Point)
      modifies this
      ensures State() == Manual(old(State()), ScrollBy(delta), width, height)
      ensures scroll == if old(locked) then old(scroll) else old(scroll).Plus(delta)
    {
      if !locked {
        scroll := scroll.Plus(delta);
      }
    }

    /** `move_to(pos)`: the scroll becomes the first two components of `pos`, unless locked. */
    method MoveTo(pos: seq<real>)
      requires |pos| >= 2
      modifies this
      ensures State() == Manual(old(State()), ScrollTo(pos), width, height)
      ensures scroll == if old(locked) then old(scroll) else Point(pos[0], pos[1])
    {
      if !locked {
        scroll := Point(pos[0], pos[1]);
      }
    }

    /** `center(pos)`: unless locked, the scroll puts `pos` at the screen's centre. */
    method Center(target: Point)
      modifies this
      ensures State() == Manual(old(State()), CenterOn(target), width, height)
      ensures !old(locked) ==> scroll.Plus(target) == Point((width / 2) as real, (height / 2) as real)
    {
      if !locked {
        scroll := Point((width / 2) as real - target.x, (height / 2) as real - target.y);
      }
    }

    method Lock()
      modifies this
      ensures State() == old(State()).(locked := true)
    {
      locked := true;
    }

    method Unlock()
      modifies this
      ensures State() == old(State()).(locked := false)
    {
      locked := false;
    }
  }
}
