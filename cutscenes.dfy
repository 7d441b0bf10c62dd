/**
 * Cutscene registration in camera.py: the name a cutscene gets from its file
 * path, the hidden-file filter of the camera's constructor, and the registry
 * that maps names to sampled curves (a later file with the same name wins).
 */
module Cutscenes {
  import opened Bezier

  /** The path separator (`os.sep`) on the POSIX systems the model assumes. */
  const Sep: char := '/'

  /** Marker of a hidden directory entry, and of a file extension. */
  const Dot: char := '.'

  /**
   * Where `s.split(c)[-1]` starts: just after the last `c`, or at 0 when there
   * is none. What follows it is the longest suffix of `s` free of `c`.
   */
  function LastCut(s: string, c: char): (k: nat)
    ensures k <= |s| && c !in s[k..]
    ensures k > 0 ==> s[k - 1] == c
  {
    if s == [] then 0
    else if s[|s| - 1] == c then |s|
    else
      var k := LastCut(s[..|s| - 1], c);
      assert s[k..] == s[..|s| - 1][k..] + [s[|s| - 1]];
      k
  }

  /**
   * Where `s.split(c)[0]` ends: at the first `c`, or at `|s|` when there is
   * none. What precedes it is the longest prefix of `s` free of `c`.
   */
  function FirstCut(s: string, c: char): (k: nat)
    ensures k <= |s| && c !in s[..k]
    ensures k < |s| ==> s[k] == c
  {
    if s == [] then 0
    else if s[0] == c then 0
    else
      var k := FirstCut(s[1..], c);
      assert s[..k + 1] == [s[0]] + s[1..][..k];
      k + 1
  }

  /** The last path component (`path.split(os.sep)[-1]`). */
  function BaseName(path: string): string {
    path[LastCut(path, Sep)..]
  }

  /**
   * `CameraCutscene.name`: the last path component truncated at its first dot
   * (`.split('.')[0]`). It holds neither a separator nor a dot, it is how the
   * last component starts, and it stops only at a dot.
   */
  function CutsceneName(path: string): (name: string)
    ensures Sep !in name && Dot !in name
    ensures |name| <= |BaseName(path)| && name == BaseName(path)[..|name|]
    ensures |name| < |BaseName(path)| ==> BaseName(path)[|name|] == Dot
  {
    var base := BaseName(path);
    assert Sep !in base;
    var name := base[..FirstCut(base, Dot)];
    assert forall ch :: ch in name ==> ch in base;
    name
  }

  /** A file name without separator or dot is its own cutscene name. */
  lemma {:induction false} PlainNameIsKept(file: string)
    requires Sep !in file && Dot !in file
    ensures CutsceneName(file) == file
  {
  }

  /**
   * One directory entry, with the control points, step and sample count its
   * definition file holds (reading and parsing the file is not modelled).
   */
  datatype CutsceneSource = CutsceneSource(file: string, controls: seq<Point>, speed: real, samples: nat)

  /** What the constructor needs of each entry: a name and, when it is read at all, control points to sample. */
  predicate Loadable(src: CutsceneSource) {
    |src.file| > 0 && (!Hidden(src.file) && src.samples > 0 ==> |src.controls| >= 1)
  }

  /** The constructor skips entries whose first character is a dot. */
  predicate Hidden(file: string) {
    |file| > 0 && file[0] == Dot
  }

  /** The curve a `CameraCutscene` samples from its control points. */
  function CurveOf(src: CutsceneSource, round: real -> real): seq<Point>
    requires Loadable(src) && !Hidden(src.file)
  {
    Curve(src.controls, src.speed, src.samples, round)
  }

  /** The cutscene table after registering `srcs` in directory order. */
  function Registry(srcs: seq<CutsceneSource>, round: real -> real): (r: map<string, seq<Point>>)
    requires forall i :: 0 <= i < |srcs| ==> Loadable(srcs[i])
    ensures forall name :: name in r ==> Sep !in name && Dot !in name
  {
    if srcs == [] then map[]
    else
      var last := srcs[|srcs| - 1];
      var earlier := Registry(srcs[..|srcs| - 1], round);
      if Hidden(last.file) then earlier
      else earlier[CutsceneName(last.file) := CurveOf(last, round)]
  }

  /** Entry `i` exists, is visible and registers under `name`. */
  predicate RegistersAs(srcs: seq<CutsceneSource>, i: int, name: string) {
    0 <= i < |srcs| && !Hidden(srcs[i].file) && CutsceneName(srcs[i].file) == name
  }

  /** A name is registered exactly when some visible entry carries it. */
  lemma {:induction false} RegistryKeys(srcs: seq<CutsceneSource>, round: real -> real, name: string)
    requires forall i :: 0 <= i < |srcs| ==> Loadable(srcs[i])
    ensures name in Registry(srcs, round) <==> exists i :: RegistersAs(srcs, i, name)
  {
    if srcs != [] {
      var n := |srcs| - 1;
      var init := srcs[..n];
      RegistryKeys(init, round, name);
      var before := Registry(init, round);
      assert Registry(srcs, round) == if Hidden(srcs[n].file) then before
                                      else before[CutsceneName(srcs[n].file) := CurveOf(srcs[n], round)];
      assert name in Registry(srcs, round) <==> name in before || RegistersAs(srcs, n, name);
      assert forall i :: RegistersAs(init, i, name) <==> i < n && RegistersAs(srcs, i, name);
    }
  }

  /** The curve registered under a name is that of the last visible entry with that name. */
  lemma {:induction false} RegistryLastWins(srcs: seq<CutsceneSource>, round: real -> real, i: int)
    requires forall j :: 0 <= j < |srcs| ==> Loadable(srcs[j])
    requires 0 <= i < |srcs| && !Hidden(srcs[i].file)
    requires forall j :: i < j < |srcs| ==> !RegistersAs(srcs, j, CutsceneName(srcs[i].file))
    ensures CutsceneName(srcs[i].file) in Registry(srcs, round)
    ensures Registry(srcs, round)[CutsceneName(srcs[i].file)] == CurveOf(srcs[i], round)
  {
    var init := srcs[..|srcs| - 1];
    if i < |init| {
      var name := CutsceneName(srcs[i].file);
      assert !RegistersAs(srcs, |srcs| - 1, name);
      forall j | i < j < |init| ensures !RegistersAs(init, j, name) {
        assert init[j] == srcs[j];
        assert !RegistersAs(srcs, j, name);
      }
      RegistryLastWins(init, round, i);
    }
  }

  /**
   * The constructor's loop over the directory listing: visible entries are
   * registered in order, so a later entry overwrites an earlier one.
   */
  method LoadCutscenes(srcs: seq<CutsceneSource>, round: real -> real) returns (cutscenes: map<string, seq<Point>>)
    requires forall i :: 0 <= i < |srcs| ==> Loadable(srcs[i])
    ensures cutscenes == Registry(srcs, round)
    ensures forall name :: name in cutscenes ==> Sep !in name && Dot !in name
  {
    cutscenes := map[];
    for i := 0 to |srcs|
      invariant cutscenes == Registry(srcs[..i], round)
      invariant forall name :: name in cutscenes ==> Sep !in name && Dot !in name
    {
      assert srcs[..i + 1][..i] == srcs[..i];
      var src := srcs[i];
      if src.file[0] != Dot {
        var curve := BezierCurve(src.controls, src.speed, src.samples, round);
        cutscenes := cutscenes[CutsceneName(src.file) := curve];
      }
    }
    assert srcs[..|srcs|] == srcs;
  }
}
