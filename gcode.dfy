/** The G-code encoder: a stroke job is a two-line header followed by four
    lines per stroke; the end of a paper run lifts the pen and returns to the
    origin. Numbers are kept exact; their three-decimal text rendering is not
    modelled, so a line is a command with its numeric arguments. */
module Gcode {
  import opened Config

  datatype GLine =
    | Absolute                          // G90
    | Millimetres                       // G21
    | RapidXYZ(x: real, y: real, z: real) // G0 X.. Y.. Z..
    | LinearZ(z: real, feed: real)      // G1 Z.. F..
    | LinearX(x: real, feed: real)      // G1 X.. F..
    | RapidXY(x: real, y: real)         // G0 X.. Y..

  /** The four lines of one stroke starting at `x`: travel there with the pen
      up, plunge, drag by the stroke length, lift. */
  function StrokeLines(x: real, y: real, g: Geometry): seq<GLine> {
    [ RapidXYZ(x, y, g.zUp),
      LinearZ(g.zDown, g.plungeRate),
      LinearX(x + g.strokeLength, g.feedRate),
      LinearZ(g.zUp, g.plungeRate) ]
  }

  /** How far stroke `i` of a job starts from the first: `i` spacings. */
  function StrokeOffset(g: Geometry, i: nat): real {
    i as real * g.strokeSpacing
  }

  /** `n` consecutive strokes, the first at `x`, each `strokeSpacing` further:
      the strokes before the last, then the last one. */
  function Strokes(x: real, y: real, n: nat, g: Geometry): (r: seq<GLine>)
    ensures |r| == 4 * n
    decreases n
  {
    if n == 0 then [] else Strokes(x, y, n - 1, g) + StrokeLines(x + StrokeOffset(g, n - 1), y, g)
  }

  /** Stroke `i` of a job occupies lines 4i..4i+3 and starts at
      `x + i * strokeSpacing`. */
  lemma {:induction false} StrokeAt(x: real, y: real, n: nat, g: Geometry, i: nat)
    requires i < n
    ensures Strokes(x, y, n, g)[4 * i .. 4 * i + 4] == StrokeLines(x + StrokeOffset(g, i), y, g)
    decreases n
  {
    var front := Strokes(x, y, n - 1, g);
    var r := Strokes(x, y, n, g);
    assert r == front + StrokeLines(x + StrokeOffset(g, n - 1), y, g);
    if i < n - 1 {
      StrokeAt(x, y, n - 1, g, i);
      assert r[4 * i .. 4 * i + 4] == front[4 * i .. 4 * i + 4];
    } else {
      assert r[4 * i .. 4 * i + 4] == r[|front|..];
    }
  }

  /** One more stroke is one more spacing. */
  lemma OffsetStep(g: Geometry, i: nat)
    ensures StrokeOffset(g, i + 1) == StrokeOffset(g, i) + g.strokeSpacing
  {
  }

  /** Offsets are never negative and grow with the stroke index. */
  lemma OffsetMonotone(g: Geometry, i: nat, j: nat)
    requires i <= j
    ensures 0.0 <= StrokeOffset(g, i) <= StrokeOffset(g, j)
  {
  }

  /** `buildStrokeJobGcode`: the header, then `count` strokes starting at
      `xStart`; `xEnd` is where the stroke after the last one would start. */
  method BuildStrokeJobGcode(xStart: real, y: real, count: int, g: Geometry)
    returns (lines: seq<GLine>, xEnd: real)
    ensures var n := if count < 0 then 0 else count;
            && lines == [Absolute, Millimetres] + Strokes(xStart, y, n, g)
            && |lines| == 2 + 4 * n
            && xEnd == xStart + StrokeOffset(g, n)
  {
    lines := [Absolute, Millimetres];
    var x := xStart;
    var i := 0;
    while i < count
      invariant 0 <= i && (count >= 0 ==> i <= count) && (count < 0 ==> i == 0)
      invariant x == xStart + StrokeOffset(g, i)
      invariant lines == [Absolute, Millimetres] + Strokes(xStart, y, i, g)
    {
      assert Strokes(xStart, y, i + 1, g) == Strokes(xStart, y, i, g) + StrokeLines(x, y, g);
      OffsetStep(g, i);
      lines := lines + StrokeLines(x, y, g);
      x := x + g.strokeSpacing;
      i := i + 1;
    }
    xEnd := x;
  }

  /** The pen height a line leaves behind, given the height `z` before it. */
  function ZAfter(line: GLine, z: real): real {
    match line
    case RapidXYZ(_, _, h) => h
    case LinearZ(h, _) => h
    case _ => z
  }

  /** The pen height after running `lines`, starting at height `z`. */
  function PenZ(lines: seq<GLine>, z: real): real
    decreases |lines|
  {
    if lines == [] then z else ZAfter(lines[|lines| - 1], PenZ(lines[..|lines| - 1], z))
  }

  /** Running two blocks of lines one after the other: the second starts at
      the height the first leaves. */
  lemma {:induction false} PenZAppend(a: seq<GLine>, b: seq<GLine>, z: real)
    ensures PenZ(a + b, z) == PenZ(b, PenZ(a, z))
    decreases |b|
  {
    if b == [] {
      assert a + b == a;
    } else {
      var b' := b[..|b| - 1];
      assert (a + b)[..|a + b| - 1] == a + b';
      PenZAppend(a, b', z);
    }
  }

  /** A job of at least one stroke leaves the pen up, whatever its height
      before. */
  lemma {:induction false} StrokesEndPenUp(x: real, y: real, n: nat, g: Geometry, z: real)
    requires n >= 1
    ensures PenZ(Strokes(x, y, n, g), z) == g.zUp
  {
    var r := Strokes(x, y, n, g);
    assert r[|r| - 1] == LinearZ(g.zUp, g.plungeRate);
  }

  /** Every move of a stroke sequence stays between `lo` and `hi` on X: the
      travel moves to a stroke start and the drags to a stroke end. */
  ghost predicate WithinX(lines: seq<GLine>, lo: real, hi: real) {
    forall k :: 0 <= k < |lines| ==>
      (lines[k].RapidXYZ? ==> lo <= lines[k].x <= hi) &&
      (lines[k].LinearX? ==> lo <= lines[k].x <= hi)
  }

  /** The strokes of a job span from the first start to the last stroke's
      end: `x` up to `x + (n-1) * strokeSpacing + strokeLength`. */
  lemma {:induction false} StrokesWithin(x: real, y: real, n: nat, g: Geometry)
    requires n >= 1
    ensures WithinX(Strokes(x, y, n, g), x, x + StrokeOffset(g, n - 1) + g.strokeLength)
    decreases n
  {
    var s := g.strokeSpacing;
    var hi := x + StrokeOffset(g, n - 1) + g.strokeLength;
    var r := Strokes(x, y, n, g);
    var last := StrokeLines(x + StrokeOffset(g, n - 1), y, g);
    OffsetMonotone(g, 0, n - 1);
    assert r[4 * (n - 1)..] == last;
    forall k | 4 * (n - 1) <= k < |r|
      ensures (r[k].RapidXYZ? ==> x <= r[k].x <= hi) && (r[k].LinearX? ==> x <= r[k].x <= hi)
    {
      assert r[k] == last[k - 4 * (n - 1)];
    }
    if n > 1 {
      var front := Strokes(x, y, n - 1, g);
      StrokesWithin(x, y, n - 1, g);
      OffsetMonotone(g, n - 2, n - 1);
      forall k | 0 <= k < 4 * (n - 1)
        ensures (r[k].RapidXYZ? ==> x <= r[k].x <= hi) && (r[k].LinearX? ==> x <= r[k].x <= hi)
      {
        assert r[k] == front[k];
      }
    }
  }

  /** `buildEndOfRunGcode`: lift the pen, then travel to the origin. */
  function EndOfRunLines(g: Geometry): (r: seq<GLine>)
    ensures forall z :: PenZ(r, z) == g.zUp
    ensures |r| == 2 && r[0] == LinearZ(g.zUp, g.plungeRate) && r[1] == RapidXY(g.x0, g.y0)
  {
    [LinearZ(g.zUp, g.plungeRate), RapidXY(g.x0, g.y0)]
  }
}
