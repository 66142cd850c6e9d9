/** The text layout of src/blanky/blanky.ts: `processHeightMap` turns a
    height map into a list of unit step vectors, and `drawLine` cuts a line
    of text into five-character chunks and places chunk i at the running sum
    of the first i + 1 vectors. Heights and the step are integers here. */
module Blanky {
  import opened Js
  import MathUtils

  /** A step vector `[x, y]`. */
  datatype Vec2 = Vec2(x: int, y: int)

  const Right := Vec2(1, 0)

  function Abs(n: int): nat { if n < 0 then -n else n }

  /** `Math.sign` on integers. */
  function Sign(n: int): int { if n > 0 then 1 else if n < 0 then -1 else 0 }

  function Repeat(v: Vec2, n: nat): (r: seq<Vec2>)
    ensures |r| == n && forall k :: 0 <= k < n ==> r[k] == v
  {
    if n == 0 then [] else Repeat(v, n - 1) + [v]
  }

  // ---------------------------------------------------------------------
  // processHeightMap

  /** The inner loop's guard `v < n / step`, which compares a counter with
      a quotient, on integers: multiplying through by the step flips the
      comparison when the step is negative. */
  function BelowQuotient(v: int, n: int, step: int): bool {
    if step > 0 then v * step < n else v * step > n
  }

  /** The integer guard is the quotient comparison over the reals; for a
      negative step and a positive `n` the quotient is negative and the
      guard fails at once. */
  lemma BelowQuotientMeaning(v: int, n: int, step: int)
    requires step != 0
    ensures BelowQuotient(v, n, step) <==> (v as real) < (n as real) / (step as real)
  {
    var q := (n as real) / (step as real);
    assert q * (step as real) == n as real;
    if step > 0 {
      MulStrict(v as real, q, step as real);
      MulStrict(q, v as real, step as real);
    } else {
      MulStrict(v as real, q, -(step as real));
      MulStrict(q, v as real, -(step as real));
    }
  }

  lemma MulStrict(a: real, b: real, m: real)
    requires m > 0.0
    ensures a < b <==> a * m < b * m
  {
    if a < b {
      MathUtils.MulPositive(b - a, m);
    } else {
      MathUtils.MulNonneg(a - b, m);
    }
  }

  /** How many times the inner loop runs for a height difference of
      magnitude `n` and a positive step: once for each multiple of the step
      below `n`. */
  function ExtraCount(n: int, step: int): nat
    requires step > 0
    decreases if n > 0 then n else 0
  {
    if n <= 0 then 0 else 1 + ExtraCount(n - step, step)
  }

  /** That count is `ceil(n / step)`: the least count whose multiple of the
      step reaches `n`. */
  lemma {:induction false} ExtraCountIsCeiling(n: int, step: int)
    requires step > 0
    ensures ExtraCount(n, step) * step >= n
    ensures ExtraCount(n, step) > 0 ==> (ExtraCount(n, step) - 1) * step < n
    decreases if n > 0 then n else 0
  {
    if n > 0 {
      ExtraCountIsCeiling(n - step, step);
    }
  }

  /** The vectors one adjacent pair of heights contributes: one `[1, 0]`
      for a level pair; for an uneven pair, vertical steps of
      `step * sign(delta)`, `ceil(|delta| / step)` of them for a positive
      step and none for a negative one. */
  function PairVectors(left: int, point: int, step: int): (r: seq<Vec2>)
    ensures left == point ==> r == [Right]
    ensures left != point ==> forall k :: 0 <= k < |r| ==> r[k] == Vec2(0, step * Sign(point - left))
    ensures left != point && step > 0 ==> |r| * step >= Abs(point - left) && (|r| - 1) * step < Abs(point - left)
    ensures left != point && step < 0 ==> r == []
  {
    var delta := point - left;
    if delta == 0 then [Right]
    else if step > 0 then
      ExtraCountIsCeiling(Abs(delta), step);
      Repeat(Vec2(0, step * Sign(delta)), ExtraCount(Abs(delta), step))
    else Repeat(Vec2(0, step * Sign(delta)), 0)
  }

  /** The vectors the adjacent pairs among the first `k` heights
      contribute, pair by pair. */
  function Steps(heights: seq<int>, k: nat, step: int): (r: seq<Vec2>)
    requires k <= |heights|
    ensures forall j :: 0 <= j < |r| ==> r[j] == Right || (r[j].x == 0 && (r[j].y == step || r[j].y == -step))
    ensures step > 0 && k >= 1 ==> |r| >= k - 1
  {
    if k < 2 then []
    else Steps(heights, k - 1, step) + PairVectors(heights[k - 2], heights[k - 1], step)
  }

  /** A step of 0 makes the inner loop run forever on any uneven pair. */
  predicate Level(heights: seq<int>) {
    forall i :: 1 <= i < |heights| ==> heights[i - 1] == heights[i]
  }

  /** `processHeightMap`: one `[1, 0]` to start, then for each adjacent
      pair either `[1, 0]` (level) or as many vertical steps as it takes to
      cover the height difference. */
  method ProcessHeightMap(heights: seq<int>, step: int) returns (vectors: seq<Vec2>)
    requires step != 0 || Level(heights)
    ensures vectors == [Right] + Steps(heights, |heights|, step)
  {
    vectors := [Right];
    var i := 1;
    while i < |heights|
      invariant 1 <= i && (i <= |heights| || i == 1)
      invariant vectors == [Right] + Steps(heights, if i <= |heights| then i else |heights|, step)
    {
      StepsExtend(heights, i, step);
      vectors := PushPair(vectors, heights[i - 1], heights[i], step);
      i := i + 1;
    }
  }

  /** One more height adds the vectors of its pair at the end. */
  lemma StepsExtend(heights: seq<int>, i: nat, step: int)
    requires 1 <= i < |heights| && (step != 0 || Level(heights))
    ensures [Right] + Steps(heights, i + 1, step)
            == ([Right] + Steps(heights, i, step)) + PairVectors(heights[i - 1], heights[i], step)
    ensures step != 0 || heights[i - 1] == heights[i]
  {
    var a, b, c := [Right], Steps(heights, i, step), PairVectors(heights[i - 1], heights[i], step);
    assert a + (b + c) == (a + b) + c;
  }

  /** The body of the outer loop for the pair `left`, `point`. */
  method PushPair(vs: seq<Vec2>, left: int, point: int, step: int) returns (vectors: seq<Vec2>)
    requires step != 0 || left == point
    ensures vectors == vs + PairVectors(left, point, step)
  {
    var delta := point - left;
    if delta == 0 {
      vectors := vs + [Right];
    } else {
      var n := Abs(delta);
      var up := Vec2(0, step * Sign(delta));
      vectors := vs;
      var v := 0;
      while BelowQuotient(v, n, step)
        invariant 0 <= v
        invariant step > 0 ==> v + ExtraCount(n - v * step, step) == ExtraCount(n, step)
        invariant step < 0 ==> v == 0
        invariant vectors == vs + Repeat(up, v)
        decreases if step > 0 then n - v * step else 0
      {
        CountStep(n, step, v);
        assert vs + (Repeat(up, v) + [up]) == (vs + Repeat(up, v)) + [up];
        vectors := vectors + [up];
        v := v + 1;
      }
    }
  }

  /** One more pass of the inner loop uses up one step of the distance. */
  lemma CountStep(n: int, step: int, v: int)
    requires step > 0 ==> v * step < n
    ensures step > 0 ==> (v + 1) * step == v * step + step
    ensures step > 0 ==> ExtraCount(n - v * step, step) == 1 + ExtraCount(n - (v + 1) * step, step)
  {
  }

  function SumX(vs: seq<Vec2>): int {
    if vs == [] then 0 else SumX(vs[..|vs| - 1]) + vs[|vs| - 1].x
  }

  function SumY(vs: seq<Vec2>): int {
    if vs == [] then 0 else SumY(vs[..|vs| - 1]) + vs[|vs| - 1].y
  }

  /** Number of level adjacent pairs among the first `k` heights. */
  function LevelPairs(heights: seq<int>, k: nat): nat
    requires k <= |heights|
  {
    if k < 2 then 0
    else LevelPairs(heights, k - 1) + (if heights[k - 2] == heights[k - 1] then 1 else 0)
  }

  lemma {:induction false} SumAppend(a: seq<Vec2>, b: seq<Vec2>)
    ensures SumX(a + b) == SumX(a) + SumX(b)
    ensures SumY(a + b) == SumY(a) + SumY(b)
    decreases |b|
  {
    if b != [] {
      var b' := b[..|b| - 1];
      assert (a + b)[..|a + b| - 1] == a + b';
      SumAppend(a, b');
    } else {
      assert a + b == a;
    }
  }

  lemma {:induction false} SumRepeat(v: Vec2, n: nat)
    ensures SumX(Repeat(v, n)) == n * v.x
    ensures SumY(Repeat(v, n)) == n * v.y
  {
    if n > 0 {
      var r := Repeat(v, n);
      assert r[..n - 1] == Repeat(v, n - 1);
      SumRepeat(v, n - 1);
    }
  }

  /** Every vertical step has x = 0, so the x components count the level
      pairs, whatever the step. */
  lemma {:induction false} StepsSumX(heights: seq<int>, k: nat, step: int)
    requires k <= |heights|
    ensures SumX(Steps(heights, k, step)) == LevelPairs(heights, k)
  {
    if k >= 2 {
      var a := heights[k - 2];
      var b := heights[k - 1];
      StepsSumX(heights, k - 1, step);
      SumAppend(Steps(heights, k - 1, step), PairVectors(a, b, step));
      if a != b {
        var p := PairVectors(a, b, step);
        SumRepeat(Vec2(0, step * Sign(b - a)), |p|);
        assert p == Repeat(Vec2(0, step * Sign(b - a)), |p|);
      }
    }
  }

  /** With a unit step, a pair with difference `d` contributes `|d|` steps
      of `sign(d)`, so it climbs exactly `d`. */
  lemma UnitPairClimbs(a: int, b: int)
    ensures SumY(PairVectors(a, b, 1)) == b - a
  {
    var p := PairVectors(a, b, 1);
    if a != b {
      SumRepeat(Vec2(0, Sign(b - a)), |p|);
      assert p == Repeat(Vec2(0, Sign(b - a)), |p|);
    }
  }

  /** With a unit step the y components add up to the height reached
      minus the first height. */
  lemma {:induction false} StepsSumY(heights: seq<int>, k: nat)
    requires 1 <= k <= |heights|
    ensures SumY(Steps(heights, k, 1)) == heights[k - 1] - heights[0]
  {
    if k >= 2 {
      StepsSumY(heights, k - 1);
      SumAppend(Steps(heights, k - 1, 1), PairVectors(heights[k - 2], heights[k - 1], 1));
      UnitPairClimbs(heights[k - 2], heights[k - 1]);
    }
  }

  /** The whole result of `processHeightMap` with a unit step: its x
      components are 1 plus the number of level pairs, its y components the
      total climb. */
  lemma UnitHeightMapSums(heights: seq<int>)
    requires |heights| >= 1
    ensures SumX([Right] + Steps(heights, |heights|, 1)) == 1 + LevelPairs(heights, |heights|)
    ensures SumY([Right] + Steps(heights, |heights|, 1)) == heights[|heights| - 1] - heights[0]
  {
    SumAppend([Right], Steps(heights, |heights|, 1));
    assert [Right][..0] == [];
    StepsSumX(heights, |heights|, 1);
    StepsSumY(heights, |heights|);
  }

  /** Fewer than two heights give no pairs, so the result is the lone
      starting `[1, 0]`. */
  lemma ShortHeightMap(heights: seq<int>, step: int)
    requires |heights| < 2
    ensures [Right] + Steps(heights, |heights|, step) == [Right]
  {
  }

  // ---------------------------------------------------------------------
  // drawLine

  /** `textLine.slice(i * chunkSize, (i + 1) * chunkSize)` with a chunk
      size of 5, for a start inside the line: `slice` stops at the end of
      the string. */
  function ChunkAt(text: string, i: nat): (r: string)
    requires i * 5 < |text|
    ensures 0 < |r| <= 5
    ensures (i + 1) * 5 <= |text| ==> |r| == 5
    ensures (i + 1) * 5 > |text| ==> |r| == |text| - i * 5
  {
    var start := i * 5;
    var end := if (i + 1) * 5 <= |text| then (i + 1) * 5 else |text|;
    text[start..end]
  }

  /** How many chunks the loop draws: `ceil(len / 5)`. */
  function ChunkCount(len: nat): (r: nat)
    ensures r * 5 >= len && (r > 0 ==> (r - 1) * 5 < len)
  {
    (len + 4) / 5
  }

  /** `VECTORS[i] ?? [1, 0]`. */
  function VectorAt(vectors: seq<Vec2>, i: nat): Vec2 {
    if i < |vectors| then vectors[i] else Right
  }

  /** The running vector after the first `k` chunks. */
  function Prefix(vectors: seq<Vec2>, k: nat): Vec2 {
    if k == 0 then Vec2(0, 0)
    else
      var p := Prefix(vectors, k - 1);
      var v := VectorAt(vectors, k - 1);
      Vec2(p.x + v.x, p.y + v.y)
  }

  /** Where the line is centred: the `translate` applied before the chunks. */
  datatype Origin = Origin(x: real, y: real, z: real)

  /** One `text(chunk)` call, at the offset it is translated to. */
  datatype Placement = Placement(chunk: string, x: real, y: real)

  /** `-((len - 1) * spacing / chunkSize) / 2`, the horizontal shift meant
      to centre the line. */
  function CentreX(len: nat, spacing: real): real {
    -(((len - 1) as real) * spacing / 5.0) / 2.0
  }

  /** Chunk i, translated by the running vector after `i + 1` vectors:
      `spacing` per unit across and 30 per unit up (the screen's y grows
      downward). */
  function PlacementAt(text: string, spacing: real, vectors: seq<Vec2>, i: nat): (r: Placement)
    requires i * 5 < |text|
    ensures i < |vectors| ==>
              r == Placement(ChunkAt(text, i), (SumX(vectors[..i + 1]) as real) * spacing,
                             -(SumY(vectors[..i + 1]) as real) * 30.0)
    ensures i >= |vectors| ==>
              r == Placement(ChunkAt(text, i), ((SumX(vectors) + (i + 1 - |vectors|)) as real) * spacing,
                             -(SumY(vectors) as real) * 30.0)
  {
    var p := Prefix(vectors, i + 1);
    PrefixThroughSum(vectors, i + 1);
    Placement(ChunkAt(text, i), (p.x as real) * spacing, -(p.y as real) * 30.0)
  }

  /** The running vector after chunk i is the prefix through vector i, so
      the position drawn from it is chunk i's placement. */
  lemma PlacementFromRunningVector(text: string, spacing: real, vectors: seq<Vec2>, i: nat, vx: int, vy: int)
    requires i * 5 < |text| && Vec2(vx, vy) == Prefix(vectors, i + 1)
    ensures PlacementAt(text, spacing, vectors, i) == Placement(ChunkAt(text, i), (vx as real) * spacing, -(vy as real) * 30.0)
  {
  }

  /** `drawLine`, without the drawing: the centring offset (with `Z ?? 0`)
      and, for each chunk, its text and position. */
  method DrawLine(textLine: string, spacing: real, vectors: seq<Vec2>, z: Option<real>)
    returns (origin: Origin, placements: seq<Placement>)
    ensures origin == Origin(CentreX(|textLine|, spacing), 0.0, z.GetOr(0.0))
    ensures |placements| == ChunkCount(|textLine|)
    ensures forall i :: 0 <= i < |placements| ==>
              i * 5 < |textLine| && placements[i] == PlacementAt(textLine, spacing, vectors, i)
  {
    origin := Origin(CentreX(|textLine|, spacing), 0.0, z.GetOr(0.0));
    var vx, vy := 0, 0;
    placements := [];
    var i := 0;
    while BelowQuotient(i, |textLine|, 5)
      invariant 0 <= i && (i - 1) * 5 < |textLine|
      invariant |placements| == i
      invariant Vec2(vx, vy) == Prefix(vectors, i)
      invariant forall k :: 0 <= k < i ==>
                  k * 5 < |textLine| && placements[k] == PlacementAt(textLine, spacing, vectors, k)
      decreases |textLine| - i * 5
    {
      var chunk := ChunkAt(textLine, i);
      var newVector := VectorAt(vectors, i);
      vx := vx + newVector.x;
      vy := vy + newVector.y;
      var x := (vx as real) * spacing;
      var y := -(vy as real) * 30.0;
      PlacementFromRunningVector(textLine, spacing, vectors, i, vx, vy);
      placements := placements + [Placement(chunk, x, y)];
      i := i + 1;
    }
  }

  function Join(chunks: seq<string>): string {
    if chunks == [] then [] else Join(chunks[..|chunks| - 1]) + chunks[|chunks| - 1]
  }

  /** The chunks of a line, in order. */
  function Chunks(text: string): (r: seq<string>)
    ensures |r| == ChunkCount(|text|)
  {
    seq(ChunkCount(|text|), i requires 0 <= i < ChunkCount(|text|) => ChunkAt(text, i))
  }

  /** The first `k` chunks, put back together, are the first `5k`
      characters of the line (or all of it). */
  lemma {:induction false} JoinChunks(text: string, k: nat)
    requires k <= ChunkCount(|text|)
    ensures Join(Chunks(text)[..k]) == text[..if k * 5 <= |text| then k * 5 else |text|]
  {
    if k > 0 {
      var cs := Chunks(text);
      assert cs[..k][..k - 1] == cs[..k - 1];
      JoinChunks(text, k - 1);
      var start := (k - 1) * 5;
      var end := if k * 5 <= |text| then k * 5 else |text|;
      assert cs[k - 1] == text[start..end];
      assert text[..start] + text[start..end] == text[..end];
    }
  }

  /** Cutting a line into chunks loses and adds nothing. */
  lemma ChunksJoinToLine(text: string)
    ensures Join(Chunks(text)) == text
  {
    var cs := Chunks(text);
    JoinChunks(text, |cs|);
    assert cs[..|cs|] == cs;
    assert text[..|text|] == text;
  }

  /** Once the vectors run out each further chunk moves one unit right and
      none up. */
  lemma {:induction false} PrefixPastEnd(vectors: seq<Vec2>, k: nat)
    requires k >= |vectors|
    ensures Prefix(vectors, k) == Vec2(Prefix(vectors, |vectors|).x + (k - |vectors|), Prefix(vectors, |vectors|).y)
  {
    if k > |vectors| {
      PrefixPastEnd(vectors, k - 1);
    }
  }

  /** The running vector after all the given vectors is their sum. */
  lemma {:induction false} PrefixIsSum(vectors: seq<Vec2>, k: nat)
    requires k <= |vectors|
    ensures Prefix(vectors, k) == Vec2(SumX(vectors[..k]), SumY(vectors[..k]))
  {
    if k > 0 {
      PrefixIsSum(vectors, k - 1);
      assert vectors[..k][..k - 1] == vectors[..k - 1];
    }
  }

  /** The running vector after `k` chunks: the sum of the first `k`
      vectors, plus one unit right for each chunk past their end. */
  lemma PrefixThroughSum(vectors: seq<Vec2>, k: nat)
    ensures k <= |vectors| ==> Prefix(vectors, k) == Vec2(SumX(vectors[..k]), SumY(vectors[..k]))
    ensures k > |vectors| ==> Prefix(vectors, k) == Vec2(SumX(vectors) + (k - |vectors|), SumY(vectors))
  {
    if k <= |vectors| {
      PrefixIsSum(vectors, k);
    } else {
      PrefixPastEnd(vectors, k);
      PrefixIsSum(vectors, |vectors|);
      assert vectors[..|vectors|] == vectors;
    }
  }
}
