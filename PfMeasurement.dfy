/** The measurement model (pfMeasurement.c): odometry propagation of the tag
    ensemble, 3-sigma gating of range readings against the tag alone, and the
    joint update that gates every beacon particle against its own tag
    particle and folds each row's weight into that tag particle. */
module PfMeasurement {
  import opened MathLib
  import opened Particles

  /** VIO_STD_XYZ and VIO_STD_THETA: the odometry noise per unit of
      travelled distance and per unit of elapsed time, before the square root. */
  const VioStdXyz: real := 0.001
  const VioStdTheta: real := 0.000001

  /** MIN_WEIGHT(range): the factor a gated weight is multiplied by. */
  function MinWeight(range: real): (r: real)
    ensures 0.0 < r < 1.0
    ensures r == 0.1 <==> range < 3.0
    ensures 3.0 <= range ==> r == 0.5
  {
    if range < 3.0 then 0.1 else 0.5
  }

  /** sqrtf(dx * dx + dy * dy + dz * dz) */
  function Distance(m: Libm, dx: real, dy: real, dz: real): real {
    m.sqrt(dx * dx + dy * dy + dz * dz)
  }

  /** The 3-sigma gate: the predicted range differs from the reading by
      more than three standard deviations. */
  predicate OutsideGate(m: Libm, dx: real, dy: real, dz: real, range: real, std: real) {
    Abs(Distance(m, dx, dy, dz) - range) > 3.0 * std
  }

  /** A tag particle is gated against a beacon at a known position. */
  predicate TagGated(m: Libm, p: TagParticle, bcnX: real, bcnY: real, bcnZ: real, range: real, std: real) {
    OutsideGate(m, p.x - bcnX, p.y - bcnY, p.z - bcnZ, range, std)
  }

  /** A beacon particle is gated against the tag particle of its row. */
  predicate BcnGated(m: Libm, bp: BcnParticle, tp: TagParticle, range: real, std: real) {
    OutsideGate(m, tp.x - bp.x, tp.y - bp.y, tp.z - bp.z, range, std)
  }

  /** The weight rule shared by both updates: a gated weight is scaled by
      MIN_WEIGHT(range), any other weight is kept. */
  function GateWeight(w: real, gated: bool, range: real): (r: real)
    ensures !gated ==> r == w
    ensures w != 0.0 ==> (r != w <==> gated)
    ensures 0.0 < w ==> 0.0 < r <= w
    ensures 0.0 <= w ==> w * MinWeight(range) <= r
  {
    if gated then w * MinWeight(range) else w
  }

  // ---------------------------------------------------------------------
  // pfMeasurement_applyVio

  /** The standard deviations of the position and heading noise for an
      interval that travelled `ddist` in time `dt`. */
  function StdXyz(m: Libm, ddist: real): real { m.sqrt(ddist) * VioStdXyz }
  function StdTheta(m: Libm, dt: real): real { m.sqrt(dt) * VioStdTheta }

  /** One tag particle after an odometry interval with position and heading
      noise scales `stdXyz` and `stdTheta`: the displacement (dx, dy) rotated
      by the particle's own heading plus noise, the vertical displacement
      plus noise, and the heading plus noise reduced by fmodf. The weight is
      kept. */
  function Propagated(p: TagParticle, m: Libm, stdXyz: real, stdTheta: real, dx: real, dy: real, dz: real,
                      r: NormalDraws): (q: TagParticle)
    ensures q.w == p.w
  {
    var c, s := m.cos(p.theta), m.sin(p.theta);
    TagParticle(p.w,
      p.x + (RotatedX(dx, dy, c, s) + stdXyz * r.dx),
      p.y + (RotatedY(dx, dy, c, s) + stdXyz * r.dy),
      p.z + (dz + stdXyz * r.dz),
      NoisyHeading(m, p.theta, stdTheta, r.dtheta))
  }

  /** The odometry displacement (dx, dy) rotated by the angle whose cosine
      is `c` and whose sine is `s`. */
  function RotatedX(dx: real, dy: real, c: real, s: real): real { dx * c - dy * s }
  function RotatedY(dx: real, dy: real, c: real, s: real): real { dx * s + dy * c }

  /** fmodf(theta + stdTheta * rtheta, 2 * (float)M_PI) */
  function NoisyHeading(m: Libm, theta: real, stdTheta: real, rtheta: real): real {
    m.fmod(theta + stdTheta * rtheta, TwoPi)
  }

  /** Propagates every tag particle once, in index order, with the draws
      `noise(i)` for particle `i` and the noise scales of the interval. */
  method ApplyVio(tag: array<TagParticle>, m: Libm, dt: real, dx: real, dy: real, dz: real, ddist: real,
                  noise: nat -> NormalDraws)
    modifies tag
    ensures forall i :: 0 <= i < tag.Length ==>
      tag[i] == Propagated(old(tag[i]), m, StdXyz(m, ddist), StdTheta(m, dt), dx, dy, dz, noise(i))
  {
    var stdXyz := m.sqrt(ddist) * VioStdXyz;
    var stdTheta := m.sqrt(dt) * VioStdTheta;
    var i := 0;
    while i < tag.Length
      invariant 0 <= i <= tag.Length
      invariant forall k :: 0 <= k < i ==>
        tag[k] == Propagated(old(tag[k]), m, stdXyz, stdTheta, dx, dy, dz, noise(k))
      invariant forall k :: i <= k < tag.Length ==> tag[k] == old(tag[k])
    {
      tag[i] := Propagated(tag[i], m, stdXyz, stdTheta, dx, dy, dz, noise(i));
      i := i + 1;
    }
  }

  /** Every propagated heading lies in (-2pi, 2pi), and has the sign of the
      heading plus its noise: fmodf does not wrap negative headings into
      [0, 2pi). */
  lemma PropagatedHeading(p: TagParticle, m: Libm, stdXyz: real, stdTheta: real, dx: real, dy: real, dz: real,
                          r: NormalDraws)
    requires Lawful(m)
    ensures var q := Propagated(p, m, stdXyz, stdTheta, dx, dy, dz, r);
      && -TwoPi < q.theta < TwoPi
      && (0.0 <= p.theta + stdTheta * r.dtheta ==> 0.0 <= q.theta)
      && (p.theta + stdTheta * r.dtheta <= 0.0 ==> q.theta <= 0.0)
  {
    FModFRange(p.theta + stdTheta * r.dtheta, TwoPi);
  }

  /** Rotating (dx, dy) by an angle whose cosine and sine lie on the unit
      circle keeps its length. */
  lemma RotationKeepsLength(dx: real, dy: real, c: real, s: real)
    requires c * c + s * s == 1.0
    ensures RotatedX(dx, dy, c, s) * RotatedX(dx, dy, c, s) + RotatedY(dx, dy, c, s) * RotatedY(dx, dy, c, s)
      == dx * dx + dy * dy
  {
    calc {
      (dx * c - dy * s) * (dx * c - dy * s) + (dx * s + dy * c) * (dx * s + dy * c);
      == (dx * dx) * (c * c) + (dy * dy) * (s * s) + (dx * dx) * (s * s) + (dy * dy) * (c * c);
      == (dx * dx) * (c * c + s * s) + (dy * dy) * (c * c + s * s);
      == dx * dx + dy * dy;
    }
  }

  /** Without noise a particle moves by the odometry displacement rotated by
      its own heading, so its horizontal step is as long as the odometry's,
      its weight is kept and its heading is only reduced by fmodf. */
  lemma NoiselessMove(p: TagParticle, m: Libm, stdXyz: real, stdTheta: real, dx: real, dy: real, dz: real)
    requires Lawful(m)
    ensures var q := Propagated(p, m, stdXyz, stdTheta, dx, dy, dz, NormalDraws(0.0, 0.0, 0.0, 0.0));
      && q.w == p.w
      && q.x == p.x + (dx * m.cos(p.theta) - dy * m.sin(p.theta))
      && q.y == p.y + (dx * m.sin(p.theta) + dy * m.cos(p.theta))
      && q.z == p.z + dz
      && q.theta == m.fmod(p.theta, TwoPi)
      && (q.x - p.x) * (q.x - p.x) + (q.y - p.y) * (q.y - p.y) == dx * dx + dy * dy
  {
    var q := Propagated(p, m, stdXyz, stdTheta, dx, dy, dz, NormalDraws(0.0, 0.0, 0.0, 0.0));
    var c, s := m.cos(p.theta), m.sin(p.theta);
    assert q.x - p.x == dx * c - dy * s;
    assert q.y - p.y == dx * s + dy * c;
    RotationKeepsLength(dx, dy, c, s);
  }

  /** An interval with no elapsed time and no motion leaves a particle whose
      heading is inside (-2pi, 2pi) exactly as it was, whatever the draws. */
  lemma StillIntervalKeepsParticle(p: TagParticle, m: Libm, r: NormalDraws)
    requires Lawful(m)
    requires -TwoPi < p.theta < TwoPi
    ensures Propagated(p, m, StdXyz(m, 0.0), StdTheta(m, 0.0), 0.0, 0.0, 0.0, r) == p
  {
    assert StdXyz(m, 0.0) == 0.0 && StdTheta(m, 0.0) == 0.0;
    FModFRange(p.theta, TwoPi);
  }

  // ---------------------------------------------------------------------
  // pfMeasurement_applyRange

  /** One tag particle after a range reading from a beacon at a known
      position: only the weight may change, exactly when the particle is
      gated, and a positive weight stays positive and does not grow. */
  function RangeWeighted(p: TagParticle, m: Libm, bcnX: real, bcnY: real, bcnZ: real, range: real, std: real)
    : (r: TagParticle)
    ensures r.x == p.x && r.y == p.y && r.z == p.z && r.theta == p.theta
    ensures p.w != 0.0 ==> (r.w != p.w <==> TagGated(m, p, bcnX, bcnY, bcnZ, range, std))
    ensures 0.0 < p.w ==> 0.0 < r.w <= p.w
  {
    p.(w := GateWeight(p.w, TagGated(m, p, bcnX, bcnY, bcnZ, range, std), range))
  }

  /** Reweights every tag particle against a beacon at a known position. */
  method ApplyRange(tag: array<TagParticle>, m: Libm, bcnX: real, bcnY: real, bcnZ: real, range: real, std: real)
    modifies tag
    ensures forall i :: 0 <= i < tag.Length ==>
      tag[i] == RangeWeighted(old(tag[i]), m, bcnX, bcnY, bcnZ, range, std)
  {
    var i := 0;
    while i < tag.Length
      invariant 0 <= i <= tag.Length
      invariant forall k :: 0 <= k < i ==> tag[k] == RangeWeighted(old(tag[k]), m, bcnX, bcnY, bcnZ, range, std)
      invariant forall k :: i <= k < tag.Length ==> tag[k] == old(tag[k])
    {
      var tp := tag[i];
      var pRange := Distance(m, tp.x - bcnX, tp.y - bcnY, tp.z - bcnZ);
      if Abs(pRange - range) > 3.0 * std {
        tag[i] := tp.(w := tp.w * MinWeight(range));
      }
      i := i + 1;
    }
  }

  // ---------------------------------------------------------------------
  // pfMeasurement_applyRangeSlam

  /** One beacon particle after a range reading, gated against the tag
      particle of its row: only the weight may change, exactly when gated. */
  function GatedBcn(bp: BcnParticle, tp: TagParticle, m: Libm, range: real, std: real): (r: BcnParticle)
    ensures r.x == bp.x && r.y == bp.y && r.z == bp.z
    ensures bp.w != 0.0 ==> (r.w != bp.w <==> BcnGated(m, bp, tp, range, std))
    ensures 0.0 < bp.w ==> 0.0 < r.w <= bp.w
  {
    bp.(w := GateWeight(bp.w, BcnGated(m, bp, tp, range, std), range))
  }

  /** A whole row of beacon particles gated against one tag particle. */
  function GatedRow(row: seq<BcnParticle>, tp: TagParticle, m: Libm, range: real, std: real)
    : (r: seq<BcnParticle>)
    ensures |r| == |row|
  {
    if row == [] then []
    else GatedRow(row[..|row| - 1], tp, m, range, std) + [GatedBcn(row[|row| - 1], tp, m, range, std)]
  }

  /** Cell `j` of a gated row is cell `j` of the row, gated. */
  lemma {:induction false} GatedRowAt(row: seq<BcnParticle>, tp: TagParticle, m: Libm, range: real, std: real, j: nat)
    requires j < |row|
    ensures GatedRow(row, tp, m, range, std)[j] == GatedBcn(row[j], tp, m, range, std)
  {
    var n := |row| - 1;
    if j < n {
      GatedRowAt(row[..n], tp, m, range, std, j);
    }
  }

  /** Tag particle `tp` after the joint update with its beacon row `row`:
      its weight is multiplied by the sum of the gated row's weights, and
      its pose is kept. */
  function SlamWeighted(tp: TagParticle, row: seq<BcnParticle>, m: Libm, range: real, std: real): (r: TagParticle)
    ensures r.x == tp.x && r.y == tp.y && r.z == tp.z && r.theta == tp.theta
  {
    tp.(w := tp.w * Sum(GatedRow(row, tp, m, range, std), BcnWeight))
  }

  /** The inner loop of the joint update: gates row `i` of the grid against
      `tp` and returns the sum of the row's new weights; every other row is
      left alone. */
  method GateRow(grid: array2<BcnParticle>, i: nat, tp: TagParticle, m: Libm, range: real, std: real)
    returns (bcnSum: real)
    requires i < grid.Length0
    modifies grid
    ensures forall j :: 0 <= j < grid.Length1 ==> grid[i, j] == GatedBcn(old(grid[i, j]), tp, m, range, std)
    ensures bcnSum == Sum(Row(grid, i), BcnWeight)
    ensures forall k, j :: 0 <= k < grid.Length0 && k != i && 0 <= j < grid.Length1 ==>
      grid[k, j] == old(grid[k, j])
  {
    ghost var done: seq<BcnParticle> := [];
    bcnSum := 0.0;
    var j := 0;
    while j < grid.Length1
      invariant 0 <= j <= grid.Length1 && |done| == j
      invariant forall l :: 0 <= l < j ==> grid[i, l] == done[l]
      invariant forall l :: 0 <= l < j ==> grid[i, l] == GatedBcn(old(grid[i, l]), tp, m, range, std)
      invariant forall l :: j <= l < grid.Length1 ==> grid[i, l] == old(grid[i, l])
      invariant forall k, l :: 0 <= k < grid.Length0 && k != i && 0 <= l < grid.Length1 ==>
        grid[k, l] == old(grid[k, l])
      invariant bcnSum == Sum(done, BcnWeight)
    {
      GateCell(grid, i, j, tp, m, range, std);
      ghost var prev := done;
      done := done + [grid[i, j]];
      assert done[..j] == prev;
      bcnSum := bcnSum + grid[i, j].w;
      j := j + 1;
    }
    assert done == Row(grid, i);
  }

  /** The body of the inner loop: gates cell (i, j) against `tp`. */
  method GateCell(grid: array2<BcnParticle>, i: nat, j: nat, tp: TagParticle, m: Libm, range: real, std: real)
    requires i < grid.Length0 && j < grid.Length1
    modifies grid
    ensures grid[i, j] == GatedBcn(old(grid[i, j]), tp, m, range, std)
    ensures forall k, l :: 0 <= k < grid.Length0 && 0 <= l < grid.Length1 && (k != i || l != j) ==>
      grid[k, l] == old(grid[k, l])
  {
    var bp := grid[i, j];
    var pRange := Distance(m, tp.x - bp.x, tp.y - bp.y, tp.z - bp.z);
    if Abs(pRange - range) > 3.0 * std {
      grid[i, j] := bp.(w := bp.w * MinWeight(range));
    }
  }

  /** A row whose every cell is the gated cell of another row is that row,
      gated. */
  lemma GatedRowFromCells(before: seq<BcnParticle>, after: seq<BcnParticle>, tp: TagParticle, m: Libm,
                          range: real, std: real)
    requires |after| == |before|
    requires forall j :: 0 <= j < |before| ==> after[j] == GatedBcn(before[j], tp, m, range, std)
    ensures after == GatedRow(before, tp, m, range, std)
  {
    var gated := GatedRow(before, tp, m, range, std);
    forall j | 0 <= j < |before|
      ensures after[j] == gated[j]
    {
      GatedRowAt(before, tp, m, range, std, j);
    }
  }

  /** One pass of the outer loop of the joint update: row `i` is gated
      against tag particle `i`, whose weight is then multiplied by the sum of
      the row's new weights. */
  method SlamRow(tag: array<TagParticle>, grid: array2<BcnParticle>, i: nat, m: Libm, range: real, std: real)
    requires i < tag.Length == grid.Length0
    modifies tag, grid
    ensures forall j :: 0 <= j < grid.Length1 ==> grid[i, j] == GatedBcn(old(grid[i, j]), old(tag[i]), m, range, std)
    ensures forall k, j :: 0 <= k < grid.Length0 && k != i && 0 <= j < grid.Length1 ==>
      grid[k, j] == old(grid[k, j])
    ensures tag[i] == SlamWeighted(old(tag[i]), old(Row(grid, i)), m, range, std)
    ensures forall k :: 0 <= k < tag.Length && k != i ==> tag[k] == old(tag[k])
  {
    var tp := tag[i];
    ghost var row := Row(grid, i);
    var bcnSum := GateRow(grid, i, tp, m, range, std);
    GatedRowFromCells(row, Row(grid, i), tp, m, range, std);
    SlamStep(tp, row, bcnSum, m, range, std);
    tag[i] := tp.(w := tp.w * bcnSum);
  }

  /** The joint update: every beacon particle of row `i` is gated against tag
      particle `i`, and tag particle `i`'s weight is multiplied by the sum of
      the row's new weights; no position changes. */
  method ApplyRangeSlam(tag: array<TagParticle>, grid: array2<BcnParticle>, m: Libm, range: real, std: real)
    requires grid.Length0 == tag.Length
    modifies tag, grid
    ensures forall i, j :: 0 <= i < grid.Length0 && 0 <= j < grid.Length1 ==>
      grid[i, j] == GatedBcn(old(grid[i, j]), old(tag[i]), m, range, std)
    ensures forall i :: 0 <= i < tag.Length ==>
      tag[i] == SlamWeighted(old(tag[i]), old(Row(grid, i)), m, range, std)
  {
    ghost var rows := Rows(grid);
    var i := 0;
    while i < tag.Length
      invariant 0 <= i <= tag.Length
      invariant forall k, j :: 0 <= k < i && 0 <= j < grid.Length1 ==>
        grid[k, j] == GatedBcn(old(grid[k, j]), old(tag[k]), m, range, std)
      invariant forall k, j :: i <= k < grid.Length0 && 0 <= j < grid.Length1 ==> grid[k, j] == old(grid[k, j])
      invariant forall k :: 0 <= k < i ==> tag[k] == SlamWeighted(old(tag[k]), rows[k], m, range, std)
      invariant forall k :: i <= k < tag.Length ==> tag[k] == old(tag[k])
    {
      assert Row(grid, i) == rows[i];
      SlamRow(tag, grid, i, m, range, std);
      i := i + 1;
    }
  }

  /** Multiplying a tag particle's weight by the sum of its gated row is
      the joint update of that particle. */
  lemma SlamStep(tp: TagParticle, row: seq<BcnParticle>, bcnSum: real, m: Libm, range: real, std: real)
    requires bcnSum == Sum(GatedRow(row, tp, m, range, std), BcnWeight)
    ensures tp.(w := tp.w * bcnSum) == SlamWeighted(tp, row, m, range, std)
  {}

  /** The sum of a gated row's weights lies between MIN_WEIGHT(range) times
      and once the sum before gating, when no weight is negative. */
  lemma {:induction false} GatedRowSumBounds(row: seq<BcnParticle>, tp: TagParticle, m: Libm, range: real, std: real)
    requires forall k :: 0 <= k < |row| ==> 0.0 <= row[k].w
    ensures Between(Sum(row, BcnWeight), Sum(GatedRow(row, tp, m, range, std), BcnWeight), MinWeight(range), 1.0)
  {
    var gated := GatedRow(row, tp, m, range, std);
    if row != [] {
      var n := |row| - 1;
      var init := row[..n];
      assert forall k :: 0 <= k < |init| ==> init[k] == row[k];
      GatedRowSumBounds(init, tp, m, range, std);
      assert gated == GatedRow(init, tp, m, range, std) + [GatedBcn(row[n], tp, m, range, std)];
      assert gated[..n] == GatedRow(init, tp, m, range, std);
      var w := row[n].w;
      var factor := if BcnGated(m, row[n], tp, range, std) then MinWeight(range) else 1.0;
      assert gated[n].w == w * factor;
      BetweenStep(Sum(init, BcnWeight), Sum(gated[..n], BcnWeight), w, factor, MinWeight(range), 1.0,
        Sum(row, BcnWeight), Sum(gated, BcnWeight));
    }
  }

  /** A tag particle of positive weight whose non-empty beacon row has only
      positive weights keeps a positive weight through the joint update. */
  lemma SlamKeepsWeightPositive(row: seq<BcnParticle>, tp: TagParticle, m: Libm, range: real, std: real)
    requires 0.0 < tp.w && |row| > 0
    requires forall k :: 0 <= k < |row| ==> 0.0 < row[k].w
    ensures 0.0 < SlamWeighted(tp, row, m, range, std).w
  {
    var gated := GatedRow(row, tp, m, range, std);
    forall k | 0 <= k < |gated|
      ensures 0.0 < BcnWeight(gated[k])
    {
      GatedRowAt(row, tp, m, range, std, k);
    }
    SumPositive(gated, BcnWeight);
  }
}
