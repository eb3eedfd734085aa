/** The filter itself (particleFilter.c): the odometry accumulator that VIO
    samples are deposited into, the registry of beacons heard so far, the
    update on each range reading, and the two weighted-mean queries. */
module ParticleFilter {
  import opened MathLib
  import opened Particles
  import opened PfMeasurement
  import opened PfInit

  // ---------------------------------------------------------------------
  // The odometry accumulator

  /** One VIO sample: its time stamp, position and cumulative path length. */
  datatype Sample = Sample(t: real, x: real, y: real, z: real, dist: real)

  /** The accumulator: the snapshot taken at the last range reading (the
      `first*` fields) and the latest sample (the `last*` fields). A `first`
      time of 0 means that no sample has been taken yet. */
  datatype Odometry = Odometry(first: Sample, last: Sample)

  /** The motion accumulated since the last range reading: elapsed time,
      displacement and travelled distance. */
  datatype Motion = Motion(dt: real, dx: real, dy: real, dz: real, ddist: real)

  const Origin: Sample := Sample(0.0, 0.0, 0.0, 0.0, 0.0)
  const NoMotion: Motion := Motion(0.0, 0.0, 0.0, 0.0, 0.0)

  predicate Seeded(o: Odometry) {
    o.first.t != 0.0
  }

  /** The accumulator's path lengths are in order: the length at the last
      sample is at least the length at the last range reading. */
  predicate DistOrdered(o: Odometry) {
    o.first.dist <= o.last.dist
  }

  /** particleFilter_depositVio on the accumulator: an unseeded accumulator
      takes the sample as both snapshots; a seeded one keeps `first`, takes
      the sample as `last`, and advances the path length either to the
      sample's own count, when that grew, or by the straight-line step from
      the previous sample. */
  function Deposited(o: Odometry, s: Sample, m: Libm): (r: Odometry)
    ensures !Seeded(o) ==> r == Odometry(s, s)
    ensures Seeded(o) ==> r.first == o.first
    ensures Seeded(o) ==> r.last.t == s.t && r.last.x == s.x && r.last.y == s.y && r.last.z == s.z
    ensures Seeded(o) && Lawful(m) ==> o.last.dist <= r.last.dist
    ensures Lawful(m) ==> s.dist <= r.last.dist
    ensures Lawful(m) && DistOrdered(o) ==> DistOrdered(r)
  {
    if !Seeded(o) then Odometry(s, s)
    else
      var dist := if s.dist > o.last.dist then s.dist
                  else o.last.dist + StepLength(m, o.last, s);
      Odometry(o.first, s.(dist := dist))
  }

  /** sqrtf of the squared step between two samples. */
  function StepLength(m: Libm, a: Sample, b: Sample): (r: real)
    ensures Lawful(m) ==> 0.0 <= r
  {
    SquaresNonNegative(b.x - a.x, b.y - a.y, b.z - a.z);
    Distance(m, b.x - a.x, b.y - a.y, b.z - a.z)
  }

  lemma SquaresNonNegative(dx: real, dy: real, dz: real)
    ensures 0.0 <= dx * dx + dy * dy + dz * dz
  {}

  /** Depositing a sequence of samples, oldest first. */
  function DepositAll(o: Odometry, ss: seq<Sample>, m: Libm): Odometry {
    if ss == [] then o else Deposited(DepositAll(o, ss[..|ss| - 1], m), ss[|ss| - 1], m)
  }

  /** Once seeded, the accumulator keeps its `first` snapshot and its path
      length never decreases, whatever samples are deposited. */
  lemma {:induction false} SeededDepositsKeepFirst(o: Odometry, ss: seq<Sample>, m: Libm)
    requires Seeded(o) && Lawful(m)
    ensures DepositAll(o, ss, m).first == o.first
    ensures o.last.dist <= DepositAll(o, ss, m).last.dist
  {
    if ss != [] {
      SeededDepositsKeepFirst(o, ss[..|ss| - 1], m);
    }
  }

  /** Depositing samples keeps the path lengths in order, so the distance
      handed to the propagation step is never negative. */
  lemma {:induction false} DepositsKeepDistOrdered(o: Odometry, ss: seq<Sample>, m: Libm)
    requires Lawful(m) && DistOrdered(o)
    ensures DistOrdered(DepositAll(o, ss, m))
    ensures 0.0 <= Pending(DepositAll(o, ss, m)).ddist
  {
    if ss != [] {
      DepositsKeepDistOrdered(o, ss[..|ss| - 1], m);
    }
  }

  /** When the supplied path lengths never decrease, neither does the
      accumulator's `last` path length, from the first sample on, whether or
      not the accumulator is seeded yet. */
  lemma MonotonePathLengthStep(o: Odometry, ss: seq<Sample>, m: Libm, i: nat)
    requires Lawful(m)
    requires forall k :: 0 < k < |ss| ==> ss[k - 1].dist <= ss[k].dist
    requires 0 < i < |ss|
    ensures DepositAll(o, ss[..i], m).last.dist <= DepositAll(o, ss[..i + 1], m).last.dist
  {
    var before := DepositAll(o, ss[..i], m);
    assert ss[..i + 1][..i] == ss[..i];
    assert ss[..i][..i - 1] == ss[..i - 1];
    assert before == Deposited(DepositAll(o, ss[..i - 1], m), ss[i - 1], m);
    assert before.last.dist >= ss[i - 1].dist;
  }

  lemma {:induction false} MonotonePathLength(o: Odometry, ss: seq<Sample>, m: Libm, i: nat, j: nat)
    requires Lawful(m)
    requires forall k :: 0 < k < |ss| ==> ss[k - 1].dist <= ss[k].dist
    requires 0 < i <= j <= |ss|
    ensures DepositAll(o, ss[..i], m).last.dist <= DepositAll(o, ss[..j], m).last.dist
  {
    if i < j {
      MonotonePathLength(o, ss, m, i, j - 1);
      MonotonePathLengthStep(o, ss, m, j - 1);
    }
  }

  /** Samples stamped with time 0 never seed the accumulator: the sentinel
      test reads them as "no sample yet". */
  lemma {:induction false} ZeroTimeSamplesDoNotSeed(o: Odometry, ss: seq<Sample>, m: Libm)
    requires !Seeded(o)
    requires forall k :: 0 <= k < |ss| ==> ss[k].t == 0.0
    ensures !Seeded(DepositAll(o, ss, m))
    ensures ss != [] ==> DepositAll(o, ss, m) == Odometry(ss[|ss| - 1], ss[|ss| - 1])
  {
    if ss != [] {
      var init := ss[..|ss| - 1];
      assert forall k :: 0 <= k < |init| ==> init[k] == ss[k];
      ZeroTimeSamplesDoNotSeed(o, init, m);
    }
  }

  /** A sample at time 0 followed by one at time 1 leaves the accumulator
      seeded by the second sample alone: the first is overwritten and no
      motion is pending. */
  lemma TimeZeroSampleIsOverwritten(m: Libm)
    ensures var s0, s1 := Sample(0.0, 0.0, 0.0, 0.0, 0.0), Sample(1.0, 1.0, 0.0, 0.0, 1.0);
      var o := DepositAll(Odometry(Origin, Origin), [s0, s1], m);
      o == Odometry(s1, s1) && Pending(o) == NoMotion
  {
    var s0, s1 := Sample(0.0, 0.0, 0.0, 0.0, 0.0), Sample(1.0, 1.0, 0.0, 0.0, 1.0);
    var o0 := Odometry(Origin, Origin);
    assert [s0, s1][..1] == [s0] && [s0][..0] == [];
    assert DepositAll(o0, [s0], m) == Deposited(o0, s0, m) == Odometry(s0, s0);
    assert DepositAll(o0, [s0, s1], m) == Deposited(Odometry(s0, s0), s1, m) == Odometry(s1, s1);
  }

  /** The motion handed to the propagation step: `last - first`. */
  function Pending(o: Odometry): (r: Motion)
    ensures r == NoMotion <==> o.first == o.last
    ensures 0.0 <= r.ddist <==> DistOrdered(o)
  {
    Motion(o.last.t - o.first.t, o.last.x - o.first.x, o.last.y - o.first.y, o.last.z - o.first.z,
      o.last.dist - o.first.dist)
  }

  /** The accumulator after a range reading: `first := last`. */
  function Consumed(o: Odometry): (r: Odometry)
    ensures r.last == o.last
    ensures Pending(r) == NoMotion
    ensures DistOrdered(r)
  {
    Odometry(o.last, o.last)
  }

  /** A second range reading with no VIO sample in between propagates with
      zero motion, so it leaves every particle whose heading already lies in
      (-2pi, 2pi) exactly where it was, whatever the noise draws. */
  lemma SecondReadingDoesNotMove(o: Odometry, p: TagParticle, m: Libm, r: NormalDraws)
    requires Lawful(m)
    requires -TwoPi < p.theta < TwoPi
    ensures var mv := Pending(Consumed(o));
      Propagated(p, m, StdXyz(m, mv.ddist), StdTheta(m, mv.dt), mv.dx, mv.dy, mv.dz, r) == p
  {
    assert Pending(Consumed(o)) == NoMotion;
    StillIntervalKeepsParticle(p, m, r);
  }

  /** Tag particle `p` after the propagation step of a range reading whose
      accumulated motion is `mv`. */
  function Moved(p: TagParticle, m: Libm, mv: Motion, r: NormalDraws): TagParticle {
    Propagated(p, m, StdXyz(m, mv.ddist), StdTheta(m, mv.dt), mv.dx, mv.dy, mv.dz, r)
  }

  // ---------------------------------------------------------------------
  // Location estimates

  /** What particleFilter_getTagLoc reports. */
  datatype TagLocation = TagLocation(t: real, x: real, y: real, z: real, theta: real)

  /** What particleFilter_getBcnLoc reports. */
  datatype BcnLocation = BcnLocation(t: real, x: real, y: real, z: real)

  /** The tag estimate: the weighted mean position, the heading atan2f of the
      weighted sums of sines and cosines, and the motion pending since the
      last range reading added, rotated by that heading. */
  function TagLoc(ps: seq<TagParticle>, o: Odometry, m: Libm): (r: TagLocation)
    requires 0.0 < Sum(ps, TagWeight)
    ensures r.t == o.last.t
    ensures var s := Sum(ps, TagWeight);
      Pending(o) == NoMotion ==>
        r.x == Sum(ps, TagMoment(X)) / s && r.y == Sum(ps, TagMoment(Y)) / s && r.z == Sum(ps, TagMoment(Z)) / s
  {
    var s := Sum(ps, TagWeight);
    var theta := m.atan2(Sum(ps, TagSinMoment(m)), Sum(ps, TagCosMoment(m)));
    var mv := Pending(o);
    var co, si := m.cos(theta), m.sin(theta);
    assert mv == NoMotion ==> RotatedX(mv.dx, mv.dy, co, si) == 0.0 && RotatedY(mv.dx, mv.dy, co, si) == 0.0;
    TagLocation(o.last.t,
      Sum(ps, TagMoment(X)) / s + RotatedX(mv.dx, mv.dy, co, si),
      Sum(ps, TagMoment(Y)) / s + RotatedY(mv.dx, mv.dy, co, si),
      Sum(ps, TagMoment(Z)) / s + mv.dz,
      theta)
  }

  /** With no pending motion, every coordinate of the tag estimate lies
      within the range its particles span on that axis. */
  lemma TagLocWithinParticles(ps: seq<TagParticle>, o: Odometry, m: Libm, a: Axis, lo: real, hi: real)
    requires forall k :: 0 <= k < |ps| ==> 0.0 <= ps[k].w && lo <= TagCoord(ps[k], a) <= hi
    requires 0.0 < Sum(ps, TagWeight)
    requires Pending(o) == NoMotion
    ensures var loc := TagLoc(ps, o, m);
      lo <= (match a case X => loc.x case Y => loc.y case Z => loc.z) <= hi
  {
    TagMeanBetween(ps, a, lo, hi);
  }

  /** The pending motion moves the horizontal estimate by a step exactly as
      long as the odometry's horizontal displacement, and the vertical
      estimate by the vertical displacement. */
  lemma TagLocAddsPendingMotion(ps: seq<TagParticle>, o: Odometry, m: Libm)
    requires Lawful(m)
    requires 0.0 < Sum(ps, TagWeight)
    ensures var loc, s, mv := TagLoc(ps, o, m), Sum(ps, TagWeight), Pending(o);
      var ex, ey := loc.x - Sum(ps, TagMoment(X)) / s, loc.y - Sum(ps, TagMoment(Y)) / s;
      && ex * ex + ey * ey == mv.dx * mv.dx + mv.dy * mv.dy
      && loc.z - Sum(ps, TagMoment(Z)) / s == mv.dz
  {
    var theta := TagLoc(ps, o, m).theta;
    var mv := Pending(o);
    RotationKeepsLength(mv.dx, mv.dy, m.cos(theta), m.sin(theta));
  }

  /** The freshly initialised ensemble, with nothing pending, is estimated
      at the origin; its total weight is the number of particles. */
  lemma InitialTagLoc(ps: seq<TagParticle>, o: Odometry, m: Libm)
    requires |ps| > 0
    requires forall k :: 0 <= k < |ps| ==> ps[k] == SpawnTagParticle()
    requires Pending(o) == NoMotion
    ensures Sum(ps, TagWeight) == |ps| as real
    ensures var loc := TagLoc(ps, o, m); loc.x == 0.0 && loc.y == 0.0 && loc.z == 0.0
  {
    InitialEnsemble(ps, X);
    InitialEnsemble(ps, Y);
    InitialEnsemble(ps, Z);
  }

  /** The particle that stands for row `i` in the beacon estimate: the tag
      particle's weight, and the weighted mean position of the row. */
  function RowMean(tp: TagParticle, row: seq<BcnParticle>): (r: BcnParticle)
    requires 0.0 < Sum(row, BcnWeight)
    ensures r.w == tp.w
  {
    var s := Sum(row, BcnWeight);
    BcnParticle(tp.w, Sum(row, BcnMoment(X)) / s, Sum(row, BcnMoment(Y)) / s, Sum(row, BcnMoment(Z)) / s)
  }

  /** The row means of a whole grid. */
  function RowMeans(tags: seq<TagParticle>, rows: seq<seq<BcnParticle>>): (r: seq<BcnParticle>)
    requires |rows| == |tags|
    requires forall i :: 0 <= i < |rows| ==> 0.0 < Sum(rows[i], BcnWeight)
    ensures |r| == |tags|
    ensures forall i :: 0 <= i < |tags| ==> r[i] == RowMean(tags[i], rows[i])
  {
    seq(|tags|, i requires 0 <= i < |tags| => RowMean(tags[i], rows[i]))
  }

  /** The beacon estimate: the mean over tag particles, weighted by their
      weights, of the weighted mean of each one's beacon row. */
  function BcnLoc(tags: seq<TagParticle>, rows: seq<seq<BcnParticle>>, t: real): (r: BcnLocation)
    requires |rows| == |tags|
    requires forall i :: 0 <= i < |rows| ==> 0.0 < Sum(rows[i], BcnWeight)
    requires 0.0 < Sum(tags, TagWeight)
    ensures r.t == t
    ensures var means := RowMeans(tags, rows); var s := Sum(means, BcnWeight);
      && s == Sum(tags, TagWeight)
      && r.x == Sum(means, BcnMoment(X)) / s
      && r.y == Sum(means, BcnMoment(Y)) / s
      && r.z == Sum(means, BcnMoment(Z)) / s
  {
    SameWeights(tags, RowMeans(tags, rows));
    var means, s := RowMeans(tags, rows), Sum(tags, TagWeight);
    BcnLocation(t, Sum(means, BcnMoment(X)) / s, Sum(means, BcnMoment(Y)) / s, Sum(means, BcnMoment(Z)) / s)
  }

  /** When every beacon particle lies within [lo, hi] on an axis, so does the
      beacon estimate. */
  lemma BcnLocWithinParticles(tags: seq<TagParticle>, rows: seq<seq<BcnParticle>>, t: real, a: Axis,
                              lo: real, hi: real)
    requires |rows| == |tags|
    requires forall i :: 0 <= i < |rows| ==> 0.0 < Sum(rows[i], BcnWeight)
    requires 0.0 < Sum(tags, TagWeight)
    requires forall i :: 0 <= i < |tags| ==> 0.0 <= tags[i].w
    requires forall i, j :: 0 <= i < |rows| && 0 <= j < |rows[i]| ==>
      0.0 <= rows[i][j].w && lo <= BcnCoord(rows[i][j], a) <= hi
    ensures var loc := BcnLoc(tags, rows, t);
      lo <= (match a case X => loc.x case Y => loc.y case Z => loc.z) <= hi
  {
    var means := RowMeans(tags, rows);
    forall i | 0 <= i < |means|
      ensures 0.0 <= means[i].w && lo <= BcnCoord(means[i], a) <= hi
    {
      BcnMeanBetween(rows[i], a, lo, hi);
    }
    SameWeights(tags, means);
    BcnMeanBetween(means, a, lo, hi);
  }

  /** Two sequences whose elements carry the same weights have the same
      total weight. */
  lemma {:induction false} SameWeights(tags: seq<TagParticle>, bs: seq<BcnParticle>)
    requires |tags| == |bs|
    requires forall i :: 0 <= i < |tags| ==> bs[i].w == tags[i].w
    ensures Sum(bs, BcnWeight) == Sum(tags, TagWeight)
  {
    if tags != [] {
      var n := |tags| - 1;
      assert forall i :: 0 <= i < n ==> bs[..n][i].w == tags[..n][i].w;
      SameWeights(tags[..n], bs[..n]);
    }
  }

  lemma MulDiv(a: real, b: real, c: real)
    requires c != 0.0
    ensures a * b / c == a * (b / c)
  {}

  /** One step of particleFilter_getBcnLoc's outer loop on axis `a`: the
      tag weight `w1` times the weighted row mean `asum2 / s2` of row `n`
      is added to the sum. */
  lemma RowMeanStep(tags: seq<TagParticle>, rows: seq<seq<BcnParticle>>, n: nat, a: Axis,
                    w1: real, s2: real, asum2: real)
    requires |rows| == |tags|
    requires forall i :: 0 <= i < |rows| ==> 0.0 < Sum(rows[i], BcnWeight)
    requires n < |tags| && w1 == tags[n].w
    requires s2 == Sum(rows[n], BcnWeight) && asum2 == Sum(rows[n], BcnMoment(a))
    ensures var means := RowMeans(tags, rows);
      Sum(means[..n + 1], BcnMoment(a)) == Sum(means[..n], BcnMoment(a)) + w1 * asum2 / s2
  {
    var means := RowMeans(tags, rows);
    SumStep(means, n, BcnMoment(a));
    assert BcnCoord(means[n], a) == asum2 / s2;
    MulDiv(w1, asum2, s2);
  }

  /** The inner loop of particleFilter_getBcnLoc: the weight and the three
      weighted coordinate sums of row `i` of a beacon grid. */
  method RowSums(grid: array2<BcnParticle>, i: nat) returns (s2: real, xsum2: real, ysum2: real, zsum2: real)
    requires i < grid.Length0
    ensures s2 == Sum(Row(grid, i), BcnWeight)
    ensures xsum2 == Sum(Row(grid, i), BcnMoment(X))
    ensures ysum2 == Sum(Row(grid, i), BcnMoment(Y))
    ensures zsum2 == Sum(Row(grid, i), BcnMoment(Z))
  {
    ghost var row := Row(grid, i);
    s2, xsum2, ysum2, zsum2 := 0.0, 0.0, 0.0, 0.0;
    var j := 0;
    while j < grid.Length1
      invariant 0 <= j <= grid.Length1
      invariant s2 == Sum(row[..j], BcnWeight)
      invariant xsum2 == Sum(row[..j], BcnMoment(X))
      invariant ysum2 == Sum(row[..j], BcnMoment(Y))
      invariant zsum2 == Sum(row[..j], BcnMoment(Z))
    {
      var bp := grid[i, j];
      SumStep(row, j, BcnWeight);
      SumStep(row, j, BcnMoment(X));
      SumStep(row, j, BcnMoment(Y));
      SumStep(row, j, BcnMoment(Z));
      // Each term is the weight times the coordinate.
      s2 := s2 + BcnWeight(bp);
      xsum2 := xsum2 + BcnMoment(X)(bp);
      ysum2 := ysum2 + BcnMoment(Y)(bp);
      zsum2 := zsum2 + BcnMoment(Z)(bp);
      j := j + 1;
    }
    assert row[..j] == row;
  }

  // ---------------------------------------------------------------------
  // The filter

  /** A beacon (bcn_t): its grid of beacon particles, one row per tag
      particle, and the link to the next beacon heard before it. */
  class Beacon {
    var pBcn: array2<BcnParticle>
    var nextBcn: Beacon?

    constructor (grid: array2<BcnParticle>)
      ensures pBcn == grid && nextBcn == null
    {
      pBcn := grid;
      nextBcn := null;
    }
  }

  /** `bs` is the list that starts at `first`: each beacon links to the next
      one and the last to null, and every beacon's grid has `n` rows. */
  ghost predicate BeaconList(first: Beacon?, bs: seq<Beacon>, n: nat)
    reads bs
  {
    && (if bs == [] then first == null else first == bs[0])
    && (forall k {:trigger bs[k].nextBcn} :: 0 <= k < |bs| ==> bs[k].nextBcn == if k + 1 < |bs| then bs[k + 1] else null)
    && (forall k :: 0 <= k < |bs| ==> bs[k].pBcn.Length0 == n)
  }

  /** The filter state (particleFilter_t). */
  class Filter {
    var tag: array<TagParticle>
    var firstBcn: Beacon?
    var firstT: real
    var firstX: real
    var firstY: real
    var firstZ: real
    var firstDist: real
    var lastT: real
    var lastX: real
    var lastY: real
    var lastZ: real
    var lastDist: real
    /** The beacons reachable from `firstBcn`, in list order. */
    ghost var known: seq<Beacon>

    /** The list from `firstBcn` is exactly `known`, and every known beacon
        has one row per tag particle. */
    ghost predicate Valid()
      reads this, known
    {
      BeaconList(firstBcn, known, tag.Length)
    }

    /** The accumulator fields, as one value. */
    function Odo(): Odometry
      reads this
    {
      Odometry(Sample(firstT, firstX, firstY, firstZ, firstDist), Sample(lastT, lastX, lastY, lastZ, lastDist))
    }

    /** particleFilter_init: no beacons, an unseeded accumulator and the
        degenerate tag ensemble. */
    constructor (nTag: nat)
      ensures Valid() && known == []
      ensures Odo() == Odometry(Origin, Origin)
      ensures fresh(tag) && tag.Length == nTag
      ensures forall i :: 0 <= i < nTag ==> tag[i] == SpawnTagParticle()
    {
      firstBcn := null;
      firstT := 0.0;
      firstX := 0.0;
      firstY := 0.0;
      firstZ := 0.0;
      firstDist := 0.0;
      lastT := 0.0;
      lastX := 0.0;
      lastY := 0.0;
      lastZ := 0.0;
      lastDist := 0.0;
      known := [];
      tag := new TagParticle[nTag];
      new;
      InitTag(tag);
    }

    /** particleFilter_depositVio: records one VIO sample. */
    method DepositVio(t: real, x: real, y: real, z: real, dist: real, m: Libm)
      modifies this
      ensures Odo() == Deposited(old(Odo()), Sample(t, x, y, z, dist), m)
      ensures tag == old(tag) && firstBcn == old(firstBcn) && known == old(known)
    {
      ghost var o, sample := Odo(), Sample(t, x, y, z, dist);
      if firstT == 0.0 {
        firstT := t;
        firstX := x;
        firstY := y;
        firstZ := z;
        firstDist := dist;
        lastT := t;
        lastX := x;
        lastY := y;
        lastZ := z;
        lastDist := dist;
        return;
      }
      if dist > lastDist {
        lastDist := dist;
      } else {
        var dx := x - lastX;
        var dy := y - lastY;
        var dz := z - lastZ;
        assert Distance(m, dx, dy, dz) == StepLength(m, o.last, sample);
        lastDist := lastDist + Distance(m, dx, dy, dz);
      }
      lastT := t;
      lastX := x;
      lastY := y;
      lastZ := z;
    }

    /** _haveBcn: walks the list from `firstBcn` looking for `bcn`. */
    method HaveBcn(bcn: Beacon) returns (r: bool)
      requires Valid()
      ensures r <==> bcn in known
    {
      var b := firstBcn;
      ghost var k := 0;
      while b != null
        invariant 0 <= k <= |known|
        invariant b == if k < |known| then known[k] else null
        invariant bcn !in known[..k]
        decreases |known| - k
      {
        if b == bcn {
          return true;
        }
        b := b.nextBcn;
        k := k + 1;
      }
      return false;
    }

    /** particleFilter_depositUwb: consumes the accumulated motion to
        propagate the tag ensemble, then either runs the joint update with a
        beacon already known or registers a new beacon at the head of the
        list and spawns its grid around the propagated tag particles. */
    method DepositUwb(bcn: Beacon, m: Libm, range: real, std: real, noise: nat -> NormalDraws,
                      sphere: (nat, nat) -> SphereDraws)
      requires Valid()
      requires bcn.pBcn.Length0 == tag.Length
      modifies this, tag, bcn, bcn.pBcn
      ensures Valid()
      ensures tag == old(tag) && bcn.pBcn == old(bcn.pBcn)
      ensures Odo() == Consumed(old(Odo()))
      ensures bcn in known
      ensures bcn in old(known) ==> known == old(known) && firstBcn == old(firstBcn)
      ensures bcn !in old(known) ==> known == [bcn] + old(known)
      ensures bcn in old(known) ==> forall i :: 0 <= i < tag.Length ==>
        tag[i] == SlamWeighted(Moved(old(tag[i]), m, Pending(old(Odo())), noise(i)), old(Row(bcn.pBcn, i)), m, range, std)
      ensures bcn in old(known) ==> forall i, j :: 0 <= i < tag.Length && 0 <= j < bcn.pBcn.Length1 ==>
        bcn.pBcn[i, j] == GatedBcn(old(bcn.pBcn[i, j]), Moved(old(tag[i]), m, Pending(old(Odo())), noise(i)), m, range, std)
      ensures bcn !in old(known) ==> forall i :: 0 <= i < tag.Length ==>
        tag[i] == Moved(old(tag[i]), m, Pending(old(Odo())), noise(i))
      ensures bcn !in old(known) ==> forall i, j :: 0 <= i < tag.Length && 0 <= j < bcn.pBcn.Length1 ==>
        bcn.pBcn[i, j] == SpawnedBcn(tag[i], m, range, std, sphere(i, j))
    {
      var mv := Consume();
      ApplyVio(tag, m, mv.dt, mv.dx, mv.dy, mv.dz, mv.ddist, noise);
      var have := HaveBcn(bcn);
      if have {
        ApplyRangeSlam(tag, bcn.pBcn, m, range, std);
      } else {
        Register(bcn);
        InitBcn(bcn.pBcn, tag, m, range, std, sphere);
      }
    }

    /** The start of particleFilter_depositUwb: takes the motion accumulated
        since the last range reading and moves the snapshot up to the latest
        sample. */
    method Consume() returns (mv: Motion)
      requires Valid()
      modifies this
      ensures mv == Pending(old(Odo()))
      ensures Odo() == Consumed(old(Odo()))
      ensures tag == old(tag) && firstBcn == old(firstBcn) && known == old(known)
      ensures Valid()
    {
      var dt := lastT - firstT;
      var dx := lastX - firstX;
      var dy := lastY - firstY;
      var dz := lastZ - firstZ;
      var ddist := lastDist - firstDist;
      firstT := lastT;
      firstX := lastX;
      firstY := lastY;
      firstZ := lastZ;
      firstDist := lastDist;
      mv := Motion(dt, dx, dy, dz, ddist);
    }

    /** The new-beacon branch of particleFilter_depositUwb: links `bcn` in at
        the head of the list. */
    method Register(bcn: Beacon)
      requires Valid() && bcn !in known && bcn.pBcn.Length0 == tag.Length
      modifies this, bcn
      ensures Valid()
      ensures known == [bcn] + old(known) && firstBcn == bcn
      ensures tag == old(tag) && Odo() == old(Odo()) && bcn.pBcn == old(bcn.pBcn)
    {
      ghost var bs := known;
      bcn.nextBcn := firstBcn;
      firstBcn := bcn;
      known := [bcn] + known;
      forall k | 0 < k < |known|
        ensures known[k].nextBcn == if k + 1 < |known| then known[k + 1] else null
      {
        assert known[k] == bs[k - 1] != bcn;
      }
    }

    /** particleFilter_getTagLoc. */
    method GetTagLoc(m: Libm) returns (t: real, x: real, y: real, z: real, theta: real)
      requires 0.0 < Sum(tag[..], TagWeight)
      ensures TagLocation(t, x, y, z, theta) == TagLoc(tag[..], Odo(), m)
    {
      ghost var ps := tag[..];
      var s, xsum, ysum, zsum, csum, ssum := 0.0, 0.0, 0.0, 0.0, 0.0, 0.0;
      var i := 0;
      while i < tag.Length
        invariant 0 <= i <= tag.Length
        invariant s == Sum(ps[..i], TagWeight)
        invariant xsum == Sum(ps[..i], TagMoment(X))
        invariant ysum == Sum(ps[..i], TagMoment(Y))
        invariant zsum == Sum(ps[..i], TagMoment(Z))
        invariant csum == Sum(ps[..i], TagCosMoment(m))
        invariant ssum == Sum(ps[..i], TagSinMoment(m))
      {
        var tp := tag[i];
        SumStep(ps, i, TagWeight);
        SumStep(ps, i, TagMoment(X));
        SumStep(ps, i, TagMoment(Y));
        SumStep(ps, i, TagMoment(Z));
        SumStep(ps, i, TagCosMoment(m));
        SumStep(ps, i, TagSinMoment(m));
        // Each term is the weight times the coordinate, cosine or sine.
        s := s + TagWeight(tp);
        xsum := xsum + TagMoment(X)(tp);
        ysum := ysum + TagMoment(Y)(tp);
        zsum := zsum + TagMoment(Z)(tp);
        csum := csum + TagCosMoment(m)(tp);
        ssum := ssum + TagSinMoment(m)(tp);
        i := i + 1;
      }
      assert ps[..i] == ps;
      ghost var o := Odo();
      var dx := lastX - firstX;
      var dy := lastY - firstY;
      var dz := lastZ - firstZ;
      assert o.last.t == lastT && Pending(o).dx == dx && Pending(o).dy == dy && Pending(o).dz == dz;
      t := lastT;
      x := xsum / s;
      y := ysum / s;
      z := zsum / s;
      theta := m.atan2(ssum, csum);
      var co := m.cos(theta);
      var si := m.sin(theta);
      x := x + RotatedX(dx, dy, co, si);
      y := y + RotatedY(dx, dy, co, si);
      z := z + dz;
    }

    /** particleFilter_getBcnLoc: the estimate of a known beacon; for a
        beacon that is not in the list the outputs keep the values the caller
        passed in (`t0` ... `z0`). */
    method GetBcnLoc(bcn: Beacon, t0: real, x0: real, y0: real, z0: real) returns (t: real, x: real, y: real, z: real)
      requires Valid()
      requires bcn in known ==> 0.0 < Sum(tag[..], TagWeight)
      requires bcn in known ==> forall i :: 0 <= i < bcn.pBcn.Length0 ==> 0.0 < Sum(Row(bcn.pBcn, i), BcnWeight)
      ensures bcn !in known ==> t == t0 && x == x0 && y == y0 && z == z0
      ensures bcn in known ==> bcn.pBcn.Length0 == tag.Length
      ensures bcn in known ==> BcnLocation(t, x, y, z) == BcnLoc(tag[..], Rows(bcn.pBcn), lastT)
    {
      var have := HaveBcn(bcn);
      if !have {
        return t0, x0, y0, z0;
      }
      ghost var tags, rows := tag[..], Rows(bcn.pBcn);
      ghost var means := RowMeans(tags, rows);
      var s1, xsum1, ysum1, zsum1 := 0.0, 0.0, 0.0, 0.0;
      var i := 0;
      while i < tag.Length
        invariant 0 <= i <= tag.Length
        invariant s1 == Sum(tags[..i], TagWeight)
        invariant xsum1 == Sum(means[..i], BcnMoment(X))
        invariant ysum1 == Sum(means[..i], BcnMoment(Y))
        invariant zsum1 == Sum(means[..i], BcnMoment(Z))
      {
        var w1 := tag[i].w;
        var s2, xsum2, ysum2, zsum2 := RowSums(bcn.pBcn, i);
        SumStep(tags, i, TagWeight);
        RowMeanStep(tags, rows, i, X, w1, s2, xsum2);
        RowMeanStep(tags, rows, i, Y, w1, s2, ysum2);
        RowMeanStep(tags, rows, i, Z, w1, s2, zsum2);
        s1 := s1 + w1;
        xsum1 := xsum1 + w1 * xsum2 / s2;
        ysum1 := ysum1 + w1 * ysum2 / s2;
        zsum1 := zsum1 + w1 * zsum2 / s2;
        i := i + 1;
      }
      assert tags[..i] == tags && means[..i] == means;
      t := lastT;
      x := xsum1 / s1;
      y := ysum1 / s1;
      z := zsum1 / s1;
    }
  }
}
