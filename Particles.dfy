/** The particle records of the filter, the random draws each update
    consumes, and the weighted sums that the measurement update and the
    location queries accumulate. */
module Particles {
  import opened MathLib

  /** One hypothesis of the tag's pose (tagParticle_t): an unnormalised
      weight, a position and a heading in radians. */
  datatype TagParticle = TagParticle(w: real, x: real, y: real, z: real, theta: real)

  /** One hypothesis of a beacon's position conditioned on one tag particle
      (bcnParticle_t). */
  datatype BcnParticle = BcnParticle(w: real, x: real, y: real, z: real)

  /** The four standard-normal deviates of two pfRandom_normal2 calls, as one
      particle update uses them (the beacon jitter draws `dtheta` too and
      ignores it). */
  datatype NormalDraws = NormalDraws(dx: real, dy: real, dz: real, dtheta: real)

  /** The pfRandom_uniform draws one beacon particle is spawned from: the draw
      of each radius attempt, then the elevation and azimuth draws. */
  datatype SphereDraws = SphereDraws(radius: nat -> real, elevation: real, azimuth: real)

  datatype Axis = X | Y | Z

  function TagCoord(p: TagParticle, a: Axis): real {
    match a
    case X => p.x
    case Y => p.y
    case Z => p.z
  }

  function BcnCoord(p: BcnParticle, a: Axis): real {
    match a
    case X => p.x
    case Y => p.y
    case Z => p.z
  }

  /** The terms the loops of the source add up, one per particle. */
  function TagWeight(p: TagParticle): real { p.w }
  function TagMoment(a: Axis): TagParticle -> real { (p: TagParticle) => p.w * TagCoord(p, a) }
  function TagCosMoment(m: Libm): TagParticle -> real { (p: TagParticle) => p.w * m.cos(p.theta) }
  function TagSinMoment(m: Libm): TagParticle -> real { (p: TagParticle) => p.w * m.sin(p.theta) }
  function BcnWeight(p: BcnParticle): real { p.w }
  function BcnMoment(a: Axis): BcnParticle -> real { (p: BcnParticle) => p.w * BcnCoord(p, a) }

  /** The sum of `f` over `s`, accumulated in index order as a C loop does. */
  function Sum<T>(s: seq<T>, f: T -> real): real {
    if s == [] then 0.0 else Sum(s[..|s| - 1], f) + f(s[|s| - 1])
  }

  /** Row `i` of a beacon grid, as a sequence. */
  function Row(g: array2<BcnParticle>, i: nat): (r: seq<BcnParticle>)
    reads g
    requires i < g.Length0
    ensures |r| == g.Length1
    ensures forall j :: 0 <= j < g.Length1 ==> r[j] == g[i, j]
  {
    seq(g.Length1, j requires 0 <= j < g.Length1 reads g => g[i, j])
  }

  /** All rows of a beacon grid. */
  function Rows(g: array2<BcnParticle>): (r: seq<seq<BcnParticle>>)
    reads g
    ensures |r| == g.Length0
    ensures forall i :: 0 <= i < g.Length0 ==> r[i] == Row(g, i)
  {
    seq(g.Length0, i requires 0 <= i < g.Length0 reads g => Row(g, i))
  }

  /** Adding one more element to the accumulated prefix. */
  lemma SumStep<T>(s: seq<T>, n: nat, f: T -> real)
    requires n < |s|
    ensures Sum(s[..n + 1], f) == Sum(s[..n], f) + f(s[n])
  {
    assert s[..n + 1][..n] == s[..n];
  }

  /** A sum of non-negative terms is non-negative. */
  lemma {:induction false} SumNonNegative<T>(s: seq<T>, f: T -> real)
    requires forall k :: 0 <= k < |s| ==> 0.0 <= f(s[k])
    ensures 0.0 <= Sum(s, f)
  {
    if s != [] {
      var init := s[..|s| - 1];
      assert forall k :: 0 <= k < |init| ==> init[k] == s[k];
      SumNonNegative(init, f);
    }
  }

  /** A non-empty sum of positive terms is positive. */
  lemma {:induction false} SumPositive<T>(s: seq<T>, f: T -> real)
    requires |s| > 0
    requires forall k :: 0 <= k < |s| ==> 0.0 < f(s[k])
    ensures 0.0 < Sum(s, f)
  {
    var init := s[..|s| - 1];
    assert forall k :: 0 <= k < |init| ==> init[k] == s[k];
    SumNonNegative(init, f);
  }

  /** A sum of `|s|` equal terms `c` is `|s| * c`. */
  lemma {:induction false} SumConstant<T>(s: seq<T>, f: T -> real, c: real)
    requires forall k :: 0 <= k < |s| ==> f(s[k]) == c
    ensures Sum(s, f) == (|s| as real) * c
  {
    if s != [] {
      var init := s[..|s| - 1];
      assert forall k :: 0 <= k < |init| ==> init[k] == s[k];
      SumConstant(init, f, c);
    }
  }

  /** One step of a weighted sum whose running totals keep the moment
      between the total weight times lo and times hi. */
  lemma BetweenStep(w0: real, m0: real, w: real, v: real, lo: real, hi: real, w1: real, m1: real)
    requires Between(w0, m0, lo, hi)
    requires 0.0 <= w && lo <= v <= hi
    requires w1 == w0 + w && m1 == m0 + w * v
    ensures Between(w1, m1, lo, hi)
  {
    ScaleBetween(w, v, lo, hi);
    assert w1 * lo == w0 * lo + w * lo;
    assert w1 * hi == w0 * hi + w * hi;
  }

  /** `m` lies between `w * lo` and `w * hi`: a moment of total weight `w`
      whose values lie in [lo, hi], or a total `m` of weights `w` each scaled
      by a factor in [lo, hi]. */
  ghost predicate Between(w: real, m: real, lo: real, hi: real) {
    w * lo <= m <= w * hi
  }

  /** A non-negative weight times a value in [lo, hi] lies between the
      weight times lo and the weight times hi. */
  lemma ScaleBetween(w: real, v: real, lo: real, hi: real)
    requires 0.0 <= w && lo <= v <= hi
    ensures w * lo <= w * v <= w * hi
  {}

  /** The weighted mean of coordinates that all lie in [lo, hi], with
      non-negative weights of positive total, lies in [lo, hi]. */
  lemma TagMeanBetween(ps: seq<TagParticle>, a: Axis, lo: real, hi: real)
    requires forall k :: 0 <= k < |ps| ==> 0.0 <= ps[k].w && lo <= TagCoord(ps[k], a) <= hi
    requires 0.0 < Sum(ps, TagWeight)
    ensures lo <= Sum(ps, TagMoment(a)) / Sum(ps, TagWeight) <= hi
  {
    TagMomentsBetween(ps, a, lo, hi);
    DivideBetween(Sum(ps, TagMoment(a)), Sum(ps, TagWeight), lo, hi);
  }

  lemma {:induction false} TagMomentsBetween(ps: seq<TagParticle>, a: Axis, lo: real, hi: real)
    requires forall k :: 0 <= k < |ps| ==> 0.0 <= ps[k].w && lo <= TagCoord(ps[k], a) <= hi
    ensures Between(Sum(ps, TagWeight), Sum(ps, TagMoment(a)), lo, hi)
  {
    if ps != [] {
      var init, p := ps[..|ps| - 1], ps[|ps| - 1];
      assert forall k :: 0 <= k < |init| ==> init[k] == ps[k];
      TagMomentsBetween(init, a, lo, hi);
      assert TagMoment(a)(p) == p.w * TagCoord(p, a);
      BetweenStep(Sum(init, TagWeight), Sum(init, TagMoment(a)), p.w, TagCoord(p, a), lo, hi,
        Sum(ps, TagWeight), Sum(ps, TagMoment(a)));
    }
  }

  /** The same for the beacon particles of one row. */
  lemma BcnMeanBetween(row: seq<BcnParticle>, a: Axis, lo: real, hi: real)
    requires forall k :: 0 <= k < |row| ==> 0.0 <= row[k].w && lo <= BcnCoord(row[k], a) <= hi
    requires 0.0 < Sum(row, BcnWeight)
    ensures lo <= Sum(row, BcnMoment(a)) / Sum(row, BcnWeight) <= hi
  {
    BcnMomentsBetween(row, a, lo, hi);
    DivideBetween(Sum(row, BcnMoment(a)), Sum(row, BcnWeight), lo, hi);
  }

  lemma {:induction false} BcnMomentsBetween(row: seq<BcnParticle>, a: Axis, lo: real, hi: real)
    requires forall k :: 0 <= k < |row| ==> 0.0 <= row[k].w && lo <= BcnCoord(row[k], a) <= hi
    ensures Between(Sum(row, BcnWeight), Sum(row, BcnMoment(a)), lo, hi)
  {
    if row != [] {
      var init, p := row[..|row| - 1], row[|row| - 1];
      assert forall k :: 0 <= k < |init| ==> init[k] == row[k];
      BcnMomentsBetween(init, a, lo, hi);
      assert BcnMoment(a)(p) == p.w * BcnCoord(p, a);
      BetweenStep(Sum(init, BcnWeight), Sum(init, BcnMoment(a)), p.w, BcnCoord(p, a), lo, hi,
        Sum(row, BcnWeight), Sum(row, BcnMoment(a)));
    }
  }

  lemma MulCancel(a: real, b: real, c: real)
    requires 0.0 < c && a * c <= b * c
    ensures a <= b
  {}

  lemma DivideBetween(num: real, den: real, lo: real, hi: real)
    requires 0.0 < den && Between(den, num, lo, hi)
    ensures lo <= num / den <= hi
  {
    var q := num / den;
    calc { lo * den; == den * lo; <= num; == q * den; }
    calc { q * den; == num; <= den * hi; == hi * den; }
    MulCancel(lo, q, den);
    MulCancel(q, hi, den);
  }
}
