/** The initializer (pfInit.c): the degenerate tag ensemble every filter
    starts from, the beacon grid spawned on a shell around each tag particle
    when a beacon is first heard, and the jittered copies of particles. */
module PfInit {
  import opened MathLib
  import opened Particles

  // ---------------------------------------------------------------------
  // Tag particles

  /** pfInit_spawnTagParticle: a particle of weight 1 at the origin, whose
      heading 0 already lies in the range that fmodf keeps. */
  function SpawnTagParticle(): (p: TagParticle)
    ensures p.w == 1.0
    ensures forall a :: TagCoord(p, a) == 0.0
    ensures -TwoPi < p.theta < TwoPi
  {
    TagParticle(1.0, 0.0, 0.0, 0.0, 0.0)
  }

  /** Fills every slot of the tag ensemble with a freshly spawned particle. */
  method InitTag(tag: array<TagParticle>)
    modifies tag
    ensures forall i :: 0 <= i < tag.Length ==> tag[i] == SpawnTagParticle()
  {
    var i := 0;
    while i < tag.Length
      invariant 0 <= i <= tag.Length
      invariant forall k :: 0 <= k < i ==> tag[k] == SpawnTagParticle()
    {
      tag[i] := SpawnTagParticle();
      i := i + 1;
    }
  }

  /** An ensemble of spawned particles has total weight equal to its size and
      all its position moments are zero, so its weighted mean is the origin. */
  lemma InitialEnsemble(ps: seq<TagParticle>, a: Axis)
    requires forall k :: 0 <= k < |ps| ==> ps[k] == SpawnTagParticle()
    ensures Sum(ps, TagWeight) == |ps| as real
    ensures Sum(ps, TagMoment(a)) == 0.0
  {
    SumConstant(ps, TagWeight, 1.0);
    assert forall k :: 0 <= k < |ps| ==> TagMoment(a)(ps[k]) == 0.0;
    SumConstant(ps, TagMoment(a), 0.0);
  }

  /** pfInit_spawnTagParticleFromOther: weight 1, the other particle's
      position jittered by `hXyz` times the normal draws, and its heading
      jittered by `hTheta` times the fourth draw, reduced by fmodf. */
  function SpawnTagParticleFromOther(other: TagParticle, m: Libm, hXyz: real, hTheta: real, r: NormalDraws)
    : (p: TagParticle)
    ensures p.w == 1.0
  {
    TagParticle(1.0,
      other.x + r.dx * hXyz,
      other.y + r.dy * hXyz,
      other.z + r.dz * hXyz,
      m.fmod(other.theta + r.dtheta * hTheta, TwoPi))
  }

  /** A copy with zero bandwidths keeps the other particle's position, and
      its heading too when that already lies in (-2pi, 2pi); only the weight
      is reset to 1. Every copy's heading lies in (-2pi, 2pi). */
  lemma TagCopyWithoutJitter(other: TagParticle, m: Libm, r: NormalDraws)
    requires Lawful(m)
    ensures var p := SpawnTagParticleFromOther(other, m, 0.0, 0.0, r);
      && p.x == other.x && p.y == other.y && p.z == other.z
      && p.theta == m.fmod(other.theta, TwoPi)
      && (-TwoPi < other.theta < TwoPi ==> p == other.(w := 1.0))
  {
    FModFRange(other.theta, TwoPi);
  }

  /** Whatever the bandwidths and draws, a copy's heading lies in
      (-2pi, 2pi). */
  lemma TagCopyHeading(other: TagParticle, m: Libm, hXyz: real, hTheta: real, r: NormalDraws)
    requires Lawful(m)
    ensures -TwoPi < SpawnTagParticleFromOther(other, m, hXyz, hTheta, r).theta < TwoPi
  {
    FModFRange(other.theta + r.dtheta * hTheta, TwoPi);
  }

  // ---------------------------------------------------------------------
  // Beacon particles

  /** The number of radius attempts before falling back to radius 0. */
  const RadiusAttempts: nat := 10

  /** The candidate radius of one attempt with the uniform draw `u`:
      `range + 3 * stdRange * (2u - 1)`. */
  function Candidate(range: real, std: real, u: real): real {
    range + 3.0 * std * (u * 2.0 - 1.0)
  }

  /** The radius the retry loop settles on when it starts at attempt `k`:
      the first non-negative candidate among attempts k..9, or 0 when every
      one of them is negative. */
  function RadiusFrom(range: real, std: real, draws: nat -> real, k: nat): (r: real)
    requires k <= RadiusAttempts
    decreases RadiusAttempts - k
    ensures 0.0 <= r
  {
    if k == RadiusAttempts then 0.0
    else if Candidate(range, std, draws(k)) < 0.0 then RadiusFrom(range, std, draws, k + 1)
    else Candidate(range, std, draws(k))
  }

  /** The radius is either the fallback 0 or the candidate of one of the
      attempts k..9. */
  lemma {:induction false} RadiusIsCandidate(range: real, std: real, draws: nat -> real, k: nat)
    requires k <= RadiusAttempts
    ensures var r := RadiusFrom(range, std, draws, k);
      r == 0.0 || exists a :: k <= a < RadiusAttempts && r == Candidate(range, std, draws(a))
    decreases RadiusAttempts - k
  {
    if k < RadiusAttempts && Candidate(range, std, draws(k)) < 0.0 {
      RadiusIsCandidate(range, std, draws, k + 1);
    }
  }

  /** The radius is the candidate of the first attempt whose candidate is
      not negative. */
  lemma {:induction false} RadiusIsFirstAccepted(range: real, std: real, draws: nat -> real, k: nat, a: nat)
    requires k <= a < RadiusAttempts
    requires forall b :: k <= b < a ==> Candidate(range, std, draws(b)) < 0.0
    requires 0.0 <= Candidate(range, std, draws(a))
    ensures RadiusFrom(range, std, draws, k) == Candidate(range, std, draws(a))
    decreases a - k
  {
    if k < a {
      assert Candidate(range, std, draws(k)) < 0.0;
      RadiusIsFirstAccepted(range, std, draws, k + 1, a);
    }
  }

  /** When every candidate is negative the radius falls back to 0. */
  lemma {:induction false} RadiusFallback(range: real, std: real, draws: nat -> real, k: nat)
    requires k <= RadiusAttempts
    requires forall b :: k <= b < RadiusAttempts ==> Candidate(range, std, draws(b)) < 0.0
    ensures RadiusFrom(range, std, draws, k) == 0.0
    decreases RadiusAttempts - k
  {
    if k < RadiusAttempts {
      RadiusFallback(range, std, draws, k + 1);
    }
  }

  /** With uniform draws in [0, 1] and a non-negative deviation, a radius
      other than the fallback lies in the 3-sigma shell around the range. */
  lemma RadiusInShell(range: real, std: real, draws: nat -> real)
    requires 0.0 <= std
    requires forall b :: 0 <= b < RadiusAttempts ==> 0.0 <= draws(b) <= 1.0
    ensures var r := RadiusFrom(range, std, draws, 0);
      r == 0.0 || range - 3.0 * std <= r <= range + 3.0 * std
  {
    var r := RadiusFrom(range, std, draws, 0);
    RadiusIsCandidate(range, std, draws, 0);
    if r != 0.0 {
      var a :| 0 <= a < RadiusAttempts && r == Candidate(range, std, draws(a));
      CandidateInShell(range, std, draws(a));
    }
  }

  lemma CandidateInShell(range: real, std: real, u: real)
    requires 0.0 <= std && 0.0 <= u <= 1.0
    ensures range - 3.0 * std <= Candidate(range, std, u) <= range + 3.0 * std
  {
    var f := u * 2.0 - 1.0;
    assert -1.0 <= f <= 1.0;
    ScaleBetween(3.0 * std, f, -1.0, 1.0);
  }

  /** The offset of a spawned beacon particle from its tag particle: a
      vector of length `rdist` at elevation `relev` and azimuth `razim`. */
  function OffsetX(m: Libm, rdist: real, relev: real, razim: real): real { rdist * m.cos(relev) * m.cos(razim) }
  function OffsetY(m: Libm, rdist: real, relev: real, razim: real): real { rdist * m.cos(relev) * m.sin(razim) }
  function OffsetZ(m: Libm, rdist: real, relev: real): real { rdist * m.sin(relev) }

  /** The elevation asinf(2e - 1) and the azimuth 2 * pi * a drawn from two
      uniform draws. */
  function Elevation(m: Libm, e: real): real { m.asin(e * 2.0 - 1.0) }
  function Azimuth(a: real): real { a * 2.0 * Pi }

  /** A beacon particle of weight 1 placed at distance `rdist` from `tp` in
      the direction given by the elevation and azimuth draws. */
  function PlacedBcn(tp: TagParticle, m: Libm, rdist: real, e: real, a: real): (bp: BcnParticle)
    ensures bp.w == 1.0
  {
    var relev, razim := Elevation(m, e), Azimuth(a);
    BcnParticle(1.0,
      tp.x + OffsetX(m, rdist, relev, razim),
      tp.y + OffsetY(m, rdist, relev, razim),
      tp.z + OffsetZ(m, rdist, relev))
  }

  /** pfInit_spawnBcnParticle, as a function of its draws: a particle of
      weight 1 placed at the radius the retry loop settles on. */
  function SpawnedBcn(tp: TagParticle, m: Libm, range: real, std: real, d: SphereDraws): (bp: BcnParticle)
    ensures bp.w == 1.0
  {
    PlacedBcn(tp, m, RadiusFrom(range, std, d.radius, 0), d.elevation, d.azimuth)
  }

  /** The squared distance from a beacon particle to a tag particle. */
  function SquaredOffset(bp: BcnParticle, tp: TagParticle): real {
    (bp.x - tp.x) * (bp.x - tp.x) + (bp.y - tp.y) * (bp.y - tp.y) + (bp.z - tp.z) * (bp.z - tp.z)
  }

  /** With uniform draws in [0, 1] and a non-negative deviation, the beacon
      particle `bp` spawned around `tp` lies at distance `r`, the radius the
      retry loop settles on, and `r` is 0 (every attempt was negative) or lies
      in the 3-sigma shell around the measured range. */
  lemma SpawnedInShell(bp: BcnParticle, tp: TagParticle, m: Libm, range: real, std: real, d: SphereDraws, r: real)
    requires Lawful(m) && 0.0 <= std
    requires forall b :: 0 <= b < RadiusAttempts ==> 0.0 <= d.radius(b) <= 1.0
    requires bp == SpawnedBcn(tp, m, range, std, d) && r == RadiusFrom(range, std, d.radius, 0)
    ensures SquaredOffset(bp, tp) == r * r
    ensures r == 0.0 || range - 3.0 * std <= r <= range + 3.0 * std
  {
    RadiusInShell(range, std, d.radius);
    PlacedAtRadius(bp, tp, m, r, d.elevation, d.azimuth);
  }

  /** Spawns one beacon particle around `tp` into cell (row, col) of the
      grid: at most ten attempts at a non-negative radius, then a direction
      on the sphere. No other cell changes. */
  method SpawnBcnParticle(grid: array2<BcnParticle>, row: nat, col: nat, tp: TagParticle, m: Libm,
                          range: real, std: real, d: SphereDraws)
    requires row < grid.Length0 && col < grid.Length1
    modifies grid
    ensures grid[row, col] == SpawnedBcn(tp, m, range, std, d)
    ensures forall k, l :: 0 <= k < grid.Length0 && 0 <= l < grid.Length1 && (k != row || l != col) ==>
      grid[k, l] == old(grid[k, l])
  {
    var rdist := 0.0;
    var i := 0;
    while i < RadiusAttempts
      invariant 0 <= i <= RadiusAttempts
      invariant rdist == 0.0
      invariant RadiusFrom(range, std, d.radius, 0) == RadiusFrom(range, std, d.radius, i)
    {
      var rdistTmp := Candidate(range, std, d.radius(i));
      if rdistTmp < 0.0 {
        i := i + 1;
        continue;
      }
      rdist := rdistTmp;
      break;
    }
    grid[row, col] := PlacedBcn(tp, m, rdist, d.elevation, d.azimuth);
  }

  /** A spawned beacon particle lies at distance exactly `rdist` from its tag
      particle, because cosine and sine lie on the unit circle. */
  lemma PlacedAtRadius(bp: BcnParticle, tp: TagParticle, m: Libm, rdist: real, e: real, a: real)
    requires Lawful(m)
    requires bp == PlacedBcn(tp, m, rdist, e, a)
    ensures SquaredOffset(bp, tp) == rdist * rdist
  {
    var relev, razim := Elevation(m, e), Azimuth(a);
    var ce, se, ca, sa := m.cos(relev), m.sin(relev), m.cos(razim), m.sin(razim);
    var c := rdist * ce;
    assert ca * ca + sa * sa == 1.0;
    assert ce * ce + se * se == 1.0;
    calc {
      (c * ca) * (c * ca) + (c * sa) * (c * sa) + (rdist * se) * (rdist * se);
      == (c * c) * (ca * ca + sa * sa) + (rdist * rdist) * (se * se);
      == (rdist * rdist) * (ce * ce) + (rdist * rdist) * (se * se);
      == (rdist * rdist) * (ce * ce + se * se);
      == rdist * rdist;
    }
  }

  /** pfInit_spawnBcnParticleFromOther: weight 1 and the other particle's
      position jittered by `hXyz` times the first three normal draws; with
      zero bandwidth, an exact copy with its weight reset to 1. */
  function SpawnBcnParticleFromOther(other: BcnParticle, hXyz: real, r: NormalDraws): (bp: BcnParticle)
    ensures bp.w == 1.0
    ensures hXyz == 0.0 ==> bp == other.(w := 1.0)
  {
    BcnParticle(1.0, other.x + r.dx * hXyz, other.y + r.dy * hXyz, other.z + r.dz * hXyz)
  }

  // ---------------------------------------------------------------------
  // The beacon grid

  /** The inner loop of pfInit_initBcn: spawns every cell of row `i` around
      `tp` and leaves the other rows alone. */
  method SpawnRow(grid: array2<BcnParticle>, i: nat, tp: TagParticle, m: Libm, range: real, std: real,
                  sphere: (nat, nat) -> SphereDraws)
    requires i < grid.Length0
    modifies grid
    ensures forall l :: 0 <= l < grid.Length1 ==> grid[i, l] == SpawnedBcn(tp, m, range, std, sphere(i, l))
    ensures forall k, l :: 0 <= k < grid.Length0 && k != i && 0 <= l < grid.Length1 ==>
      grid[k, l] == old(grid[k, l])
  {
    var j := 0;
    while j < grid.Length1
      invariant 0 <= j <= grid.Length1
      invariant forall l :: 0 <= l < j ==> grid[i, l] == SpawnedBcn(tp, m, range, std, sphere(i, l))
      invariant forall k, l :: 0 <= k < grid.Length0 && k != i && 0 <= l < grid.Length1 ==>
        grid[k, l] == old(grid[k, l])
    {
      SpawnBcnParticle(grid, i, j, tp, m, range, std, sphere(i, j));
      j := j + 1;
    }
  }

  /** Fills the grid of a newly heard beacon: cell (i, j) is spawned around
      tag particle i with the draws `sphere(i, j)`; the tag ensemble is only
      read. */
  method InitBcn(grid: array2<BcnParticle>, tag: array<TagParticle>, m: Libm, range: real, std: real,
                 sphere: (nat, nat) -> SphereDraws)
    requires grid.Length0 == tag.Length
    modifies grid
    ensures forall i, j :: 0 <= i < grid.Length0 && 0 <= j < grid.Length1 ==>
      grid[i, j] == SpawnedBcn(tag[i], m, range, std, sphere(i, j))
  {
    var i := 0;
    while i < tag.Length
      invariant 0 <= i <= tag.Length
      invariant forall k, l :: 0 <= k < i && 0 <= l < grid.Length1 ==>
        grid[k, l] == SpawnedBcn(tag[k], m, range, std, sphere(k, l))
    {
      SpawnRow(grid, i, tag[i], m, range, std, sphere);
      i := i + 1;
    }
  }

  /** Every row of a freshly spawned grid has total weight equal to its
      length. */
  lemma SpawnedRowWeight(row: seq<BcnParticle>)
    requires forall j :: 0 <= j < |row| ==> row[j].w == 1.0
    ensures Sum(row, BcnWeight) == |row| as real
  {
    SumConstant(row, BcnWeight, 1.0);
  }
}
