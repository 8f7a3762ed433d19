/**
 * Track geometry (src/game/core/world.ts): the unit-circle progress
 * arithmetic every proximity test relies on, and the pickup and obstacle
 * layout of the closed-loop track.  Progress `u` is a fraction of a lap.
 */
module World {
  import opened Numeric

  datatype Vector = Vector(x: real, y: real)

  /** A pickup.  Its place on the track never changes; only `taken` is
      flipped, in place, by the race step. */
  class Coin {
    const u: real
    const lane: real
    var taken: bool

    constructor (u: real, lane: real)
      ensures this.u == u && this.lane == lane && !taken
    {
      this.u := u;
      this.lane := lane;
      taken := false;
    }
  }

  datatype Obstacle = Obstacle(u: real, lane: real, radius: real)

  /** The track record.  The record itself is never updated; the coin
      objects it points to are. */
  datatype Track = Track(
    radiusX: real,
    radiusY: real,
    center: Vector,
    length: real,
    roadHalfWidth: real,
    coins: seq<Coin>,
    obstacles: seq<Obstacle>)

  /** The set of coin objects of a track (the frame of a race step). */
  function CoinSet(t: Track): set<Coin> { set c | c in t.coins }

  /** No coin object appears twice in the list. */
  predicate DistinctCoins(t: Track)
  {
    forall i, j :: 0 <= i < j < |t.coins| ==> t.coins[i] != t.coins[j]
  }

  // ---------------------------------------------------------------------
  // Progress on the unit circle

  /** `wrap01`: `u % 1`, moved up by one when negative.  The result is the
      representative of `u` modulo 1 in [0, 1). */
  function Wrap01(u: real): (r: real)
    ensures 0.0 <= r < 1.0
  {
    var m := JsRem1(u);
    if m < 0.0 then m + 1.0 else m
  }

  /** The wrapped value differs from `u` by a whole number of laps. */
  lemma Wrap01Congruent(u: real)
    ensures IsInteger(u - Wrap01(u))
  {
    var m := JsRem1(u);
    JsRem1Congruent(u);
    if m < 0.0 {
      assert u - (m + 1.0) == (u - m) - 1.0;
      IntegerDifference(u - m, 1.0);
    }
  }

  /** The representative in [0, 1) is unique: any `v` there that differs
      from `u` by an integer is `Wrap01(u)`. */
  lemma Wrap01Unique(u: real, v: real)
    requires 0.0 <= v < 1.0 && IsInteger(u - v)
    ensures Wrap01(u) == v
  {
    var r := Wrap01(u);
    Wrap01Congruent(u);
    IntegerDifference(u - r, u - v);
    assert (u - r) - (u - v) == v - r;
    SmallIntegerIsZero(v - r);
  }

  /** `wrap01` is the identity on [0, 1), hence idempotent. */
  lemma Wrap01Identity(u: real)
    ensures 0.0 <= u < 1.0 ==> Wrap01(u) == u
    ensures Wrap01(Wrap01(u)) == Wrap01(u)
  {
    if 0.0 <= u < 1.0 {
      assert u - u == 0.0;
      Wrap01Unique(u, u);
    }
    var r := Wrap01(u);
    assert r - r == 0.0;
    Wrap01Unique(r, r);
  }

  /** Shifting by a whole lap does not change the wrapped value. */
  lemma Wrap01Periodic(u: real, k: int)
    ensures Wrap01(u + k as real) == Wrap01(u)
  {
    var r := Wrap01(u);
    Wrap01Congruent(u);
    assert (u + k as real) - r == (u - r) + k as real;
    IntegerDifference(u - r, -k as real);
    Wrap01Unique(u + k as real, r);
  }

  /** `progressDelta`: the signed shortest difference from `a` to `b` on
      the circle; it lies in [-1/2, 1/2] and differs from `b - a` by a
      whole number of laps. */
  function ProgressDelta(a: real, b: real): (r: real)
    ensures -0.5 <= r <= 0.5
  {
    var d0 := Wrap01(b) - Wrap01(a);
    var d1 := if d0 > 0.5 then d0 - 1.0 else d0;
    if d1 < -0.5 then d1 + 1.0 else d1
  }

  /** The delta differs from `b - a` by a whole number of laps. */
  lemma ProgressDeltaCongruent(a: real, b: real)
    ensures IsInteger((b - a) - ProgressDelta(a, b))
  {
    var wa, wb := Wrap01(a), Wrap01(b);
    var d0 := wb - wa;
    Wrap01Congruent(a);
    Wrap01Congruent(b);
    assert (b - a) - d0 == (b - wb) - (a - wa);
    IntegerDifference(b - wb, a - wa);
    IntegerDifference((b - a) - d0, -1.0);
    IntegerDifference((b - a) - d0, 1.0);
  }

  /** Away from the antipode the delta is determined by the circle alone:
      it is the unique value in (-1/2, 1/2) congruent to `b - a`. */
  lemma ProgressDeltaUnique(a: real, b: real, d: real)
    requires -0.5 < d < 0.5 && IsInteger((b - a) - d)
    ensures ProgressDelta(a, b) == d
  {
    var r := ProgressDelta(a, b);
    ProgressDeltaCongruent(a, b);
    IntegerDifference((b - a) - d, (b - a) - r);
    assert ((b - a) - d) - ((b - a) - r) == r - d;
    SmallIntegerIsZero(r - d);
  }

  /** A point is at distance zero from itself, and the delta is
      antisymmetric, also at the antipode where it is +1/2 one way and
      -1/2 the other. */
  lemma ProgressDeltaAntisymmetric(a: real, b: real)
    ensures ProgressDelta(a, a) == 0.0
    ensures ProgressDelta(a, b) == -ProgressDelta(b, a)
  {
    assert ProgressDelta(a, a) == Wrap01(a) - Wrap01(a);
  }

  /** Both arguments may be shifted by whole laps. */
  lemma ProgressDeltaPeriodic(a: real, b: real, j: int, k: int)
    ensures ProgressDelta(a + j as real, b + k as real) == ProgressDelta(a, b)
  {
    Wrap01Periodic(a, j);
    Wrap01Periodic(b, k);
  }

  // ---------------------------------------------------------------------
  // Layout of the closed-loop track

  /** The lane of the i-th coin cycles through -0.6, 0, 0.6. */
  function CoinLane(i: nat): (lane: real)
    ensures i % 3 == 0 ==> lane == -0.6
    ensures i % 3 == 1 ==> lane == 0.0
    ensures i % 3 == 2 ==> lane == 0.6
  {
    [-0.6, 0.0, 0.6][i % 3]
  }

  const CoinCount: nat := 45
  const ObstacleCount: nat := 6

  /** Progress of the i-th coin for a jitter draw `r` (`Math.random()`). */
  function CoinProgress(i: nat, r: real): (u: real)
    requires i < CoinCount && 0.0 <= r < 1.0
    ensures 0.0 <= u < 1.0
    ensures i as real / 45.0 <= u < i as real / 45.0 + 0.01
  {
    JsRem1(i as real / 45.0 + r * 0.01)
  }

  /** The i-th obstacle of the closed-loop track. */
  function ObstacleAt(i: nat): (o: Obstacle)
    requires i < ObstacleCount
    ensures 0.0 <= o.u < 1.0
    ensures o.u == i as real / 6.0 + 0.08
    ensures o.lane == (if i % 2 == 0 then -0.4 else 0.4) && o.radius == 10.0
  {
    Obstacle(JsRem1(i as real / 6.0 + 0.08), if i % 2 == 0 then -0.4 else 0.4, 10.0)
  }

  /** `createOvalTrack`: 45 fresh, untaken coins on lanes cycling through
      -0.6, 0, 0.6 and six fixed obstacles.  The Ramanujan perimeter is a
      parameter (`length`), the jitter draws are `jitter`. */
  method CreateOvalTrack(center: Vector, radiusX: real, radiusY: real, roadHalfWidth: real,
                         length: real, jitter: seq<real>)
    returns (t: Track)
    requires |jitter| == CoinCount
    requires forall i :: 0 <= i < |jitter| ==> 0.0 <= jitter[i] < 1.0
    ensures t.radiusX == radiusX && t.radiusY == radiusY && t.center == center
    ensures t.length == length && t.roadHalfWidth == roadHalfWidth
    ensures |t.coins| == CoinCount && DistinctCoins(t)
    ensures forall i :: 0 <= i < |t.coins| ==>
      fresh(t.coins[i]) && !t.coins[i].taken &&
      t.coins[i].u == CoinProgress(i, jitter[i]) && t.coins[i].lane == CoinLane(i)
    ensures |t.obstacles| == ObstacleCount
    ensures forall i :: 0 <= i < |t.obstacles| ==> t.obstacles[i] == ObstacleAt(i)
  {
    var coins: seq<Coin> := [];
    var obstacles: seq<Obstacle> := [];
    for i := 0 to CoinCount
      invariant |coins| == i
      invariant forall k :: 0 <= k < i ==>
        fresh(coins[k]) && !coins[k].taken &&
        coins[k].u == CoinProgress(k, jitter[k]) && coins[k].lane == CoinLane(k)
      invariant forall k, l :: 0 <= k < l < i ==> coins[k] != coins[l]
    {
      var c := new Coin(CoinProgress(i, jitter[i]), CoinLane(i));
      coins := coins + [c];
    }
    for i := 0 to ObstacleCount
      invariant |obstacles| == i
      invariant forall k :: 0 <= k < i ==> obstacles[k] == ObstacleAt(k)
    {
      obstacles := obstacles + [ObstacleAt(i)];
    }
    t := Track(radiusX, radiusY, center, length, roadHalfWidth, coins, obstacles);
  }
}
