/**
 * The race simulation engine (src/game/core/engine.ts): the phase machine
 * `loading | countdown | racing | paused | finished`, the per-frame
 * `step`, and the command surface handed to the input layer.
 *
 * `step` updates the shared player object, the coin objects of the track
 * and the AI racers in place, so the engine state is a class (`Race`)
 * whose methods modify those objects.  The `onCoin` callback is
 * recorded as a ghost count of its calls and `onFinish` as a ghost log of
 * the events passed to it.
 */
module Engine {
  import opened Numeric
  import opened World
  import opened AI

  datatype Phase = Loading | Countdown | Racing | Paused | Finished

  datatype PlayerConfig = PlayerConfig(
    baseSpeed: real,
    turnRate: real,
    boostSpeed: real,
    boostDuration: real,
    boostCooldown: real)

  datatype GameConfig = GameConfig(
    trackRadius: real,
    roadWidth: real,
    lapsToWin: int,
    player: PlayerConfig,
    aiCount: nat)

  /** Arguments of one `onFinish(place, timeSec, coins)` call. */
  datatype FinishEvent = FinishEvent(place: int, time: real, coins: nat)

  /** The pointer-drag record kept in a ref while a drag is active. */
  datatype Drag = Drag(startX: real, startLane: real)

  const StartCountdown: real := 3.0
  const PointerSensitivity: real := 240.0

  /** Every phase but `paused` and `finished` is integrated by `step`. */
  predicate Integrates(p: Phase) { p != Paused && p != Finished }

  /** Boost and lane commands act only while racing or counting down. */
  predicate Steerable(p: Phase) { p == Racing || p == Countdown }

  // ---------------------------------------------------------------------
  // Specification of one step, piece by piece

  /** The countdown after one step: down by `dt`, and exactly 0 once it
      has run out, never negative. */
  function CountdownAfter(phase: Phase, countdown: real, dt: real): (c: real)
    ensures phase == Countdown ==> c >= 0.0
    ensures phase == Countdown && countdown - dt > 0.0 ==> c == countdown - dt
    ensures phase == Countdown && countdown - dt <= 0.0 ==> c == 0.0
    ensures phase != Countdown ==> c == countdown
  {
    if phase == Countdown then (if countdown - dt <= 0.0 then 0.0 else countdown - dt) else countdown
  }

  /** The phase after the countdown branch: `racing` exactly when the
      countdown runs out in this step. */
  function PhaseAfterCountdown(phase: Phase, countdown: real, dt: real): (p: Phase)
    ensures phase == Countdown ==> (p == Racing <==> countdown - dt <= 0.0)
    ensures phase == Countdown ==> (p == Racing || p == Countdown)
    ensures phase != Countdown ==> p == phase
  {
    if phase == Countdown && countdown - dt <= 0.0 then Racing else phase
  }

  /** Boost cooldown after one step: floored at 0. */
  function CooldownAfter(cooldown: real, dt: real): (c: real)
    ensures c >= 0.0
    ensures 0.0 <= dt ==> c <= Max(cooldown, 0.0)
    ensures cooldown - dt >= 0.0 ==> c == cooldown - dt
  {
    Max(0.0, cooldown - dt)
  }

  /** Boost time left after one step: ticks only while positive, floored
      at 0. */
  function BoostingAfter(boosting: real, dt: real): (b: real)
    ensures boosting > 0.0 ==> b >= 0.0
    ensures boosting <= 0.0 ==> b == boosting
    ensures boosting > 0.0 && 0.0 <= dt ==> b <= boosting
    ensures boosting > 0.0 && boosting - dt >= 0.0 ==> b == boosting - dt
    ensures boosting > 0.0 && boosting - dt < 0.0 ==> b == 0.0
  {
    if boosting > 0.0 then Max(0.0, boosting - dt) else boosting
  }

  /** Lane after steering: moved by `turn * turnRate * dt` and kept within
      [-1, 1] whatever the turn input. */
  function SteerLane(lane: real, turn: real, turnRate: real, dt: real): (l: real)
    ensures -1.0 <= l <= 1.0
    ensures -1.0 <= lane + Travel(turn * turnRate, dt) <= 1.0 ==> l == lane + Travel(turn * turnRate, dt)
    ensures lane + Travel(turn * turnRate, dt) < -1.0 ==> l == -1.0
    ensures lane + Travel(turn * turnRate, dt) > 1.0 ==> l == 1.0
  {
    Clamp(lane + Travel(turn * turnRate, dt), -1.0, 1.0)
  }

  /** The speed before obstacles: boost speed replaces base speed while
      boosting, and running on the edge (|lane| > 0.98) costs 30%. */
  function SpeedCap(pc: PlayerConfig, boosting: real, lane: real): (s: real)
    ensures 0.0 <= pc.baseSpeed && 0.0 <= pc.boostSpeed ==> 0.0 <= s <= Max(pc.baseSpeed, pc.boostSpeed)
    ensures Abs(lane) <= 0.98 ==> s == (if boosting > 0.0 then pc.boostSpeed else pc.baseSpeed)
    ensures Abs(lane) > 0.98 ==> s == 0.7 * (if boosting > 0.0 then pc.boostSpeed else pc.baseSpeed)
  {
    var s := pc.baseSpeed + (if boosting > 0.0 then pc.boostSpeed - pc.baseSpeed else 0.0);
    if Abs(lane) > 0.98 then s * 0.7 else s
  }

  /** A coin is collected when within 0.01 of a lap and 0.3 of a lane. */
  predicate CoinInReach(u: real, lane: real, c: Coin)
  {
    Abs(ProgressDelta(u, c.u)) < 0.01 && Abs(lane - c.lane) < 0.3
  }

  /** The test and flag update of the coin loop of `step` for one coin. */
  method TakeCoin(c: Coin, u: real, lane: real) returns (took: bool)
    modifies c
    ensures took <==> !old(c.taken) && CoinInReach(u, lane, c)
    ensures c.taken == (old(c.taken) || CoinInReach(u, lane, c))
  {
    took := false;
    if !c.taken {
      if Abs(ProgressDelta(u, c.u)) < 0.01 && Abs(lane - c.lane) < 0.3 {
        c.taken := true;
        took := true;
      }
    }
  }

  /** An obstacle slows the player when within 0.008 of a lap and 0.35 of
      a lane. */
  predicate HitsObstacle(u: real, lane: real, o: Obstacle)
  {
    Abs(ProgressDelta(u, o.u)) < 0.008 && Abs(lane - o.lane) < 0.35
  }

  /** The `taken` flags of a list of coins, in order. */
  function TakenFlags(cs: seq<Coin>): (f: seq<bool>)
    reads set c | c in cs
    ensures |f| == |cs| && forall i :: 0 <= i < |cs| ==> f[i] == cs[i].taken
  {
    if cs == [] then [] else TakenFlags(cs[..|cs| - 1]) + [cs[|cs| - 1].taken]
  }

  /** Coins among the first `i` of `cs` that are untaken (by `taken`) and
      within reach. */
  function CollectableAmong(cs: seq<Coin>, taken: seq<bool>, u: real, lane: real, i: nat): (n: nat)
    requires |taken| == |cs| && i <= |cs|
    ensures n <= i
  {
    if i == 0 then 0
    else CollectableAmong(cs, taken, u, lane, i - 1) + (if !taken[i - 1] && CoinInReach(u, lane, cs[i - 1]) then 1 else 0)
  }

  /** The coins one step collects: those untaken (by `taken`) and within
      reach. */
  function CountCollectable(cs: seq<Coin>, taken: seq<bool>, u: real, lane: real): (n: nat)
    requires |taken| == |cs|
    ensures n <= |cs|
  {
    CollectableAmong(cs, taken, u, lane, |cs|)
  }

  /** Nothing is collected exactly when every coin is already taken or out
      of reach. */
  lemma NothingCollectableIff(cs: seq<Coin>, taken: seq<bool>, u: real, lane: real)
    requires |taken| == |cs|
    ensures CountCollectable(cs, taken, u, lane) == 0 <==>
            forall i :: 0 <= i < |cs| ==> taken[i] || !CoinInReach(u, lane, cs[i])
  {
    NothingAmongIff(cs, taken, u, lane, |cs|);
  }

  lemma {:induction false} NothingAmongIff(cs: seq<Coin>, taken: seq<bool>, u: real, lane: real, n: nat)
    requires |taken| == |cs| && n <= |cs|
    ensures CollectableAmong(cs, taken, u, lane, n) == 0 <==>
            forall i :: 0 <= i < n ==> taken[i] || !CoinInReach(u, lane, cs[i])
  {
    if n > 0 {
      NothingAmongIff(cs, taken, u, lane, n - 1);
    }
  }

  /** The speed after halving once per obstacle hit, obstacles taken in
      list order. */
  function ObstacleSlowdown(speed: real, obs: seq<Obstacle>, u: real, lane: real): (s: real)
    ensures speed >= 0.0 ==> 0.0 <= s <= speed
    ensures speed > 0.0 ==> s > 0.0
  {
    if obs == [] then speed
    else
      var s := ObstacleSlowdown(speed, obs[..|obs| - 1], u, lane);
      if HitsObstacle(u, lane, obs[|obs| - 1]) then s * 0.5 else s
  }

  /** Away from every obstacle the speed is kept; one obstacle hit halves
      it. */
  lemma {:induction false} ObstacleSlowdownHits(speed: real, obs: seq<Obstacle>, u: real, lane: real)
    ensures (forall i :: 0 <= i < |obs| ==> !HitsObstacle(u, lane, obs[i])) ==>
            ObstacleSlowdown(speed, obs, u, lane) == speed
    ensures |obs| == 1 && HitsObstacle(u, lane, obs[0]) ==> ObstacleSlowdown(speed, obs, u, lane) == speed * 0.5
  {
    if obs != [] {
      var k := |obs| - 1;
      ObstacleSlowdownHits(speed, obs[..k], u, lane);
      assert forall i :: 0 <= i < k ==> obs[..k][i] == obs[i];
    }
  }

  /** Number of totals strictly greater than the player's. */
  function CountAbove(playerTotal: real, totals: seq<real>): (n: nat)
    ensures n <= |totals|
  {
    if totals == [] then 0
    else (if totals[0] > playerTotal then 1 else 0) + CountAbove(playerTotal, totals[1..])
  }

  /** Finishing place: 1 plus the number of racers strictly ahead. */
  function Placement(playerTotal: real, totals: seq<real>): (place: int)
    ensures 1 <= place <= 1 + |totals|
  {
    1 + CountAbove(playerTotal, totals)
  }

  /** Nobody is strictly ahead exactly when every total is at most the
      player's, i.e. the player places first. */
  lemma {:induction false} FirstPlaceIff(playerTotal: real, totals: seq<real>)
    ensures Placement(playerTotal, totals) == 1 <==> forall i :: 0 <= i < |totals| ==> totals[i] <= playerTotal
  {
    if totals != [] {
      FirstPlaceIff(playerTotal, totals[1..]);
      assert forall i :: 1 <= i < |totals| ==> totals[i] == totals[1..][i - 1];
    }
  }

  /** Last place exactly when every total is strictly ahead. */
  lemma {:induction false} LastPlaceIff(playerTotal: real, totals: seq<real>)
    ensures Placement(playerTotal, totals) == 1 + |totals| <==> forall i :: 0 <= i < |totals| ==> totals[i] > playerTotal
  {
    if totals != [] {
      LastPlaceIff(playerTotal, totals[1..]);
      assert forall i :: 1 <= i < |totals| ==> totals[i] == totals[1..][i - 1];
    }
  }

  /** Adding one more racer never improves the player's place, and moves
      it back by one exactly when that racer is ahead. */
  lemma {:induction false} PlacementAppend(playerTotal: real, totals: seq<real>, t: real)
    ensures Placement(playerTotal, totals + [t]) == Placement(playerTotal, totals) + (if t > playerTotal then 1 else 0)
  {
    if totals == [] {
      assert [t][1..] == [];
    } else {
      assert (totals + [t])[1..] == totals[1..] + [t];
      PlacementAppend(playerTotal, totals[1..], t);
    }
  }

  /** Two AI totals 1.2 and 0.3 against a player total of 1.1: second. */
  lemma PlacementSecondExample()
    ensures Placement(1.1, [1.2, 0.3]) == 2
  {
    assert [1.2, 0.3][1..] == [0.3];
    assert [0.3][1..] == [];
  }

  /** `a.u + a.laps || 0` for an AI racer.  A `Racer` has no `laps` field,
      so `a.laps` is undefined, the sum is NaN, and `NaN || 0` is 0; a
      present lap count would give the sum (0 when the sum is 0). */
  function ReportedAITotal(u: real, laps: Option<real>): (t: real)
    ensures laps == None ==> t == 0.0
    ensures laps.Some? ==> t == u + laps.value
  {
    match laps
    case None => 0.0
    case Some(l) => if u + l == 0.0 then 0.0 else u + l
  }

  /** The AI totals that `step` actually ranks against. */
  function ReportedTotals(ai: seq<Racer>): (t: seq<real>)
    reads set a | a in ai
    ensures |t| == |ai|
    ensures forall i :: 0 <= i < |t| ==> t[i] == 0.0
  {
    if ai == [] then [] else [ReportedAITotal(ai[0].u, None)] + ReportedTotals(ai[1..])
  }

  /** Consequence of the missing AI lap count: whenever the player finishes
      (at least one lap, so a positive total), the reported place is 1,
      however far ahead the AI racers are. */
  lemma PlacementAsWrittenIsFirst(ai: seq<Racer>, laps: nat)
    requires laps >= 1
    ensures Placement(0.0 + laps as real, ReportedTotals(ai)) == 1
  {
    FirstPlaceIff(0.0 + laps as real, ReportedTotals(ai));
  }

  /** `togglePause`: racing and paused swap, every other phase stays. */
  function TogglePhase(p: Phase): (q: Phase)
    ensures q == Paused <==> p == Racing
    ensures q == Racing <==> p == Paused
    ensures p != Racing && p != Paused ==> q == p
  {
    if p == Paused then Racing else if p == Racing then Paused else p
  }

  lemma TogglePhaseTwice(p: Phase)
    ensures TogglePhase(TogglePhase(p)) == p
  {
  }

  /** The steering intent derived from a pointer drag: the lane the drag
      points at (clamped to the road), turned into a turn intensity
      proportional to the distance from the current lane. */
  function PointerTurn(drag: Drag, x: real, lane: real): (turn: real)
    ensures -1.0 <= turn <= 1.0
    ensures var desired := Clamp(drag.startLane + (x - drag.startX) / PointerSensitivity, -1.0, 1.0);
            (desired > lane ==> turn > 0.0) && (desired < lane ==> turn < 0.0) && (desired == lane ==> turn == 0.0)
  {
    var desired := drag.startLane + (x - drag.startX) / PointerSensitivity;
    var clamped := Max(-1.0, Min(1.0, desired));
    Max(-1.0, Min(1.0, (clamped - lane) * 2.0))
  }

  /** `toggleLane`: jump to the opposite band. */
  function ToggledLane(lane: real): (l: real)
    ensures l == -0.6 || l == 0.6
    ensures lane >= 0.0 <==> l < 0.0
  {
    if lane >= 0.0 then -0.6 else 0.6
  }

  /** `applyObstacles` part of `step`: the loop over the track's
      obstacles that halves the speed for each one hit. */
  method ApplyObstacles(maxSpeed: real, obs: seq<Obstacle>, u: real, lane: real) returns (s: real)
    ensures s == ObstacleSlowdown(maxSpeed, obs, u, lane)
  {
    s := maxSpeed;
    for i := 0 to |obs|
      invariant s == ObstacleSlowdown(maxSpeed, obs[..i], u, lane)
    {
      assert obs[..i + 1][..i] == obs[..i];
      if Abs(ProgressDelta(u, obs[i].u)) < 0.008 && Abs(lane - obs[i].lane) < 0.35 {
        s := s * 0.5;
      }
    }
    assert obs[..|obs|] == obs;
  }

  // ---------------------------------------------------------------------
  // The player record across one step

  /** The values of the player record's fields at an instant. */
  datatype PlayerState = PlayerState(
    u: real,
    lane: real,
    speed: real,
    boosting: real,
    boostCooldown: real,
    coins: nat,
    laps: nat,
    lastU: real)

  /** A player at the start line with nothing collected. */
  const StartPlayer: PlayerState := PlayerState(0.0, 0.0, 0.0, 0.0, 0.0, 0, 0, 0.0)

  /** The timer and steering updates of `step` on the player record. */
  function Steered(p: PlayerState, pc: PlayerConfig, dt: real, turn: real): PlayerState
  {
    p.(boostCooldown := CooldownAfter(p.boostCooldown, dt),
       boosting := BoostingAfter(p.boosting, dt),
       lane := SteerLane(p.lane, turn, pc.turnRate, dt))
  }

  /** The advance of `step`: move by `speed * dt`; reaching 1 counts a lap
      and puts the player back at the start. */
  function Advanced(p: PlayerState, speed: real, dt: real): PlayerState
  {
    var u := p.u + Travel(speed, dt);
    if u >= 1.0 then p.(speed := speed, u := 0.0, lastU := 0.0, laps := p.laps + 1)
    else p.(speed := speed, u := u, lastU := p.u)
  }

  /** The coin, obstacle and advance part of `step` on the player record
      once steered: timers and lane are left as they are. */
  function Moved(s: PlayerState, pc: PlayerConfig, obs: seq<Obstacle>, dt: real, gained: nat): (q: PlayerState)
    ensures q.lane == s.lane && q.boosting == s.boosting && q.boostCooldown == s.boostCooldown
    ensures q.coins == s.coins + gained
  {
    var speed := ObstacleSlowdown(SpeedCap(pc, s.boosting, s.lane), obs, s.u, s.lane);
    Advanced(s.(coins := s.coins + gained), speed, dt)
  }

  /** The player record after one integrated step in which `gained` coins
      are collected: the timers count down to 0, the lane stays on the road,
      coins only accumulate and at most one lap is counted. */
  function PlayerAfterStep(p: PlayerState, pc: PlayerConfig, obs: seq<Obstacle>, dt: real, turn: real,
                           gained: nat): (q: PlayerState)
    ensures q.boostCooldown >= 0.0 && -1.0 <= q.lane <= 1.0
    ensures q.coins == p.coins + gained
    ensures q.laps == p.laps || q.laps == p.laps + 1
  {
    Moved(Steered(p, pc, dt, turn), pc, obs, dt, gained)
  }

  /** The speed of a step: boost or base speed, 30% off at the edge, halved
      per obstacle hit at the position before the move; never negative and
      never above the larger configured speed. */
  lemma PlayerAfterStepSpeed(p: PlayerState, pc: PlayerConfig, obs: seq<Obstacle>, dt: real, turn: real, gained: nat)
    ensures var q := PlayerAfterStep(p, pc, obs, dt, turn, gained);
      q.lane == SteerLane(p.lane, turn, pc.turnRate, dt) &&
      q.boosting == BoostingAfter(p.boosting, dt) && q.boostCooldown == CooldownAfter(p.boostCooldown, dt) &&
      q.speed == ObstacleSlowdown(SpeedCap(pc, q.boosting, q.lane), obs, p.u, q.lane) &&
      (0.0 <= pc.baseSpeed && 0.0 <= pc.boostSpeed ==> 0.0 <= q.speed <= Max(pc.baseSpeed, pc.boostSpeed))
  {
    var s := Steered(p, pc, dt, turn);
    var cap := SpeedCap(pc, s.boosting, s.lane);
    var speed := ObstacleSlowdown(cap, obs, s.u, s.lane);
    assert PlayerAfterStep(p, pc, obs, dt, turn, gained).speed == speed;
  }

  /** A lap is counted exactly when progress plus `speed * dt` reaches 1,
      and then progress restarts at 0; otherwise progress moves on by
      `speed * dt`.  For progress in [0, 1), a non-negative `dt` and
      non-negative configured speeds, progress stays in [0, 1). */
  lemma PlayerAfterStepProgress(p: PlayerState, pc: PlayerConfig, obs: seq<Obstacle>, dt: real, turn: real, gained: nat)
    ensures var q := PlayerAfterStep(p, pc, obs, dt, turn, gained);
      (q.laps == p.laps + 1 <==> p.u + Travel(q.speed, dt) >= 1.0) &&
      (q.laps == p.laps + 1 ==> q.u == 0.0 && q.lastU == 0.0) &&
      (q.laps == p.laps ==> q.u == p.u + Travel(q.speed, dt) && q.lastU == p.u) &&
      (0.0 <= p.u < 1.0 && 0.0 <= dt && 0.0 <= pc.baseSpeed && 0.0 <= pc.boostSpeed ==> 0.0 <= q.u < 1.0)
  {
    var q := PlayerAfterStep(p, pc, obs, dt, turn, gained);
    PlayerAfterStepSpeed(p, pc, obs, dt, turn, gained);
    TravelNonNegative(q.speed, dt);
  }

  lemma TravelNonNegative(v: real, dt: real)
    ensures 0.0 <= v && 0.0 <= dt ==> 0.0 <= Travel(v, dt)
  {
  }

  /** `tryBoost` on the player record: a boost starts only once the
      cooldown has elapsed, and nothing but the two boost timers changes. */
  function Boosted(p: PlayerState, pc: PlayerConfig): (q: PlayerState)
    ensures p.boostCooldown <= 0.0 ==> q.boosting == pc.boostDuration && q.boostCooldown == pc.boostCooldown
    ensures p.boostCooldown > 0.0 ==> q == p
    ensures q.(boosting := p.boosting, boostCooldown := p.boostCooldown) == p
  {
    if p.boostCooldown <= 0.0 then p.(boosting := pc.boostDuration, boostCooldown := pc.boostCooldown) else p
  }

  /** A second boost request straight after the first changes nothing:
      either the cooldown now runs, or (with a non-positive configured
      cooldown) the boost is set to the same values again. */
  lemma BoostedTwice(p: PlayerState, pc: PlayerConfig)
    ensures Boosted(Boosted(p, pc), pc) == Boosted(p, pc)
  {
  }

  /** Toggling twice lands on the band on the side the player started. */
  lemma ToggledLaneTwice(lane: real)
    ensures ToggledLane(ToggledLane(lane)) == (if lane >= 0.0 then 0.6 else -0.6)
  {
  }

  // ---------------------------------------------------------------------
  // The engine state

  class Player {
    var u: real
    var lane: real
    var speed: real
    var boosting: real
    var boostCooldown: real
    var coins: nat
    var laps: nat
    var lastU: real

    function State(): PlayerState
      reads this
    {
      PlayerState(u, lane, speed, boosting, boostCooldown, coins, laps, lastU)
    }

    /** A player at the start line with nothing collected. */
    constructor ()
      ensures State() == StartPlayer
    {
      u, lane, speed, boosting, boostCooldown := 0.0, 0.0, 0.0, 0.0, 0.0;
      coins, laps, lastU := 0, 0, 0.0;
    }

    /** The timer and steering statements of `step` on the player. */
    method Steer(pc: PlayerConfig, dt: real, turn: real)
      modifies this
      ensures State() == Steered(old(State()), pc, dt, turn)
    {
      boostCooldown := Max(0.0, boostCooldown - dt);
      if boosting > 0.0 {
        boosting := Max(0.0, boosting - dt);
      }
      var turnSpeed := pc.turnRate;
      lane := lane + Travel(turn * turnSpeed, dt);
      lane := Max(-1.0, Min(1.0, lane));
      assert lane == SteerLane(old(lane), turn, pc.turnRate, dt);
    }

    /** `{ ...p }`: a fresh object with the same field values. */
    constructor Copy(p: Player)
      ensures State() == p.State()
    {
      u, lane, speed, boosting, boostCooldown := p.u, p.lane, p.speed, p.boosting, p.boostCooldown;
      coins, laps, lastU := p.coins, p.laps, p.lastU;
    }
  }

  /** `useGameCore`: the race state record plus the input refs
      (`desiredTurnRef`, `accelRef`, `pointerDrag`). */
  class Race {
    const config: GameConfig
    var phase: Phase
    var time: real
    var countdown: real
    var track: Track
    var player: Player
    var ai: seq<Racer>
    var totalLaps: int
    var lastFinishPlace: Option<int>

    var desiredTurn: real
    var accel: real
    var drag: Option<Drag>

    /** Number of `onCoin(1)` calls, and the arguments of every `onFinish`
        call, so far. */
    ghost var coinCalls: nat
    ghost var finishEvents: seq<FinishEvent>

    /** Coins and racers are distinct objects, as the track builder and
        `createAIRacers` make them. */
    ghost predicate Valid()
      reads this
    {
      DistinctCoins(track) && DistinctRacers(ai)
    }

    /** The initial state: counting down from 3 on the given track, with
        a fresh player and `config.aiCount` fresh AI racers. */
    constructor (config: GameConfig, track: Track)
      requires DistinctCoins(track)
      ensures Valid() && this.config == config && this.track == track
      ensures phase == Countdown && time == 0.0 && countdown == StartCountdown
      ensures totalLaps == config.lapsToWin && lastFinishPlace == None
      ensures fresh(player) && player.State() == StartPlayer
      ensures |ai| == config.aiCount && forall i :: 0 <= i < |ai| ==> fresh(ai[i])
      ensures forall i :: 0 <= i < |ai| ==>
        ai[i].State() == RacerState(0.25 + 0.15 * i as real, if i == 0 then -0.3 else 0.3,
                                    BaseSpeed, 0.0, 0.0, 2.0 + 0.8 * i as real)
      ensures desiredTurn == 0.0 && accel == 0.0 && drag == None
      ensures coinCalls == 0 && finishEvents == []
    {
      var racers := CreateAIRacers(config.aiCount);
      this.config := config;
      this.track := track;
      player := new Player();
      ai := racers;
      phase, time, countdown := Countdown, 0.0, StartCountdown;
      totalLaps, lastFinishPlace := config.lapsToWin, None;
      desiredTurn, accel, drag := 0.0, 0.0, None;
      coinCalls, finishEvents := 0, [];
    }

    /** What `step` does to a race that is counting down or racing: the
        timers, steering, coins, obstacles and progress of the player move
        on; a lap that reaches the target finishes the race, recording and
        reporting the place once and leaving the AI racers where they are;
        otherwise the countdown may end and every AI racer takes its step. */
    twostate predicate Integrated(dt: real, turn: real, newTargets: seq<real>, rolls: seq<real>)
      requires old(track) == track && old(ai) == ai && old(player) == player
      requires |newTargets| == |ai| && |rolls| == |ai|
      reads this, player, CoinSet(track), set a | a in ai
    {
      countdown == CountdownAfter(old(phase), old(countdown), dt) && time == old(time) + dt &&
      (var n := CountCollectable(track.coins, old(TakenFlags(track.coins)), old(player.u), player.lane);
       player.State() == PlayerAfterStep(old(player.State()), config.player, track.obstacles, dt, turn, n) &&
       coinCalls == old(coinCalls) + n) &&
      (forall i :: 0 <= i < |track.coins| ==>
        track.coins[i].taken == (old(track.coins[i].taken) || CoinInReach(old(player.u), player.lane, track.coins[i]))) &&
      (player.laps > old(player.laps) && player.laps >= totalLaps ==>
        phase == Finished &&
        lastFinishPlace == Some(Placement(player.u + player.laps as real, ReportedTotals(ai))) &&
        finishEvents == old(finishEvents) + [FinishEvent(lastFinishPlace.value, time, player.coins)] &&
        forall a :: a in ai ==> unchanged(a)) &&
      (!(player.laps > old(player.laps) && player.laps >= totalLaps) ==>
        phase == PhaseAfterCountdown(old(phase), old(countdown), dt) &&
        lastFinishPlace == old(lastFinishPlace) && finishEvents == old(finishEvents) &&
        forall i :: 0 <= i < |ai| ==>
          ai[i].State() == RacerStep(old(ai[i].State()), dt, player.u, newTargets[i], rolls[i]))
    }

    /** `step(prev, dt, ...)` with `desiredTurnRef.current` as `turn`; the
        AI lane targets and cooldown draws are inputs.  Paused and finished
        races are frozen. */
    method Step(dt: real, turn: real, newTargets: seq<real>, rolls: seq<real>)
      requires Valid() && |newTargets| == |ai| && |rolls| == |ai|
      modifies this, player, CoinSet(track), set a | a in ai
      ensures Valid() && track == old(track) && ai == old(ai) && player == old(player)
      ensures totalLaps == old(totalLaps) && desiredTurn == old(desiredTurn) && accel == old(accel) && drag == old(drag)
      ensures !Integrates(old(phase)) ==>
        phase == old(phase) && time == old(time) && countdown == old(countdown) &&
        lastFinishPlace == old(lastFinishPlace) && unchanged(player) && unchanged(CoinSet(track)) &&
        (forall a :: a in ai ==> unchanged(a)) &&
        coinCalls == old(coinCalls) && finishEvents == old(finishEvents)
      ensures Integrates(old(phase)) ==> Integrated(dt, turn, newTargets, rolls)
    {
      if phase == Paused || phase == Finished {
        return;
      }
      Integrate(dt, turn, newTargets, rolls);
    }

    /** One frame of the animation loop: `step` with the steering intent
        last stored by `setTurn`, `onMove` or `onUp`. */
    method Frame(dt: real, newTargets: seq<real>, rolls: seq<real>)
      requires Valid() && |newTargets| == |ai| && |rolls| == |ai|
      modifies this, player, CoinSet(track), set a | a in ai
      ensures Valid() && track == old(track) && ai == old(ai) && player == old(player)
      ensures totalLaps == old(totalLaps)
      ensures desiredTurn == old(desiredTurn) && accel == old(accel) && drag == old(drag)
      ensures !Integrates(old(phase)) ==>
        phase == old(phase) && time == old(time) && countdown == old(countdown) &&
        lastFinishPlace == old(lastFinishPlace) && unchanged(player) && unchanged(CoinSet(track)) &&
        (forall a :: a in ai ==> unchanged(a)) &&
        coinCalls == old(coinCalls) && finishEvents == old(finishEvents)
      ensures Integrates(old(phase)) ==> Integrated(dt, old(desiredTurn), newTargets, rolls)
    {
      Step(dt, desiredTurn, newTargets, rolls);
    }

    /** `step` on a race that is counting down or racing. */
    method Integrate(dt: real, turn: real, newTargets: seq<real>, rolls: seq<real>)
      requires Valid() && |newTargets| == |ai| && |rolls| == |ai|
      modifies this`phase, this`countdown, this`time, this`coinCalls, this`lastFinishPlace, this`finishEvents
      modifies player, CoinSet(track), set a | a in ai
      ensures track == old(track) && ai == old(ai) && player == old(player)
      ensures Integrated(dt, turn, newTargets, rolls)
    {
      var lapped := Move(dt, turn);
      Conclude(dt, lapped, newTargets, rolls);
    }

    /** Everything `step` does to a race it integrates before the finish
        check: timers, steering, coins, obstacles and the advance. */
    method Move(dt: real, turn: real) returns (lapped: bool)
      requires Valid()
      modifies this`phase, this`countdown, this`time, this`coinCalls, player, CoinSet(track)
      ensures phase == PhaseAfterCountdown(old(phase), old(countdown), dt)
      ensures countdown == CountdownAfter(old(phase), old(countdown), dt) && time == old(time) + dt
      ensures var n := CountCollectable(track.coins, old(TakenFlags(track.coins)), old(player.u), player.lane);
        player.State() == PlayerAfterStep(old(player.State()), config.player, track.obstacles, dt, turn, n) &&
        coinCalls == old(coinCalls) + n
      ensures forall i :: 0 <= i < |track.coins| ==>
        track.coins[i].taken == (old(track.coins[i].taken) || CoinInReach(old(player.u), player.lane, track.coins[i]))
      ensures lapped <==> player.laps > old(player.laps)
    {
      TickTimers(dt, turn);
      assert TakenFlags(track.coins) == old(TakenFlags(track.coins));
      lapped := Drive(dt);
    }

    /** The coin, obstacle and advance part of `step`. */
    method Drive(dt: real) returns (lapped: bool)
      requires Valid()
      modifies this`coinCalls, player, CoinSet(track)
      ensures var n := CountCollectable(track.coins, old(TakenFlags(track.coins)), old(player.u), old(player.lane));
        player.State() == Moved(old(player.State()), config.player, track.obstacles, dt, n) &&
        coinCalls == old(coinCalls) + n
      ensures forall i :: 0 <= i < |track.coins| ==>
        track.coins[i].taken == (old(track.coins[i].taken) || CoinInReach(old(player.u), old(player.lane), track.coins[i]))
      ensures lapped <==> player.laps > old(player.laps)
    {
      ghost var p0 := player.State();
      var maxSpeed := SpeedCap(config.player, player.boosting, player.lane);
      CollectCoins();
      ghost var p1 := player.State();
      maxSpeed := ApplyObstacles(maxSpeed, track.obstacles, player.u, player.lane);
      lapped := Advance(dt, maxSpeed);
      assert p1 == p0.(coins := p0.coins + (p1.coins - p0.coins));
    }

    /** The timer, countdown and steering part of `step`. */
    method TickTimers(dt: real, turn: real)
      modifies this`phase, this`countdown, this`time, player
      ensures phase == PhaseAfterCountdown(old(phase), old(countdown), dt)
      ensures countdown == CountdownAfter(old(phase), old(countdown), dt)
      ensures time == old(time) + dt
      ensures player.State() == Steered(old(player.State()), config.player, dt, turn)
    {
      if phase == Countdown {
        countdown := countdown - dt;
        if countdown <= 0.0 {
          phase := Racing;
          countdown := 0.0;
        }
      }
      time := time + dt;
      player.Steer(config.player, dt, turn);
    }

    /** The coin loop of `step`: every untaken coin within reach is taken,
        counted once and reported once through `onCoin(1)`. */
    method CollectCoins()
      requires Valid()
      modifies player`coins, CoinSet(track), this`coinCalls
      ensures forall i :: 0 <= i < |track.coins| ==>
        track.coins[i].taken == (old(track.coins[i].taken) || CoinInReach(player.u, player.lane, track.coins[i]))
      ensures var n := CountCollectable(track.coins, old(TakenFlags(track.coins)), player.u, player.lane);
        player.coins == old(player.coins) + n && coinCalls == old(coinCalls) + n
    {
      var coins := track.coins;
      var u, lane := player.u, player.lane;
      ghost var was := TakenFlags(coins);
      var gained: nat := 0;
      for i := 0 to |coins|
        invariant forall k :: 0 <= k < i ==> coins[k].taken == (was[k] || CoinInReach(u, lane, coins[k]))
        invariant forall k :: i <= k < |coins| ==> coins[k].taken == was[k]
        invariant gained == CollectableAmong(coins, was, u, lane, i)
        invariant player.coins == old(player.coins) + gained
        invariant coinCalls == old(coinCalls) + gained
      {
        var took := TakeCoin(coins[i], u, lane);
        if took {
          player.coins := player.coins + 1;
          coinCalls := coinCalls + 1;
          gained := gained + 1;
        }
      }
    }

    /** The advance part of `step`. */
    method Advance(dt: real, speed: real) returns (lapped: bool)
      modifies player`speed, player`lastU, player`u, player`laps
      ensures player.State() == Advanced(old(player.State()), speed, dt)
      ensures lapped <==> player.laps > old(player.laps)
    {
      player.speed := speed;
      player.lastU := player.u;
      player.u := player.u + Travel(player.speed, dt);
      lapped := player.u >= 1.0;
      if lapped {
        player.laps := player.laps + 1;
        player.u := 0.0;
        player.lastU := 0.0;
      }
    }

    /** The end of `step`: a lap that reaches the target finishes the
        race; otherwise the AI racers move. */
    method Conclude(dt: real, lapped: bool, newTargets: seq<real>, rolls: seq<real>)
      requires DistinctRacers(ai) && |newTargets| == |ai| && |rolls| == |ai|
      requires lapped ==> player.u == 0.0 && player.laps >= 1
      modifies this`phase, this`lastFinishPlace, this`finishEvents, set a | a in ai
      ensures unchanged(player) && unchanged(CoinSet(track))
      ensures lapped && player.laps >= totalLaps ==>
        phase == Finished &&
        lastFinishPlace == Some(Placement(player.u + player.laps as real, ReportedTotals(ai))) &&
        lastFinishPlace == Some(1) &&
        finishEvents == old(finishEvents) + [FinishEvent(lastFinishPlace.value, time, player.coins)] &&
        (forall a :: a in ai ==> unchanged(a))
      ensures !(lapped && player.laps >= totalLaps) ==>
        phase == old(phase) && lastFinishPlace == old(lastFinishPlace) && finishEvents == old(finishEvents) &&
        (forall i :: 0 <= i < |ai| ==>
          ai[i].State() == RacerStep(old(ai[i].State()), dt, player.u, newTargets[i], rolls[i]))
    {
      if lapped && player.laps >= totalLaps {
        Finish();
        return;
      }
      UpdateAI(dt, ai, player.u, player.speed, newTargets, rolls);
    }

    /** The finishing part of `step`: rank against the AI totals, record
        the place and report it through `onFinish`. */
    method Finish()
      modifies this`phase, this`lastFinishPlace, this`finishEvents
      ensures phase == Finished
      ensures lastFinishPlace == Some(Placement(player.u + player.laps as real, ReportedTotals(ai)))
      ensures player.u == 0.0 && player.laps >= 1 ==> lastFinishPlace == Some(1)
      ensures finishEvents == old(finishEvents) + [FinishEvent(lastFinishPlace.value, time, player.coins)]
    {
      var others := ReportedTotals(ai);
      var playerTotal := player.u + player.laps as real;
      var ahead := CountAbove(playerTotal, others);
      var place := ahead + 1;
      if player.u == 0.0 && player.laps >= 1 {
        PlacementAsWrittenIsFirst(ai, player.laps);
      }
      phase := Finished;
      lastFinishPlace := Some(place);
      finishEvents := finishEvents + [FinishEvent(place, time, player.coins)];
    }

    /** `setTurn`: the steering intent, clamped to [-1, 1]. */
    method SetTurn(d: real)
      modifies this`desiredTurn
      ensures desiredTurn == Clamp(d, -1.0, 1.0)
    {
      desiredTurn := Max(-1.0, Min(1.0, d));
    }

    /** `setAccel`: recorded, clamped to [0, 1], not used by `step`. */
    method SetAccel(a: real)
      modifies this`accel
      ensures accel == Clamp(a, 0.0, 1.0)
    {
      accel := Max(0.0, Min(1.0, a));
    }

    /** `tryBoost`: outside racing and countdown nothing happens; otherwise
        the player record is replaced by a boosted copy. */
    method TryBoost()
      modifies this`player
      ensures !Steerable(phase) ==> player == old(player)
      ensures Steerable(phase) ==> fresh(player) && player.State() == Boosted(old(player.State()), config.player)
    {
      if phase != Racing && phase != Countdown {
        return;
      }
      var p := new Player.Copy(player);
      if p.boostCooldown <= 0.0 {
        p.boosting := config.player.boostDuration;
        p.boostCooldown := config.player.boostCooldown;
      }
      player := p;
    }

    /** `togglePause` */
    method TogglePause()
      modifies this`phase
      ensures phase == TogglePhase(old(phase))
    {
      phase := if phase == Paused then Racing else if phase == Racing then Paused else phase;
    }

    /** `restart`: a new track (built by the caller), a fresh player and
        fresh AI racers, counting down from 3 again. */
    method Restart(newTrack: Track)
      requires DistinctCoins(newTrack)
      modifies this`phase, this`time, this`countdown, this`track, this`player, this`ai,
               this`totalLaps, this`lastFinishPlace
      ensures Valid() && track == newTrack
      ensures phase == Countdown && time == 0.0 && countdown == StartCountdown
      ensures totalLaps == config.lapsToWin && lastFinishPlace == None
      ensures fresh(player) && player.State() == StartPlayer
      ensures |ai| == config.aiCount && forall i :: 0 <= i < |ai| ==> fresh(ai[i])
      ensures forall i :: 0 <= i < |ai| ==>
        ai[i].State() == RacerState(0.25 + 0.15 * i as real, if i == 0 then -0.3 else 0.3,
                                    BaseSpeed, 0.0, 0.0, 2.0 + 0.8 * i as real)
    {
      track := newTrack;
      player := new Player();
      ai := CreateAIRacers(config.aiCount);
      phase, time, countdown := Countdown, 0.0, StartCountdown;
      totalLaps := config.lapsToWin;
      lastFinishPlace := None;
    }

    /** `toggleLane`: outside racing and countdown nothing happens;
        otherwise a copy of the player jumps to the opposite band. */
    method ToggleLane()
      modifies this`player
      ensures !Steerable(phase) ==> player == old(player)
      ensures Steerable(phase) ==>
        fresh(player) && player.State() == old(player.State()).(lane := ToggledLane(old(player.lane)))
    {
      if phase != Racing && phase != Countdown {
        return;
      }
      var p := new Player.Copy(player);
      p.lane := if p.lane >= 0.0 then -0.6 else 0.6;
      player := p;
    }

    /** Pointer `onDown(x)`: start a drag from the current lane. */
    method OnDown(x: real)
      modifies this`drag
      ensures drag == Some(Drag(x, player.lane))
    {
      drag := Some(Drag(x, player.lane));
    }

    /** Pointer `onMove(x)`: ignored without a drag; otherwise the steering
        intent follows the lane the drag points at. */
    method OnMove(x: real)
      modifies this`desiredTurn
      ensures drag == None ==> desiredTurn == old(desiredTurn)
      ensures drag.Some? ==> desiredTurn == PointerTurn(drag.value, x, player.lane)
    {
      if drag == None {
        return;
      }
      var dx := x - drag.value.startX;
      var desired := drag.value.startLane + dx / PointerSensitivity;
      var clamped := Max(-1.0, Min(1.0, desired));
      desiredTurn := Max(-1.0, Min(1.0, (clamped - player.lane) * 2.0));
    }

    /** Pointer `onUp()`: end the drag and stop steering. */
    method OnUp()
      modifies this`drag, this`desiredTurn
      ensures drag == None && desiredTurn == 0.0
    {
      drag := None;
      desiredTurn := 0.0;
    }
  }
}
