/**
 * AI opponents (src/game/core/ai.ts): rubber-band speed correction toward
 * the player, opportunistic boosts with a randomised cooldown, lane
 * weaving toward a target, and wrapped advance along the loop.
 *
 * The lane target `Math.sin(...) * 0.5` and the cooldown draw
 * `Math.random()` are inputs: `newTarget` and `roll`.
 */
module AI {
  import opened Numeric
  import opened World

  /** The values of one racer's fields at an instant. */
  datatype RacerState = RacerState(
    u: real,
    lane: real,
    speed: real,
    targetLane: real,
    boostTimer: real,
    boostCooldown: real)

  const BaseSpeed: real := 0.16
  const BoostBonus: real := 0.12
  const BoostTime: real := 1.2

  /** `playerU - a.u`, brought into [-1/2, 1/2] by at most one lap either
      way (the two `if`s of the source, in order). */
  function RubberDiff(playerU: real, u: real): (d: real)
    ensures -1.5 <= playerU - u <= 1.5 ==> -0.5 <= d <= 0.5
    ensures d == playerU - u || d == playerU - u - 1.0 || d == playerU - u + 1.0
  {
    var d0 := playerU - u;
    var d1 := if d0 > 0.5 then d0 - 1.0 else d0;
    if d1 < -0.5 then d1 + 1.0 else d1
  }

  /** For progress values in [0, 1), the AI's own wrapping agrees with the
      track's `progressDelta` from the racer to the player. */
  lemma RubberDiffIsProgressDelta(playerU: real, u: real)
    requires 0.0 <= playerU < 1.0 && 0.0 <= u < 1.0
    ensures RubberDiff(playerU, u) == ProgressDelta(u, playerU)
  {
    Wrap01Identity(playerU);
    Wrap01Identity(u);
  }

  /** Rubber-band bonus `clamp(-diff * 0.25, -0.05, 0.10)`, bounded to
      [-0.05, 0.10].  As written, a racer behind the player (diff > 0)
      slows down and one ahead of the player (diff < 0) speeds up. */
  function RubberBonus(diff: real): (b: real)
    ensures -0.05 <= b <= 0.10
    ensures -0.4 <= diff <= 0.2 ==> b == -diff * 0.25
    ensures diff > 0.0 ==> b < 0.0
    ensures diff < 0.0 ==> b > 0.0
  {
    Clamp(-diff * 0.25, -0.05, 0.10)
  }

  /** As written, a boost starts only when the racer is just ahead of the
      player (the player trails by less than 0.12 of a lap) and the
      cooldown, already decremented by this step's `dt`, has elapsed. */
  predicate BoostTriggers(diff: real, cooldownAfterTick: real)
  {
    -0.12 < diff < 0.0 && cooldownAfterTick <= 0.0
  }

  /** As written, a racer 0.2 of a lap behind the player gets the
      largest slowdown, and a racer 0.05 of a lap ahead of the player may
      boost further ahead. */
  lemma RubberBandAsWritten()
    ensures RubberBonus(0.2) == -0.05
    ensures BoostTriggers(-0.05, 0.0)
  {
  }

  /** The rubber band the comments of `updateAI` describe ("if far behind,
      speed up; if ahead, slow slightly"): the same clamp applied to the
      racer's lead over the player instead of the player's lead. */
  function IntendedRubberBonus(diff: real): (b: real)
    ensures -0.05 <= b <= 0.10
    ensures diff > 0.0 ==> b > 0.0
    ensures diff < 0.0 ==> b < 0.0
  {
    Clamp(diff * 0.25, -0.05, 0.10)
  }

  /** The boost the comments describe ("when just behind player"): the
      racer trails the player by less than 0.12 of a lap. */
  predicate IntendedBoostTriggers(diff: real, cooldownAfterTick: real)
  {
    0.0 < diff < 0.12 && cooldownAfterTick <= 0.0
  }

  /** The intended variants are the as-written ones with the sign of the
      difference flipped: a trailing racer speeds up by what a leading
      racer gains as written, and boosts exactly when, as written, a
      racer that far ahead would. */
  lemma IntendedIsMirrored(diff: real, cooldownAfterTick: real)
    ensures IntendedRubberBonus(diff) == RubberBonus(-diff)
    ensures IntendedBoostTriggers(diff, cooldownAfterTick) <==> BoostTriggers(-diff, cooldownAfterTick)
    ensures IntendedBoostTriggers(diff, cooldownAfterTick) ==> diff > 0.0 && !BoostTriggers(diff, cooldownAfterTick)
  {
  }

  /** The boost timer after a possible trigger, before it ticks. */
  function TimerAfterTrigger(a: RacerState, dt: real, playerU: real): real
  {
    if BoostTriggers(RubberDiff(playerU, a.u), a.boostCooldown - dt) then BoostTime else a.boostTimer
  }

  /** `Math.min(1, dt * 2)` */
  function EaseFactor(dt: real): (k: real)
    ensures k <= 1.0
    ensures 0.0 <= dt ==> 0.0 <= k
    ensures dt <= 0.5 ==> k == 2.0 * dt
    ensures dt >= 0.5 ==> k == 1.0
  {
    Min(1.0, dt * 2.0)
  }

  /** `lane + (target - lane) * Math.min(1, dt * 2)`: an eased move toward
      the target. */
  function EasedLane(lane: real, target: real, dt: real): real
  {
    lane + (target - lane) * EaseFactor(dt)
  }

  predicate Between(x: real, a: real, b: real)
  {
    (a <= x <= b) || (b <= x <= a)
  }

  lemma EaseBetween(lane: real, target: real, k: real)
    ensures 0.0 <= k <= 1.0 ==> Between(lane + (target - lane) * k, lane, target)
  {
    if 0.0 <= k <= 1.0 {
      var d := target - lane;
      assert d - d * k == d * (1.0 - k);
      if d >= 0.0 {
        assert d * k >= 0.0 && d * (1.0 - k) >= 0.0;
      } else {
        assert (-d) * k >= 0.0 && (-d) * (1.0 - k) >= 0.0;
      }
    }
  }

  /** One racer's update within `updateAI`, on the values of its fields. */
  function RacerStep(a: RacerState, dt: real, playerU: real, newTarget: real, roll: real): (r: RacerState)
    // progress is always wrapped into [0, 1)
    ensures 0.0 <= r.u < 1.0
    // speed: base plus the bounded rubber band, plus the boost bonus while boosting
    ensures TimerAfterTrigger(a, dt, playerU) > 0.0 ==> 0.23 <= r.speed <= 0.38
    ensures TimerAfterTrigger(a, dt, playerU) <= 0.0 ==> 0.11 <= r.speed <= 0.26
    ensures r.speed == BaseSpeed + RubberBonus(RubberDiff(playerU, a.u)) +
                       (if TimerAfterTrigger(a, dt, playerU) > 0.0 then BoostBonus else 0.0)
    // cooldown: redrawn as 3.5 + 2 roll on a trigger, otherwise down by exactly dt
    ensures BoostTriggers(RubberDiff(playerU, a.u), a.boostCooldown - dt) ==>
              r.boostCooldown == 3.5 + 2.0 * roll && r.boostTimer == BoostTime - dt
    ensures !BoostTriggers(RubberDiff(playerU, a.u), a.boostCooldown - dt) ==>
              r.boostCooldown == a.boostCooldown - dt &&
              r.boostTimer == (if a.boostTimer > 0.0 then a.boostTimer - dt else a.boostTimer)
    // a new lane target only once the old one is (nearly) reached
    ensures r.targetLane == (if -0.05 < a.lane - a.targetLane < 0.05 then newTarget else a.targetLane)
  {
    var diff := RubberDiff(playerU, a.u);
    var cooldown := a.boostCooldown - dt;
    var trig := BoostTriggers(diff, cooldown);
    var timer := if trig then BoostTime else a.boostTimer;
    var cooldown' := if trig then 3.5 + 2.0 * roll else cooldown;
    var speed := BaseSpeed + RubberBonus(diff) + (if timer > 0.0 then BoostBonus else 0.0);
    var timer' := if timer > 0.0 then timer - dt else timer;
    var target := if -0.05 < a.lane - a.targetLane < 0.05 then newTarget else a.targetLane;
    var lane := EasedLane(a.lane, target, dt);
    RacerState(Wrap01(a.u + Travel(speed, dt)), lane, speed, target, timer', cooldown')
  }

  /** A racer advances by `speed * dt` around the loop: the new progress is
      that sum brought back into [0, 1) by whole laps. */
  lemma RacerStepAdvance(a: RacerState, dt: real, playerU: real, newTarget: real, roll: real)
    ensures var r := RacerStep(a, dt, playerU, newTarget, roll);
      IsInteger((a.u + Travel(r.speed, dt)) - r.u)
  {
    var r := RacerStep(a, dt, playerU, newTarget, roll);
    Wrap01Congruent(a.u + Travel(r.speed, dt));
  }

  /** For a non-negative `dt` the lane moves toward the target without
      overshooting it. */
  lemma RacerStepLane(a: RacerState, dt: real, playerU: real, newTarget: real, roll: real)
    requires 0.0 <= dt
    ensures var r := RacerStep(a, dt, playerU, newTarget, roll);
      Between(r.lane, a.lane, r.targetLane)
  {
    var r := RacerStep(a, dt, playerU, newTarget, roll);
    EaseBetween(a.lane, r.targetLane, EaseFactor(dt));
  }

  /** An AI racer; `updateAI` changes its fields in place. */
  class Racer {
    var u: real
    var lane: real
    var speed: real
    var targetLane: real
    var boostTimer: real
    var boostCooldown: real

    function State(): RacerState
      reads this
    {
      RacerState(u, lane, speed, targetLane, boostTimer, boostCooldown)
    }

    constructor (u: real, lane: real, targetLane: real, speed: real, boostTimer: real, boostCooldown: real)
      ensures State() == RacerState(u, lane, speed, targetLane, boostTimer, boostCooldown)
    {
      this.u := u;
      this.lane := lane;
      this.speed := speed;
      this.targetLane := targetLane;
      this.boostTimer := boostTimer;
      this.boostCooldown := boostCooldown;
    }

    /** The body of the `for (const a of ai)` loop, statement by statement. */
    method Update(dt: real, playerU: real, newTarget: real, roll: real)
      modifies this
      ensures State() == RacerStep(old(State()), dt, playerU, newTarget, roll)
    {
      ghost var a := State();
      var diff := playerU - u;
      if diff > 0.5 { diff := diff - 1.0; }
      if diff < -0.5 { diff := diff + 1.0; }
      assert diff == RubberDiff(playerU, a.u);
      var bonus := Max(-0.05, Min(0.10, -diff * 0.25));
      var maxSpeed := BaseSpeed + bonus;

      boostCooldown := boostCooldown - dt;
      if diff > -0.12 && diff < 0.0 && boostCooldown <= 0.0 {
        boostTimer := BoostTime;
        boostCooldown := 3.5 + 2.0 * roll;
      }
      assert boostTimer == TimerAfterTrigger(a, dt, playerU);
      if boostTimer > 0.0 {
        maxSpeed := maxSpeed + BoostBonus;
        boostTimer := boostTimer - dt;
      }

      if -0.05 < lane - targetLane < 0.05 {
        targetLane := newTarget;
      }
      lane := EasedLane(lane, targetLane, dt);

      speed := maxSpeed;
      u := Wrap01(u + Travel(speed, dt));
      ghost var r := RacerStep(a, dt, playerU, newTarget, roll);
      assert u == r.u && speed == r.speed && lane == r.lane;
      assert targetLane == r.targetLane && boostTimer == r.boostTimer && boostCooldown == r.boostCooldown;
      assert RacerState(u, lane, speed, targetLane, boostTimer, boostCooldown) == r;
    }
  }

  /** No racer object appears twice in the list. */
  predicate DistinctRacers(ai: seq<Racer>)
  {
    forall i, j :: 0 <= i < j < |ai| ==> ai[i] != ai[j]
  }

  /** `createAIRacers(count)`: racer i starts at 0.25 + 0.15 i, the first
      on lane -0.3 and the others on 0.3, all at speed 0.16 with no boost
      and a cooldown staggered by 0.8 s per racer. */
  method CreateAIRacers(count: nat) returns (ai: seq<Racer>)
    ensures |ai| == count && DistinctRacers(ai)
    ensures forall i :: 0 <= i < count ==>
      fresh(ai[i]) &&
      ai[i].State() == RacerState(0.25 + 0.15 * i as real, if i == 0 then -0.3 else 0.3,
                                  BaseSpeed, 0.0, 0.0, 2.0 + 0.8 * i as real)
  {
    ai := [];
    for i := 0 to count
      invariant |ai| == i && DistinctRacers(ai)
      invariant forall k :: 0 <= k < i ==>
        fresh(ai[k]) &&
        ai[k].State() == RacerState(0.25 + 0.15 * k as real, if k == 0 then -0.3 else 0.3,
                                    BaseSpeed, 0.0, 0.0, 2.0 + 0.8 * k as real)
    {
      var a := new Racer(0.25 + i as real * 0.15, if i == 0 then -0.3 else 0.3, 0.0, BaseSpeed, 0.0,
                         2.0 + i as real * 0.8);
      ai := ai + [a];
    }
  }

  /** `updateAI`: every racer takes one `RacerStep`, in place; the player's
      speed is passed in but plays no part in the result. */
  method UpdateAI(dt: real, ai: seq<Racer>, playerU: real, playerSpeed: real,
                  newTargets: seq<real>, rolls: seq<real>)
    requires DistinctRacers(ai)
    requires |newTargets| == |ai| && |rolls| == |ai|
    modifies set a | a in ai
    ensures forall i :: 0 <= i < |ai| ==>
      ai[i].State() == RacerStep(old(ai[i].State()), dt, playerU, newTargets[i], rolls[i])
  {
    for i := 0 to |ai|
      invariant forall k :: 0 <= k < i ==>
        ai[k].State() == RacerStep(old(ai[k].State()), dt, playerU, newTargets[k], rolls[k])
      invariant forall k :: i <= k < |ai| ==> ai[k].State() == old(ai[k].State())
    {
      ai[i].Update(dt, playerU, newTargets[i], rolls[i]);
    }
  }
}
