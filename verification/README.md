# Racing and delivery game core in Dafny

This project models the game logic of a small browser racing and delivery
game and proves properties of that model. It covers five source files.

- **Track progress** (`World`, src/game/core/world.ts). Progress `u` is a
  fraction of a lap on a closed loop.
  - `wrap01` brings any value into [0, 1).
  - `progressDelta` is the signed shortest difference between two progress
    values on that circle.
  - `createOvalTrack` lays out 45 coins and 6 obstacles along the loop.
  - JavaScript's `%` truncates toward zero. `Numeric.JsRem1` models it
    explicitly, and `Wrap01` is defined on top of it.
- **AI opponents** (`AI`, src/game/core/ai.ts).
  - `createAIRacers` places the racers.
  - `updateAI` updates each racer object in place: rubber-band speed toward
    the player, boosts with a randomised cooldown, easing toward a lane
    target, and wrapped advance.
  - The racers are a `Racer` class. `Racer.Update` is proved equal to a pure
    `RacerStep` over the racer's field values.
- **Race engine** (`Engine`, src/game/core/engine.ts).
  - The race state is a `Race` class holding the shared `Player` object, the
    track's `Coin` objects and the AI racers. The phase machine is
    `loading | countdown | racing | paused | finished`.
  - The per-frame `step` is `Race.Step`. It is split into methods that follow
    the source's statements in order:
    - timers and steering;
    - the coin loop;
    - the obstacle loop;
    - the advance and lap count;
    - the finish check, or else the AI update.
  - Each of those methods is proved against a specification function on
    field values (`PlayerAfterStep`, `CountCollectable`, `ObstacleSlowdown`,
    `Placement`).
  - The commands `setTurn`, `setAccel`, `tryBoost`, `togglePause`,
    `restart`, `toggleLane` and the pointer handlers are `Race` methods.
  - The `onCoin` callback is recorded as a ghost count of its calls.
    `onFinish` is recorded as a ghost log of the events passed to it.
- **Wallet and missions** (`Store`, src/game/store.tsx).
  - The pure `reducer` over coins, vehicle, upgrades, missions and score is
    `Reduce`.
  - The default missions and state are constants.
  - The `spendCoins` and `buyUpgrade` wrappers are `SpendCoinsAction` and
    `BuyUpgradeAction`. Each returns whether the action was accepted,
    together with the resulting state.
  - A state invariant (`Inv`) is proved to hold initially and to be kept by
    every action whose amounts are non-negative.
- **Delivery mini-game** (`Delivery`, the `useDeliveryGame` hook of
  src/app/delivery/page.tsx).
  - The initial state, the timer tick, `movePlayer`, `togglePause` and
    `restart` work on an immutable state record.
  - `movePlayer`'s `forEach`, which reassigns a local state, is the method
    `InteractWithAll`. It is proved equal to folding `Interact` over the
    points.
  - An invariant is kept by every operation. It says that the courier stays
    on the map, carries at most `maxPackages` packages and none twice, and
    that `score == pointsPerDelivery * completedDeliveries`.

The model follows the code as written. The finishing place shows the
largest consequence of that.

- At src/game/core/engine.ts:195, each AI total is `a.u + a.laps || 0`.
  A racer has no `laps` field (src/game/core/ai.ts:3-10), so every AI total
  is 0.
- `Engine.Placement` is the general rule: 1 plus the number of totals
  strictly ahead. `Engine.ReportedTotals` is what the engine actually feeds
  it.
- `Engine.PlacementAsWrittenIsFirst` proves that, as written, a finishing
  player is always reported in first place. `Race.Finish` and `Race.Conclude`
  state this too.

## Model

| member | source | states |
|---|---|---|
| Numeric.Clamp | src/game/store.tsx:68-70 | `Math.max(lo, Math.min(hi, x))` is never below lo. It is in [lo, hi] when lo <= hi. It is the identity on [lo, hi] and gives lo or hi when x is below or above. |
| Numeric.Trunc | src/game/core/world.ts:53 | Truncation toward zero: x minus its integer part is in [0, 1) for x >= 0 and in (-1, 0] for x < 0. |
| Numeric.JsRem1 | src/game/core/world.ts:53 | JavaScript `u % 1` is in [0, 1) for u >= 0 and in (-1, 0] for u < 0. |
| Numeric.JsRem1Congruent | src/game/core/world.ts:53 | `u % 1` differs from u by a whole number. |
| World.Coin.constructor | src/game/core/world.ts:3 | A new coin has the given place and is not taken. |
| World.Wrap01 | src/game/core/world.ts:52-55 | `wrap01(u)` is in [0, 1) for every u. |
| World.Wrap01Congruent | src/game/core/world.ts:52-55 | `wrap01(u)` differs from u by a whole number of laps. |
| World.Wrap01Unique | src/game/core/world.ts:52-55 | Any v in [0, 1) that differs from u by an integer equals `wrap01(u)`. |
| World.Wrap01Identity | src/game/core/world.ts:52-55 | `wrap01` is the identity on [0, 1) and is idempotent. |
| World.Wrap01Periodic | src/game/core/world.ts:52-55 | Shifting u by k whole laps does not change `wrap01(u)`. |
| World.ProgressDelta | src/game/core/world.ts:57-63 | `progressDelta(a, b)` lies in [-0.5, 0.5]. |
| World.ProgressDeltaCongruent | src/game/core/world.ts:57-63 | `progressDelta(a, b)` differs from b - a by a whole number: it is b - a on the circle. |
| World.ProgressDeltaUnique | src/game/core/world.ts:57-63 | A d in (-0.5, 0.5) congruent to b - a is the delta. |
| World.ProgressDeltaAntisymmetric | src/game/core/world.ts:57-63 | `progressDelta(a, a) == 0`, and `progressDelta(a, b) == -progressDelta(b, a)`, also at the +-0.5 antipode. |
| World.ProgressDeltaPeriodic | src/game/core/world.ts:57-63 | Shifting either argument by whole laps leaves the delta unchanged. |
| World.CoinLane | src/game/core/world.ts:26 | The lane of coin i cycles by index: -0.6 when i % 3 is 0, 0 when it is 1, and 0.6 when it is 2. |
| World.CoinProgress | src/game/core/world.ts:26 | For jitter in [0, 1), coin i sits in [0, 1), within 0.01 after i/45. |
| World.ObstacleAt | src/game/core/world.ts:29 | Obstacle i is at i/6 + 0.08, which is in [0, 1). Its lane alternates -0.4/0.4 and its radius is 10. |
| World.CreateOvalTrack | src/game/core/world.ts:17-33 | The track keeps the given geometry. It has exactly 45 fresh, distinct, untaken coins at `CoinProgress(i, jitter[i])` on `CoinLane(i)`, and exactly the 6 obstacles `ObstacleAt(i)`. |
| AI.RubberDiff | src/game/core/ai.ts:23-25 | The wrapped difference is `playerU - u` shifted by at most one lap. It is in [-0.5, 0.5] when the raw difference is within 1.5. |
| AI.RubberDiffIsProgressDelta | src/game/core/ai.ts:23-25 | For progress values in [0, 1), the AI's wrapping equals the track's `progressDelta(u, playerU)`. |
| AI.RubberBonus | src/game/core/ai.ts:27 | The bonus is in [-0.05, 0.10]. It equals -diff/4 inside the clamp. As written it is negative for a racer behind the player (diff > 0) and positive for one ahead (see Findings). |
| AI.EaseFactor | src/game/core/ai.ts:45 | `Math.min(1, dt * 2)` is exactly 2·dt for dt <= 0.5 and exactly 1 from dt = 0.5 on, so it is at most 1 and non-negative for dt >= 0. |
| AI.EaseBetween | src/game/core/ai.ts:45 | Easing with a factor in [0, 1] lands between the lane and the target. |
| AI.RubberBandAsWritten | src/game/core/ai.ts:22-35 | As written, a racer 0.2 of a lap behind the player gets the full slowdown of 0.05, and a racer 0.05 of a lap ahead may trigger a boost. |
| AI.IntendedRubberBonus | src/game/core/ai.ts:22-28 | The bonus the comment describes is in [-0.05, 0.10], positive for a racer behind the player and negative for one ahead. |
| AI.IntendedIsMirrored | src/game/core/ai.ts:22-35 | The intended bonus and boost trigger are the as-written ones at the negated difference. The intended boost fires only for a trailing racer, and never where the as-written one does. |
| AI.RacerStep | src/game/core/ai.ts:21-50 | New progress is in [0, 1). The speed is the base 0.16 plus `RubberBonus` of the wrapped difference to the player, plus the 0.12 boost bonus exactly while the timer (after a possible trigger) is positive; so boosted speed is in [0.23, 0.38], otherwise in [0.11, 0.26]. A trigger sets cooldown 3.5 + 2r and timer 1.2 - dt. Otherwise the cooldown drops by exactly dt and the timer by dt only while positive; neither is floored. The target is refreshed only within 0.05 of it. |
| AI.RacerStepAdvance | src/game/core/ai.ts:48-49 | New progress differs from u + speed*dt by whole laps. |
| AI.RacerStepLane | src/game/core/ai.ts:42-45 | For dt >= 0 the new lane lies between the old lane and the (possibly refreshed) target. |
| AI.Racer.constructor | src/game/core/ai.ts:15 | Sets every racer field to the given value. |
| AI.Racer.Update | src/game/core/ai.ts:22-49 | The in-place loop body leaves the racer in exactly the state `RacerStep` gives. |
| AI.CreateAIRacers | src/game/core/ai.ts:12-18 | Returns count distinct fresh racers. Racer i has u = 0.25 + 0.15 i, lane -0.3 for the first and 0.3 for the others, target 0, speed 0.16, timer 0 and cooldown 2 + 0.8 i. |
| AI.UpdateAI | src/game/core/ai.ts:20-51 | Each racer takes exactly one `RacerStep` with its own lane target and draw. `playerSpeed` plays no part. |
| Engine.CountdownAfter | src/game/core/engine.ts:141-147 | In countdown the counter drops by exactly dt while it stays positive, and is exactly 0 once countdown - dt <= 0, so it is never negative. Other phases keep it. |
| Engine.PhaseAfterCountdown | src/game/core/engine.ts:141-147 | Countdown becomes racing exactly when countdown - dt <= 0, and stays countdown otherwise. Other phases are kept. |
| Engine.CooldownAfter | src/game/core/engine.ts:151 | The boost cooldown is floored at 0 and never rises for dt >= 0. It drops by exactly dt while that stays non-negative. |
| Engine.BoostingAfter | src/game/core/engine.ts:152 | Non-positive boost time is kept. Positive boost time drops by exactly dt while that stays non-negative and is exactly 0 otherwise, so it never rises for dt >= 0. |
| Engine.SteerLane | src/game/core/engine.ts:155-157 | The lane moves by exactly turn·turnRate·dt while that stays in [-1, 1], and stops at -1 or 1 past either edge; it is in [-1, 1] whatever the turn input. |
| Engine.SpeedCap | src/game/core/engine.ts:160-165 | Boost speed replaces base speed while boosting. An edge lane (absolute lane above 0.98) costs 30%. The result is in [0, max configured speed]. |
| Engine.TakeCoin | src/game/core/engine.ts:169-175 | A coin is taken (and reported) exactly when it was untaken and within reach. A taken coin stays taken. |
| Engine.CollectableAmong | src/game/core/engine.ts:168-176 | The coins the loop takes among the first i are at most i. |
| Engine.CountCollectable | src/game/core/engine.ts:168-176 | The coins one step takes are at most the number of coins. |
| Engine.NothingCollectableIff | src/game/core/engine.ts:168-176 | Nothing is collected if and only if every coin was already taken or out of reach. |
| Engine.ObstacleSlowdown | src/game/core/engine.ts:177-181 | Obstacle halvings keep a non-negative speed in [0, speed] and a positive speed positive. |
| Engine.ObstacleSlowdownHits | src/game/core/engine.ts:177-181 | Away from every obstacle the speed is kept. A single obstacle that is hit halves it. |
| Engine.ApplyObstacles | src/game/core/engine.ts:177-181 | The obstacle loop computes exactly `ObstacleSlowdown`. |
| Engine.CountAbove | src/game/core/engine.ts:197 | The number of totals strictly ahead is at most the number of totals. |
| Engine.Placement | src/game/core/engine.ts:195-198 | The place is in [1, 1 + number of AI racers]. |
| Engine.FirstPlaceIff | src/game/core/engine.ts:195-198 | Place 1 if and only if no AI total exceeds the player's. |
| Engine.LastPlaceIff | src/game/core/engine.ts:195-198 | Last place if and only if every AI total exceeds the player's. |
| Engine.PlacementAppend | src/game/core/engine.ts:195-198 | One more racer moves the place back by one exactly when that racer is ahead. |
| Engine.PlacementSecondExample | src/game/core/engine.ts:195-198 | Totals 1.2 and 0.3 against 1.1 give second place. |
| Engine.ReportedAITotal | src/game/core/engine.ts:195 | The AI total `a.u + a.laps`, with its fallback to 0, is 0 when `laps` is absent and the sum when it is present. |
| Engine.ReportedTotals | src/game/core/engine.ts:195 | Every AI total the engine ranks against is 0. |
| Engine.PlacementAsWrittenIsFirst | src/game/core/engine.ts:193-198 | As written, a player finishing with at least one lap is always reported first. |
| Engine.TogglePhase | src/game/core/engine.ts:85 | Racing and paused swap (both directions as iffs). Every other phase is kept. |
| Engine.TogglePhaseTwice | src/game/core/engine.ts:85 | Toggling twice restores the phase. |
| Engine.PointerTurn | src/game/core/engine.ts:106-113 | The turn is in [-1, 1]. Its sign is toward the clamped lane the drag points at, and it is 0 when that lane is reached. |
| Engine.ToggledLane | src/game/core/engine.ts:96 | The new lane is -0.6 or 0.6, on the side opposite the old lane (0 counts as the right side). |
| Engine.Moved | src/game/core/engine.ts:159-192 | The coin, obstacle and advance part keeps the lane and the timers, and adds exactly the coins gained. |
| Engine.PlayerAfterStep | src/game/core/engine.ts:149-192 | After an integrated step the cooldown is non-negative, the lane is in [-1, 1], coins grow by exactly the coins gained, and laps grow by 0 or 1. |
| Engine.PlayerAfterStepSpeed | src/game/core/engine.ts:151-181 | The step's lane, timers and speed are the steered lane, the ticked timers and the capped speed halved per obstacle hit at the pre-move position. The speed is in [0, max configured speed]. |
| Engine.PlayerAfterStepProgress | src/game/core/engine.ts:184-192 | A lap is counted exactly when u + speed*dt >= 1; then u and lastU become 0. Otherwise u advances by speed*dt and lastU is the old u. For u in [0, 1), dt >= 0 and non-negative speeds, u stays in [0, 1). |
| Engine.Boosted | src/game/core/engine.ts:76-82 | A boost starts (duration and cooldown from the config) only when the cooldown is <= 0. Nothing else changes. |
| Engine.BoostedTwice | src/game/core/engine.ts:74-84 | For every configuration, a second boost request straight after a first changes nothing. |
| Engine.ToggledLaneTwice | src/game/core/engine.ts:96 | Toggling twice lands on the band on the starting side. |
| Engine.Player.constructor | src/game/core/engine.ts:61 | A new player is at the start with every field 0. |
| Engine.Player.Steer | src/game/core/engine.ts:149-157 | The timer and steering statements produce exactly `Steered` of the old fields. |
| Engine.Player.Copy | src/game/core/engine.ts:77 | `{ ...p }` has the same field values. |
| Engine.Race.constructor | src/game/core/engine.ts:59-64 | Counting down from 3 at time 0 with the target laps from the config. The player is fresh at the start. There are `config.ai.count` fresh racers, racer i at u = 0.25 + 0.15 i on lane -0.3 (first) or 0.3, with speed 0.16, target 0, timer 0 and cooldown 2 + 0.8 i. There is no input and no event. |
| Engine.Race.Step | src/game/core/engine.ts:136-210 | Paused and finished races are frozen: phase, time, countdown, player, coins, AI and both callbacks are unchanged, so `onFinish` fires at most once. Otherwise `Integrated` holds. That means countdown and time tick; the player is `PlayerAfterStep` with n coins; n equals the coins flipped to taken and the `onCoin` calls; and on finishing, the phase is finished, the place is `Placement` of the reported totals, exactly one event is logged and the AI is not updated. If the race does not finish, every racer takes its `RacerStep`. |
| Engine.Race.Frame | src/game/core/engine.ts:122-126 | One animation frame steps the race with the steering intent stored by `setTurn`, `onMove` or `onUp`. It gives the same guarantees as `Race.Step` with that turn, and keeps the inputs. |
| Engine.Race.Integrate | src/game/core/engine.ts:141-209 | A step of a countdown or racing state satisfies `Integrated`, as above. |
| Engine.Race.Move | src/game/core/engine.ts:141-192 | Phase, countdown, time, the player record, the coin flags and the `onCoin` count after the timers, coins, obstacles and advance. The lap flag is set exactly when a lap was counted. |
| Engine.Race.Drive | src/game/core/engine.ts:159-192 | The player becomes `Moved` with the coins collected at the pre-move position. Coin flags and the `onCoin` count match. |
| Engine.Race.TickTimers | src/game/core/engine.ts:141-157 | The countdown, phase, time and steered player record are as specified. |
| Engine.Race.CollectCoins | src/game/core/engine.ts:168-176 | Each coin is taken if it was taken or is within reach. Player coins and `onCoin` calls both grow by exactly the number of coins flipped. |
| Engine.Race.Advance | src/game/core/engine.ts:183-192 | The player becomes `Advanced`. The lap flag is set exactly when a lap was counted. |
| Engine.Race.Conclude | src/game/core/engine.ts:193-207 | On a lap reaching the target: finished, place `Placement` (which is 1 as written), one `onFinish` event, AI untouched. Otherwise every racer takes its `RacerStep` and nothing else changes. |
| Engine.Race.Finish | src/game/core/engine.ts:193-203 | The phase is finished, the recorded place is `Placement` of the reported totals (1 for a player at u = 0 with a lap), and exactly one event (place, time, coins) is logged. |
| Engine.Race.SetTurn | src/game/core/engine.ts:72 | The steering intent is the input clamped to [-1, 1]. |
| Engine.Race.SetAccel | src/game/core/engine.ts:73 | The acceleration is the input clamped to [0, 1]. |
| Engine.Race.TryBoost | src/game/core/engine.ts:74-84 | Nothing happens outside racing and countdown. Otherwise the player becomes a fresh copy that is `Boosted`. |
| Engine.Race.TogglePause | src/game/core/engine.ts:85 | The phase becomes `TogglePhase` of the old phase. |
| Engine.Race.Restart | src/game/core/engine.ts:86-91 | A new track and a fresh player at the start. There are `config.ai.count` fresh AI racers in the `createAIRacers` starting states (racer i at u = 0.25 + 0.15 i, lane -0.3 or 0.3, cooldown 2 + 0.8 i). The race counts down from 3 at time 0 with the target laps from the config. |
| Engine.Race.ToggleLane | src/game/core/engine.ts:92-100 | Nothing happens outside racing and countdown. Otherwise the player becomes a fresh copy on the opposite band, with every other field kept. |
| Engine.Race.OnDown | src/game/core/engine.ts:103-105 | A drag starts at x from the current lane. |
| Engine.Race.OnMove | src/game/core/engine.ts:106-113 | Without a drag the intent is kept. Otherwise it becomes `PointerTurn`. |
| Engine.Race.OnUp | src/game/core/engine.ts:114 | The drag ends and steering stops. |
| Store.FindMission | src/game/store.tsx:124 | `find` returns the index of the first mission with the key, or None exactly when no mission has it. |
| Store.AdvanceMission | src/game/store.tsx:110-115 | A completed mission is untouched. Any other mission changes only progress and the completed flag. Its progress rises by exactly count while the sum stays in [0, goal], stops at 0 below and at the goal above, and the completed flag is set exactly when the goal is reached. |
| Store.ClaimMission | src/game/store.tsx:119-123 | Only `claimed` changes, and it is set exactly for a completed mission with the key. |
| Store.AdvanceMissions | src/game/store.tsx:110-115 | The mission list keeps its length. |
| Store.ClaimMissions | src/game/store.tsx:119-123 | The mission list keeps its length. |
| Store.Reduce | src/game/store.tsx:72-133 | Every action but LOAD keeps the mission list's length. Both wash actions leave cleanliness in [0, 100]. |
| Store.LoadAndOther | src/game/store.tsx:74-75 | LOAD replaces the state wholesale. An unrecognised action (lines 130-131) returns the state unchanged. |
| Store.AddCoinsAndGainScore | src/game/store.tsx:76-77 | ADD_COINS changes only coins, by exactly the amount. GAIN_SCORE (lines 128-129) changes only the score, by exactly the amount. |
| Store.SpendCoinsRules | src/game/store.tsx:78-82 | A short balance leaves the state unchanged. Otherwise coins drop by exactly the amount, stay >= 0, and nothing else changes. |
| Store.WashRules | src/game/store.tsx:83-92 | START_WASH takes exactly 5 off cleanliness when that stays in [0, 100], and gives 0 (or 100) when it would leave that range. FINISH_WASH adds exactly amount (default 50) when the sum stays in [0, 100], and gives 100 or 0 when it would not. FINISH_WASH pays bonus (default 5). Nothing else changes, and absent values equal the defaults. |
| Store.BuyUpgradeRules | src/game/store.tsx:93-107 | Refused (state unchanged) when owned or the balance is short. Otherwise the cost is paid, the level rises by 1, that key and only that key becomes owned, and missions, score and cleanliness are kept. |
| Store.BuyUpgradeTwice | src/game/store.tsx:93-107 | Buying the same key twice equals buying it once. Once bought, no price buys it again. |
| Store.CompleteDeliveryRules | src/game/store.tsx:108-117 | Pays count coins. Completed missions are untouched. An open mission's progress rises by exactly count while the sum stays within its goal, stops at the goal (and completes) past it, stays in [0, goal], and is completed exactly when it reaches the goal; no completed flag is reverted. Length, keys, rewards and claimed flags are kept, as are the vehicle and the score. |
| Store.ClaimRules | src/game/store.tsx:118-127 | Pays only for an existing, completed, unclaimed mission, marking the first such-keyed mission claimed and leaving other keys untouched. Every other case returns the state unchanged. |
| Store.ClaimTwice | src/game/store.tsx:118-127 | A second claim of the same mission is a no-op: a reward is paid at most once. |
| Store.DefaultStateInv | src/game/store.tsx:38-54 | The default state (0 coins, cleanliness 50, level 1, the three missions in order) satisfies the invariant. |
| Store.ReducePreservesInv | src/game/store.tsx:72-133 | Every action with non-negative grants keeps a non-negative balance, cleanliness in [0, 100], level >= 1, the three mission keys in order and well-formed missions (progress in [0, goal], completed iff goal reached, claimed only when completed). |
| Store.SpendCoinsAction | src/game/store.tsx:182-186 | The wrapper answers true exactly when the balance covers the amount. Its state equals the reducer's, and on true the coins drop by the amount. |
| Store.BuyUpgradeAction | src/game/store.tsx:189-194 | The wrapper answers true exactly when the upgrade is not owned and affordable. Its state equals the reducer's, and it answers true exactly when the state changed. |
| Delivery.CoinsFor | src/app/delivery/page.tsx:80 | `Math.floor(score / 10)`: c*10 <= score < c*10 + 10, and non-negative for a non-negative score. |
| Delivery.Tick | src/app/delivery/page.tsx:74-92 | Three deliveries finish the game. Else a clock at or below 0.05 finishes it with timeLeft 0. Else timeLeft drops by exactly 0.05 and nothing else changes. `onFinish(score, floor(score/10))` is reported exactly on the finishing branches. |
| Delivery.TicksKeepFinished | src/app/delivery/page.tsx:74-92 | A finished game stays finished under further ticks. |
| Delivery.TicksFinish | src/app/delivery/page.tsx:74-92 | Enough ticks to cover the time left always finish the game. |
| Delivery.Without | src/app/delivery/page.tsx:127 | The filter removes exactly that package (so the list shrinks if it was carried) and keeps the list free of duplicates. |
| Delivery.MarkCollected | src/app/delivery/page.tsx:119-121 | Exactly the points with the id are marked collected. Nothing else changes. |
| Delivery.RemoveId | src/app/delivery/page.tsx:131 | Exactly the points with the id are removed. |
| Delivery.Interact | src/app/delivery/page.tsx:110-134 | An interaction never moves the courier and never changes phase or clock. |
| Delivery.InteractRules | src/app/delivery/page.tsx:112-133 | A pickup happens only near an uncollected pickup whose package is not carried and with room; it appends the package, marks the point and counts once. A dropoff happens only near a dropoff while carrying its package. The new state is then exactly the old one with that package filtered out, the points with that id removed, `pointsPerDelivery` added to the score and both delivery counters up by one. Otherwise nothing changes, and a collected pickup is never picked up. |
| Delivery.Moved | src/app/delivery/page.tsx:103-104 | The courier moves by exactly dx, dy times the speed while that stays inside [20, width - 20] x [20, height - 20], and stops on the margin past it; it never leaves that box. Nothing else changes. |
| Delivery.MovePlayer | src/app/delivery/page.tsx:99-139 | Unchanged unless playing. Otherwise: the move, then every point of the previous state in order. The courier ends within [20, width - 20] x [20, height - 20], and the invariant is kept. |
| Delivery.InteractWithAll | src/app/delivery/page.tsx:109-135 | The `forEach` that reassigns the local state equals folding `Interact` over the points, and keeps the courier's position. |
| Delivery.TogglePause | src/app/delivery/page.tsx:141-146 | Playing pauses and every other phase, finished included, resumes (both as iffs). Nothing else changes. |
| Delivery.TogglePauseTwice | src/app/delivery/page.tsx:141-146 | For a game that is not finished, pausing and resuming restores it. |
| Delivery.Restart | src/app/delivery/page.tsx:148-169 | Restarting yields the initial state (centre, score and counters 0, no packages, full clock, the six original uncollected points, playing) except for the stored carry limit, which is kept. |
| Delivery.InitialInv | src/app/delivery/page.tsx:43-67 | The initial state satisfies the invariant. |
| Delivery.InteractPreservesInv | src/app/delivery/page.tsx:112-133 | One interaction keeps the invariant: at most `maxPackages` packages, none twice, score = pointsPerDelivery x deliveries, deliveries = dropoffs. |
| Delivery.InteractAllPreservesInv | src/app/delivery/page.tsx:109-135 | The whole `forEach` keeps the invariant and the phase. |
| Delivery.TickPreservesInv | src/app/delivery/page.tsx:74-92 | A tick, and likewise a pause, keeps the invariant. |
| Delivery.MovePreservesInv | src/app/delivery/page.tsx:99-139 | A move keeps the invariant on a map at least 40 wide and high. |
| Delivery.RestartInv | src/app/delivery/page.tsx:148-169 | A restart lands in a state satisfying the invariant. |

## Findings

| source | as written | input that shows it | evidently intended | confidence | as-written member | corrected member |
|---|---|---|---|---|---|---|
| src/game/core/ai.ts:22-35 | `diff = playerU - a.u`, the bonus `clamp(-diff * 0.25, -0.05, 0.10)` and the boost window `-0.12 < diff < 0`: a racer behind the player slows down, and a racer just ahead of the player boosts. | A racer 0.2 of a lap behind the player (diff = 0.2) gets bonus -0.05. A racer 0.05 ahead (diff = -0.05) with an elapsed cooldown boosts. | As the comments at ai.ts:22 and ai.ts:30 say: a trailing racer speeds up and boosts when just behind the player. That is the same rules at the negated difference. | medium; not executed | AI.RubberBandAsWritten | AI.IntendedRubberBonus, AI.IntendedIsMirrored |

`AI.RacerStep`, `AI.Racer.Update` and `AI.UpdateAI` keep the code's
behaviour, since the in-place update is proved against the code itself.
The intended bonus and boost window are stated beside them, together with
how they relate to the as-written ones.

## Left out
- Engine.Race.Step: takes the steering intent as a parameter. `Race.Frame` is the frame of the animation loop that passes the stored `desiredTurn`.

- React wiring is not modelled: `useState`, `useRef`, `useMemo`, `useEffect` and contexts.
- The `requestAnimationFrame` loop that drives `step` is not modelled, and neither is its clamp of dt to at most 0.02 s (src/game/core/engine.ts:120-131). `Race.Step` accepts any dt. The lemmas that need it assume dt >= 0.
- The delivery page's `setInterval` timer and keyboard listeners are not modelled. `Tick` is one timer callback and `MovePlayer` one movement request.
  - The interval exists only while the game is playing (page.tsx:71), and the model assumes that React's effect cleanup stops callbacks once the game is paused or finished. `Tick` itself is defined on any state and leaves a finished game finished (`TicksKeepFinished`).
- `createStraightTrack` is not part of this model: it is imported by engine.ts but its definition is not shown. The initial and restarted race take the track as a parameter.
- Trigonometry is left out:
  - `sampleTrack` and `uToTheta` are rendering geometry.
  - The Ramanujan perimeter is the `length` parameter of `CreateOvalTrack`.
  - The AI lane target `Math.sin(...) * 0.5` is a per-racer input, `newTarget`.
- `Math.random()` is an input: the coin jitter draws (`jitter`, in [0, 1)) and the AI cooldown draws (`roll`).
- Numbers are exact reals, so IEEE-754 rounding is not modelled. For example, `wrap01` of a tiny negative number can round to 1.0 in JavaScript.
- Callbacks are not modelled as foreign calls:
  - `onCoin` is a ghost count of its calls.
  - `onFinish` in the race is a ghost log of (place, time, coins).
  - `onFinish` in the delivery game is the `FinishReport` a tick returns.
  - The optional-chaining case where no hook is installed is not distinguished.
- The shallow copy `{ ...prev }` at engine.ts:137 is folded into an in-place update of the `Race` object. The hook discards `prev`, and the player, coin and racer objects are updated in place in the source too.
- Closure staleness is not modelled; each model reads the current state instead:
  - `onDown` and `onMove` read `state.player.lane` from the rendering closure.
  - The `spendCoins` and `buyUpgrade` wrappers read `state` from theirs.
- Coins and AI racers are assumed to be distinct objects (the `Race.Valid` predicate), as `CreateOvalTrack` and `CreateAIRacers` build them. Aliased coin or racer objects are not modelled.
- `GameProvider`'s localStorage load, merge and persist steps are not modelled (store.tsx:149-179); they are I/O. The thin wrappers other than `spendCoins` and `buyUpgrade` only dispatch and are covered by `Reduce`.
- The vehicle's constant `id` field is omitted.
- `DeliveryPoint.package` and `collected` are optional in the source. Here they are always present, since every point of the game has a package and an absent `collected` is false.
- Store numbers, including coins, are reals with no integrality constraint.
- The distance test `sqrt(dx² + dy²) < 30` is compared on squares (`< 900`), which is equivalent.
- Engine.ObstacleSlowdownHits: only states the cases of no hit and of a single obstacle hit. `ObstacleSlowdown` itself defines the general halving per hit.
- src/app/orderdispatch/page.tsx and all rendering components are not part of this model.
