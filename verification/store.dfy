/**
 * The persistent wallet, vehicle and mission state (src/game/store.tsx):
 * a pure reducer from a state and an action to the next state, plus the
 * two action wrappers that answer whether a purchase went through.
 *
 * Every number of the source is a JavaScript number; it is a `real` here.
 */
module Store {
  import opened Numeric

  datatype MissionKey = Deliver1 | Deliver5 | Deliver50

  datatype Mission = Mission(
    key: MissionKey,
    title: string,
    goal: real,
    progress: real,
    reward: real,
    completed: bool,
    claimed: bool)

  datatype UpgradeKey = ShinyWheels | Performance | DeluxeSponge | CustomPaint

  /** The optional boolean flags of `Upgrades`: a missing key is `undefined`. */
  type Upgrades = map<UpgradeKey, bool>

  /** `upgrades[key]` is truthy. */
  predicate Owned(u: Upgrades, k: UpgradeKey)
  {
    k in u && u[k]
  }

  datatype Vehicle = Vehicle(cleanliness: real, level: real, upgrades: Upgrades)

  datatype GameState = GameState(
    coins: real,
    vehicle: Vehicle,
    missions: seq<Mission>,
    leaderboardScore: real)

  /** The actions of the reducer.  `amount` and `bonus` of a finished wash
      may be absent (`None`); `Other` stands for any action whose type the
      reducer does not recognise. */
  datatype Action =
    | Load(state: GameState)
    | AddCoins(amount: real)
    | SpendCoins(amount: real)
    | StartWash
    | FinishWash(washAmount: Option<real>, bonus: Option<real>)
    | BuyUpgrade(upgrade: UpgradeKey, cost: real)
    | CompleteDelivery(count: real)
    | ClaimMissionReward(mission: MissionKey)
    | GainScore(points: real)
    | Other

  const DefaultMissions: seq<Mission> := [
    Mission(Deliver1, "Deliver 1 package", 1.0, 0.0, 10.0, false, false),
    Mission(Deliver5, "Deliver 5 packages", 5.0, 0.0, 60.0, false, false),
    Mission(Deliver50, "Deliver 50 packages", 50.0, 0.0, 800.0, false, false)
  ]

  const DefaultState: GameState := GameState(0.0, Vehicle(50.0, 1.0, map[]), DefaultMissions, 0.0)

  /** `a ?? d` */
  function OrDefault(a: Option<real>, d: real): real
  {
    match a
    case None => d
    case Some(v) => v
  }

  // ---------------------------------------------------------------------
  // Missions

  /** Index of the mission `missions.find(m => m.key === key)` returns:
      the first one with that key, if any. */
  function FindMission(ms: seq<Mission>, key: MissionKey): (r: Option<nat>)
    ensures r.Some? ==> r.value < |ms| && ms[r.value].key == key &&
                        forall j :: 0 <= j < r.value ==> ms[j].key != key
    ensures r.None? ==> forall j :: 0 <= j < |ms| ==> ms[j].key != key
  {
    if ms == [] then None
    else if ms[0].key == key then Some(0)
    else
      match FindMission(ms[1..], key)
      case None => None
      case Some(i) => Some(i + 1)
  }

  /** One mission under `COMPLETE_DELIVERY`: a completed mission is left as
      it is; any other advances by `count`, clamped to [0, goal], and is
      completed exactly when it reaches its goal. */
  function AdvanceMission(m: Mission, count: real): (r: Mission)
    ensures m.completed ==> r == m
    ensures !m.completed ==> r == m.(progress := r.progress, completed := r.completed)
    ensures !m.completed && 0.0 <= m.goal ==> 0.0 <= r.progress <= m.goal
    ensures !m.completed ==> (r.completed <==> r.progress >= m.goal)
    ensures !m.completed && 0.0 <= m.goal <= m.progress + count ==> r.completed
    ensures !m.completed && 0.0 <= m.progress + count <= m.goal ==> r.progress == m.progress + count
    ensures !m.completed && m.progress + count < 0.0 ==> r.progress == 0.0
    ensures !m.completed && 0.0 <= m.goal < m.progress + count ==> r.progress == m.goal
  {
    if m.completed then m
    else
      var newProgress := Clamp(m.progress + count, 0.0, m.goal);
      m.(progress := newProgress, completed := newProgress >= m.goal || m.completed)
  }

  /** One mission under `CLAIM_MISSION_REWARD`: a completed, unclaimed
      mission with the key becomes claimed; nothing else changes. */
  function ClaimMission(m: Mission, key: MissionKey): (r: Mission)
    ensures r.claimed <==> m.claimed || (m.key == key && m.completed)
    ensures r == m.(claimed := r.claimed)
  {
    if m.key != key then m
    else if !m.completed || m.claimed then m
    else m.(claimed := true)
  }

  function AdvanceMissions(ms: seq<Mission>, count: real): (r: seq<Mission>)
    ensures |r| == |ms|
  {
    seq(|ms|, i requires 0 <= i < |ms| => AdvanceMission(ms[i], count))
  }

  function ClaimMissions(ms: seq<Mission>, key: MissionKey): (r: seq<Mission>)
    ensures |r| == |ms|
  {
    seq(|ms|, i requires 0 <= i < |ms| => ClaimMission(ms[i], key))
  }

  /** The keys of a mission list, in order. */
  function Keys(ms: seq<Mission>): (ks: seq<MissionKey>)
    ensures |ks| == |ms|
  {
    seq(|ms|, i requires 0 <= i < |ms| => ms[i].key)
  }

  // ---------------------------------------------------------------------
  // The reducer

  /** `reducer(state, action)` */
  function Reduce(s: GameState, a: Action): (r: GameState)
    ensures !a.Load? ==> |r.missions| == |s.missions|
    ensures a.StartWash? || a.FinishWash? ==> 0.0 <= r.vehicle.cleanliness <= 100.0
  {
    match a
    case Load(t) => t
    case AddCoins(n) => s.(coins := s.coins + n)
    case SpendCoins(n) =>
      if !(s.coins >= n) then s else s.(coins := s.coins - n)
    case StartWash =>
      s.(vehicle := s.vehicle.(cleanliness := Clamp(s.vehicle.cleanliness - 5.0, 0.0, 100.0)))
    case FinishWash(amount, bonus) =>
      var cleanliness := Clamp(s.vehicle.cleanliness + OrDefault(amount, 50.0), 0.0, 100.0);
      s.(vehicle := s.vehicle.(cleanliness := cleanliness), coins := s.coins + OrDefault(bonus, 5.0))
    case BuyUpgrade(k, cost) =>
      if Owned(s.vehicle.upgrades, k) then s
      else if s.coins < cost then s
      else s.(coins := s.coins - cost,
              vehicle := s.vehicle.(level := s.vehicle.level + 1.0,
                                    upgrades := s.vehicle.upgrades[k := true]))
    case CompleteDelivery(count) =>
      s.(coins := s.coins + count, missions := AdvanceMissions(s.missions, count))
    case ClaimMissionReward(key) =>
      var missions := ClaimMissions(s.missions, key);
      (match FindMission(s.missions, key)
       case None => s
       case Some(i) =>
         if !s.missions[i].completed || s.missions[i].claimed then s
         else s.(coins := s.coins + s.missions[i].reward, missions := missions))
    case GainScore(n) => s.(leaderboardScore := s.leaderboardScore + n)
    case Other => s
  }

  /** `LOAD` replaces the state wholesale; an unrecognised action leaves it
      as it is. */
  lemma LoadAndOther(s: GameState, t: GameState)
    ensures Reduce(s, Load(t)) == t
    ensures Reduce(s, Other) == s
  {
  }

  /** `ADD_COINS` changes only the coins, by exactly the amount; `GAIN_SCORE`
      changes only the score, by exactly the amount. */
  lemma AddCoinsAndGainScore(s: GameState, n: real)
    ensures Reduce(s, AddCoins(n)).coins == s.coins + n
    ensures Reduce(s, AddCoins(n)).(coins := s.coins) == s
    ensures Reduce(s, GainScore(n)).leaderboardScore == s.leaderboardScore + n
    ensures Reduce(s, GainScore(n)).(leaderboardScore := s.leaderboardScore) == s
  {
  }

  /** `SPEND_COINS` is refused when the balance is short, and otherwise
      takes exactly the amount, leaving a non-negative balance. */
  lemma SpendCoinsRules(s: GameState, n: real)
    ensures s.coins < n ==> Reduce(s, SpendCoins(n)) == s
    ensures s.coins >= n ==>
      Reduce(s, SpendCoins(n)).coins == s.coins - n >= 0.0 &&
      Reduce(s, SpendCoins(n)).(coins := s.coins) == s
  {
  }

  /** Washing keeps cleanliness in [0, 100]: a started wash loses 5 points,
      a finished one gains `amount` (50 when absent) and pays `bonus` (5
      when absent), each saturating at the bounds; nothing else changes. */
  lemma WashRules(s: GameState, amount: Option<real>, bonus: Option<real>)
    ensures var r := Reduce(s, StartWash);
      r.(vehicle := s.vehicle) == s && r.vehicle.(cleanliness := s.vehicle.cleanliness) == s.vehicle &&
      (5.0 <= s.vehicle.cleanliness <= 105.0 ==> r.vehicle.cleanliness == s.vehicle.cleanliness - 5.0) &&
      (s.vehicle.cleanliness <= 5.0 ==> r.vehicle.cleanliness == 0.0) &&
      (s.vehicle.cleanliness >= 105.0 ==> r.vehicle.cleanliness == 100.0)
    ensures var r := Reduce(s, FinishWash(amount, bonus));
      r.coins == s.coins + OrDefault(bonus, 5.0) &&
      r.(vehicle := s.vehicle, coins := s.coins) == s && r.vehicle.(cleanliness := s.vehicle.cleanliness) == s.vehicle &&
      (0.0 <= s.vehicle.cleanliness + OrDefault(amount, 50.0) <= 100.0 ==>
        r.vehicle.cleanliness == s.vehicle.cleanliness + OrDefault(amount, 50.0)) &&
      (s.vehicle.cleanliness + OrDefault(amount, 50.0) >= 100.0 ==> r.vehicle.cleanliness == 100.0) &&
      (s.vehicle.cleanliness + OrDefault(amount, 50.0) <= 0.0 ==> r.vehicle.cleanliness == 0.0)
    ensures Reduce(s, FinishWash(None, None)) == Reduce(s, FinishWash(Some(50.0), Some(5.0)))
  {
  }

  /** `BUY_UPGRADE` is refused for an owned upgrade or a short balance;
      otherwise it takes the cost, raises the level by one and marks that
      upgrade, and only that one, owned. */
  lemma BuyUpgradeRules(s: GameState, k: UpgradeKey, cost: real)
    ensures Owned(s.vehicle.upgrades, k) || s.coins < cost ==> Reduce(s, BuyUpgrade(k, cost)) == s
    ensures !Owned(s.vehicle.upgrades, k) && s.coins >= cost ==>
      var r := Reduce(s, BuyUpgrade(k, cost));
      r.coins == s.coins - cost >= 0.0 && r.vehicle.level == s.vehicle.level + 1.0 &&
      Owned(r.vehicle.upgrades, k) &&
      (forall k' :: k' != k ==> (Owned(r.vehicle.upgrades, k') <==> Owned(s.vehicle.upgrades, k'))) &&
      r.missions == s.missions && r.leaderboardScore == s.leaderboardScore &&
      r.vehicle.cleanliness == s.vehicle.cleanliness
  {
  }

  /** Buying the same upgrade twice is buying it once; once bought, no
      price buys it again. */
  lemma BuyUpgradeTwice(s: GameState, k: UpgradeKey, cost: real, cost': real)
    ensures Reduce(Reduce(s, BuyUpgrade(k, cost)), BuyUpgrade(k, cost)) == Reduce(s, BuyUpgrade(k, cost))
    ensures Reduce(s, BuyUpgrade(k, cost)) != s ==>
      Reduce(Reduce(s, BuyUpgrade(k, cost)), BuyUpgrade(k, cost')) == Reduce(s, BuyUpgrade(k, cost))
  {
    var r := Reduce(s, BuyUpgrade(k, cost));
    if r != s {
      assert Owned(r.vehicle.upgrades, k);
    }
  }

  /** `COMPLETE_DELIVERY` pays `count` coins and advances every mission not
      yet completed: completed missions are untouched, progress stays in
      [0, goal], no completed flag is reverted, and the list keeps its
      length and keys. */
  lemma CompleteDeliveryRules(s: GameState, count: real)
    ensures var r := Reduce(s, CompleteDelivery(count));
      r.coins == s.coins + count && r.vehicle == s.vehicle && r.leaderboardScore == s.leaderboardScore &&
      |r.missions| == |s.missions| && Keys(r.missions) == Keys(s.missions) &&
      forall i :: 0 <= i < |s.missions| ==>
        (s.missions[i].completed ==> r.missions[i] == s.missions[i]) &&
        (!s.missions[i].completed && 0.0 <= s.missions[i].goal ==> 0.0 <= r.missions[i].progress <= s.missions[i].goal) &&
        (s.missions[i].completed ==> r.missions[i].completed) &&
        (!s.missions[i].completed && 0.0 <= s.missions[i].progress + count <= s.missions[i].goal ==>
           r.missions[i].progress == s.missions[i].progress + count) &&
        (!s.missions[i].completed && 0.0 <= s.missions[i].goal < s.missions[i].progress + count ==>
           r.missions[i].progress == s.missions[i].goal && r.missions[i].completed) &&
        (!s.missions[i].completed ==> (r.missions[i].completed <==> r.missions[i].progress >= s.missions[i].goal)) &&
        r.missions[i].reward == s.missions[i].reward && r.missions[i].claimed == s.missions[i].claimed
  {
    var r := Reduce(s, CompleteDelivery(count));
    forall i | 0 <= i < |s.missions|
      ensures r.missions[i].key == s.missions[i].key
    {
      assert r.missions[i] == AdvanceMission(s.missions[i], count);
    }
  }

  /** `CLAIM_MISSION_REWARD` pays only for an existing, completed, unclaimed
      mission: the first mission with the key is then marked claimed and
      its reward paid; in every other case the state is unchanged. */
  lemma ClaimRules(s: GameState, key: MissionKey)
    ensures var t := FindMission(s.missions, key);
      t.None? || !s.missions[t.value].completed || s.missions[t.value].claimed ==>
        Reduce(s, ClaimMissionReward(key)) == s
    ensures var t := FindMission(s.missions, key);
      t.Some? && s.missions[t.value].completed && !s.missions[t.value].claimed ==>
        var r := Reduce(s, ClaimMissionReward(key));
        r.coins == s.coins + s.missions[t.value].reward && r.missions[t.value].claimed &&
        r.vehicle == s.vehicle && r.leaderboardScore == s.leaderboardScore &&
        forall i :: 0 <= i < |s.missions| && s.missions[i].key != key ==> r.missions[i] == s.missions[i]
  {
  }

  /** A reward is paid at most once: a second claim of the same mission is
      a no-op. */
  lemma ClaimTwice(s: GameState, key: MissionKey)
    ensures var r := Reduce(s, ClaimMissionReward(key));
      Reduce(r, ClaimMissionReward(key)) == r
  {
    var r := Reduce(s, ClaimMissionReward(key));
    if r != s {
      var i := FindMission(s.missions, key).value;
      var ms := ClaimMissions(s.missions, key);
      assert r.missions == ms;
      assert forall j :: 0 <= j < |ms| ==> ms[j] == ClaimMission(s.missions[j], key);
      assert FindMission(ms, key) == Some(i) by {
        FindSameKeys(s.missions, ms, key);
      }
      assert ms[i].claimed;
    }
  }

  /** `find` only looks at the keys. */
  lemma {:induction false} FindSameKeys(ms: seq<Mission>, ns: seq<Mission>, key: MissionKey)
    requires |ms| == |ns| && forall j :: 0 <= j < |ms| ==> ms[j].key == ns[j].key
    ensures FindMission(ms, key) == FindMission(ns, key)
  {
    if ms != [] && ms[0].key != key {
      FindSameKeys(ms[1..], ns[1..], key);
    }
  }

  // ---------------------------------------------------------------------
  // The state invariant

  /** A mission as the reducer keeps it: progress within [0, goal],
      completed exactly when the goal is reached, claimed only once
      completed, and a non-negative reward. */
  predicate MissionOk(m: Mission)
  {
    0.0 <= m.progress <= m.goal && (m.completed <==> m.progress >= m.goal) &&
    (m.claimed ==> m.completed) && m.reward >= 0.0
  }

  /** A state the reducer can reach from the default one: a non-negative
      balance, cleanliness within [0, 100], level at least 1, and the
      three missions, in order, each well formed. */
  predicate Inv(s: GameState)
  {
    s.coins >= 0.0 && 0.0 <= s.vehicle.cleanliness <= 100.0 && s.vehicle.level >= 1.0 &&
    Keys(s.missions) == [Deliver1, Deliver5, Deliver50] &&
    forall i :: 0 <= i < |s.missions| ==> MissionOk(s.missions[i])
  }

  /** Actions whose amounts keep the balance non-negative: no negative
      coin grants, wash bonuses or delivery counts, and a loaded state that
      is itself well formed. */
  predicate Sensible(a: Action)
  {
    match a
    case Load(t) => Inv(t)
    case AddCoins(n) => n >= 0.0
    case FinishWash(_, bonus) => OrDefault(bonus, 5.0) >= 0.0
    case CompleteDelivery(count) => count >= 0.0
    case _ => true
  }

  lemma DefaultStateInv()
    ensures Inv(DefaultState)
  {
    assert Keys(DefaultMissions) == [Deliver1, Deliver5, Deliver50];
  }

  /** Every sensible action preserves the invariant. */
  lemma ReducePreservesInv(s: GameState, a: Action)
    requires Inv(s) && Sensible(a)
    ensures Inv(Reduce(s, a))
  {
    var r := Reduce(s, a);
    match a {
      case CompleteDelivery(count) =>
        forall i | 0 <= i < |r.missions|
          ensures MissionOk(r.missions[i]) && r.missions[i].key == s.missions[i].key
        {
          assert r.missions[i] == AdvanceMission(s.missions[i], count);
        }
        assert Keys(r.missions) == Keys(s.missions);
      case ClaimMissionReward(key) =>
        if r != s {
          forall i | 0 <= i < |r.missions|
            ensures MissionOk(r.missions[i]) && r.missions[i].key == s.missions[i].key
          {
            assert r.missions[i] == ClaimMission(s.missions[i], key);
          }
          assert Keys(r.missions) == Keys(s.missions);
        }
      case _ =>
    }
  }

  // ---------------------------------------------------------------------
  // The action wrappers that answer

  /** What a wrapper answers, and the state after its dispatch (if any). */
  datatype Outcome = Outcome(accepted: bool, state: GameState)

  /** `spendCoins(n)`: answers false without dispatching when the balance
      is short; otherwise dispatches `SPEND_COINS` and answers true.  The
      answer says exactly whether the coins were taken. */
  function SpendCoinsAction(s: GameState, n: real): (o: Outcome)
    ensures o.accepted <==> s.coins >= n
    ensures o.state == Reduce(s, SpendCoins(n))
    ensures o.accepted ==> o.state.coins == s.coins - n
  {
    if s.coins < n then Outcome(false, s)
    else Outcome(true, Reduce(s, SpendCoins(n)))
  }

  /** `buyUpgrade(key, cost)`: answers false without dispatching for an
      owned upgrade or a short balance; otherwise dispatches `BUY_UPGRADE`
      and answers true.  The answer says exactly whether the upgrade was
      bought. */
  function BuyUpgradeAction(s: GameState, k: UpgradeKey, cost: real): (o: Outcome)
    ensures o.accepted <==> !Owned(s.vehicle.upgrades, k) && s.coins >= cost
    ensures o.state == Reduce(s, BuyUpgrade(k, cost))
    ensures o.accepted <==> o.state != s
  {
    if Owned(s.vehicle.upgrades, k) then Outcome(false, s)
    else if s.coins < cost then Outcome(false, s)
    else
      var r := Reduce(s, BuyUpgrade(k, cost));
      assert Owned(r.vehicle.upgrades, k);
      Outcome(true, r)
  }
}
