/**
 * The delivery mini-game (the `useDeliveryGame` hook of
 * src/app/delivery/page.tsx): a courier on a rectangular map picks up
 * packages and drops them off before the clock runs out.
 *
 * The game state is an immutable record replaced by each update, so it is
 * a datatype here.  The interval timer and the keyboard are not part of
 * the model: `Tick` is the body of one timer callback, `MovePlayer` that
 * of one movement request, and the `onFinish` call of a tick is returned
 * as a `FinishReport`.
 */
module Delivery {
  import opened Numeric

  datatype Phase = Playing | Paused | Finished

  datatype PointKind = Pickup | Dropoff

  /** A delivery point.  Every point of the game carries a package name;
      `collected` is false until a pickup marks it. */
  datatype DeliveryPoint = DeliveryPoint(
    id: string,
    x: real,
    y: real,
    kind: PointKind,
    package: string,
    collected: bool)

  datatype Config = Config(
    gameTimeSeconds: real,
    mapWidth: real,
    mapHeight: real,
    playerSpeed: real,
    maxPackages: nat,
    pointsPerDelivery: real)

  datatype DeliveryState = DeliveryState(
    phase: Phase,
    playerX: real,
    playerY: real,
    score: real,
    timeLeft: real,
    packagesCarried: seq<string>,
    deliveryPoints: seq<DeliveryPoint>,
    completedDeliveries: nat,
    totalPickups: nat,
    totalDropoffs: nat,
    maxPackages: nat)

  /** The arguments of one `onFinish(score, coins)` call. */
  datatype FinishReport = FinishReport(score: real, coins: int)

  datatype TickResult = TickResult(state: DeliveryState, report: Option<FinishReport>)

  /** Deliveries that win the game (pkg1, pkg2 and pkg3). */
  const TotalPackages: nat := 3

  /** Seconds taken off the clock per timer callback. */
  const TickSeconds: real := 0.05

  /** Margin kept between the courier and the map border. */
  const Margin: real := 20.0

  /** The six points every game starts with: three pickups and the three
      matching dropoffs. */
  const InitialPoints: seq<DeliveryPoint> := [
    DeliveryPoint("pickup1", 100.0, 100.0, Pickup, "pkg1", false),
    DeliveryPoint("dropoff1", 400.0, 150.0, Dropoff, "pkg1", false),
    DeliveryPoint("pickup2", 150.0, 300.0, Pickup, "pkg2", false),
    DeliveryPoint("dropoff2", 450.0, 250.0, Dropoff, "pkg2", false),
    DeliveryPoint("pickup3", 300.0, 80.0, Pickup, "pkg3", false),
    DeliveryPoint("dropoff3", 200.0, 350.0, Dropoff, "pkg3", false)
  ]

  /** The state the hook starts from. */
  function Initial(cfg: Config): DeliveryState
  {
    DeliveryState(Playing, cfg.mapWidth / 2.0, cfg.mapHeight / 2.0, 0.0, cfg.gameTimeSeconds,
                  [], InitialPoints, 0, 0, 0, cfg.maxPackages)
  }

  // ---------------------------------------------------------------------
  // Timer

  /** `Math.floor(score / 10)`, the coins a finished game pays. */
  function CoinsFor(score: real): (c: int)
    ensures c as real * 10.0 <= score < c as real * 10.0 + 10.0
    ensures 0.0 <= score ==> 0 <= c
  {
    (score / 10.0).Floor
  }

  /** One timer callback: three deliveries win; otherwise the clock loses
      0.05 s and the game ends, clock at 0, once it would reach 0.  A
      finishing callback reports the score and the coins it earns. */
  function Tick(s: DeliveryState): (t: TickResult)
    ensures s.completedDeliveries >= TotalPackages ==>
      t.state == s.(phase := Finished)
    ensures s.completedDeliveries < TotalPackages && s.timeLeft <= TickSeconds ==>
      t.state == s.(phase := Finished, timeLeft := 0.0)
    ensures s.completedDeliveries < TotalPackages && s.timeLeft > TickSeconds ==>
      t.state == s.(timeLeft := s.timeLeft - TickSeconds) && t.report == None
    ensures t.report.Some? <==> t.state.phase == Finished && (s.completedDeliveries >= TotalPackages || s.timeLeft <= TickSeconds)
    ensures t.report.Some? ==> t.report.value == FinishReport(s.score, CoinsFor(s.score))
  {
    var newTimeLeft := s.timeLeft - TickSeconds;
    if s.completedDeliveries >= TotalPackages then
      TickResult(s.(phase := Finished), Some(FinishReport(s.score, CoinsFor(s.score))))
    else if newTimeLeft <= 0.0 then
      TickResult(s.(phase := Finished, timeLeft := 0.0), Some(FinishReport(s.score, CoinsFor(s.score))))
    else
      TickResult(s.(timeLeft := newTimeLeft), None)
  }

  /** The state after `n` timer callbacks. */
  function Ticks(s: DeliveryState, n: nat): DeliveryState
    decreases n
  {
    if n == 0 then s else Ticks(Tick(s).state, n - 1)
  }

  /** Once finished, a game stays finished however often the timer fires. */
  lemma {:induction false} TicksKeepFinished(s: DeliveryState, n: nat)
    requires s.phase == Finished
    ensures Ticks(s, n).phase == Finished
    decreases n
  {
    if n > 0 {
      TicksKeepFinished(Tick(s).state, n - 1);
    }
  }

  /** The clock always runs out: `n` callbacks covering the time left
      finish the game. */
  lemma {:induction false} TicksFinish(s: DeliveryState, n: nat)
    requires n >= 1 && s.timeLeft <= TickSeconds * n as real
    ensures Ticks(s, n).phase == Finished
    decreases n
  {
    var t := Tick(s).state;
    if t.phase == Finished {
      TicksKeepFinished(t, n - 1);
    } else {
      assert s.timeLeft > TickSeconds;
      TicksFinish(t, n - 1);
    }
  }

  // ---------------------------------------------------------------------
  // Movement and interaction

  /** `Math.sqrt(dx ** 2 + dy ** 2) < 30`, compared on squares. */
  predicate Near(x: real, y: real, p: DeliveryPoint)
  {
    (x - p.x) * (x - p.x) + (y - p.y) * (y - p.y) < 900.0
  }

  /** `packagesCarried.filter(pkg => pkg !== package)` */
  function Without(ps: seq<string>, package: string): (r: seq<string>)
    ensures package !in r
    ensures forall q :: q in r <==> q in ps && q != package
    ensures |r| <= |ps|
    ensures package in ps ==> |r| < |ps|
    ensures NoDuplicates(ps) ==> NoDuplicates(r)
  {
    if ps == [] then []
    else
      var rest := Without(ps[1..], package);
      assert ps == [ps[0]] + ps[1..];
      assert NoDuplicates(ps) ==> NoDuplicates(ps[1..]) && ps[0] !in ps[1..];
      if ps[0] == package then rest else [ps[0]] + rest
  }

  predicate NoDuplicates(ps: seq<string>)
  {
    forall i, j :: 0 <= i < j < |ps| ==> ps[i] != ps[j]
  }

  /** `deliveryPoints.map(p => p.id === id ? { ...p, collected: true } : p)` */
  function MarkCollected(ps: seq<DeliveryPoint>, id: string): (r: seq<DeliveryPoint>)
    ensures |r| == |ps|
    ensures forall i :: 0 <= i < |ps| ==>
      r[i] == (if ps[i].id == id then ps[i].(collected := true) else ps[i])
  {
    seq(|ps|, i requires 0 <= i < |ps| => if ps[i].id == id then ps[i].(collected := true) else ps[i])
  }

  /** `deliveryPoints.filter(p => p.id !== id)` */
  function RemoveId(ps: seq<DeliveryPoint>, id: string): (r: seq<DeliveryPoint>)
    ensures forall p :: p in r <==> p in ps && p.id != id
    ensures |r| <= |ps|
  {
    if ps == [] then []
    else
      var rest := RemoveId(ps[1..], id);
      assert ps == [ps[0]] + ps[1..];
      if ps[0].id == id then rest else [ps[0]] + rest
  }

  /** One iteration of the `forEach` over the points of the state before
      the move, with the courier already at the new position.  Near a
      pickup whose package is not yet collected or carried, with room to
      carry it, the package is picked up; near a dropoff whose package is
      carried, it is delivered; otherwise nothing happens. */
  function Interact(cfg: Config, s: DeliveryState, point: DeliveryPoint): (r: DeliveryState)
    ensures r.playerX == s.playerX && r.playerY == s.playerY && r.phase == s.phase && r.timeLeft == s.timeLeft
  {
    if !Near(s.playerX, s.playerY, point) then s
    else if point.kind == Pickup && !point.collected && point.package !in s.packagesCarried
            && |s.packagesCarried| < cfg.maxPackages then
      s.(packagesCarried := s.packagesCarried + [point.package],
         totalPickups := s.totalPickups + 1,
         deliveryPoints := MarkCollected(s.deliveryPoints, point.id))
    else if point.kind == Dropoff && point.package in s.packagesCarried then
      s.(packagesCarried := Without(s.packagesCarried, point.package),
         score := s.score + cfg.pointsPerDelivery,
         completedDeliveries := s.completedDeliveries + 1,
         totalDropoffs := s.totalDropoffs + 1,
         deliveryPoints := RemoveId(s.deliveryPoints, point.id))
    else s
  }

  /** What one interaction does: a pickup adds the package, marks the
      point collected and is counted once; a dropoff happens only for a
      carried package, which it removes together with the point, paying
      and counting the delivery; otherwise nothing changes, and a collected
      pickup is never picked up again. */
  lemma InteractRules(cfg: Config, s: DeliveryState, point: DeliveryPoint)
    ensures var r := Interact(cfg, s, point);
      r.totalPickups == s.totalPickups + 1 ==>
        Near(s.playerX, s.playerY, point) && point.kind == Pickup && !point.collected &&
        point.package !in s.packagesCarried && |s.packagesCarried| < cfg.maxPackages &&
        r == s.(packagesCarried := s.packagesCarried + [point.package], totalPickups := r.totalPickups,
                deliveryPoints := MarkCollected(s.deliveryPoints, point.id))
    ensures var r := Interact(cfg, s, point);
      r.completedDeliveries == s.completedDeliveries + 1 ==>
        Near(s.playerX, s.playerY, point) && point.kind == Dropoff && point.package in s.packagesCarried &&
        r == s.(packagesCarried := Without(s.packagesCarried, point.package),
                score := s.score + cfg.pointsPerDelivery,
                completedDeliveries := r.completedDeliveries,
                totalDropoffs := s.totalDropoffs + 1,
                deliveryPoints := RemoveId(s.deliveryPoints, point.id)) &&
        point.package !in r.packagesCarried && |r.packagesCarried| < |s.packagesCarried| &&
        (forall p :: p in r.deliveryPoints <==> p in s.deliveryPoints && p.id != point.id)
    ensures var r := Interact(cfg, s, point);
      r == s || r.totalPickups == s.totalPickups + 1 || r.completedDeliveries == s.completedDeliveries + 1
    ensures point.collected ==> Interact(cfg, s, point).totalPickups == s.totalPickups
  {
  }

  /** The `forEach`: `Interact` with each point in turn, first to last. */
  function InteractAll(cfg: Config, s: DeliveryState, points: seq<DeliveryPoint>): DeliveryState
  {
    if points == [] then s
    else Interact(cfg, InteractAll(cfg, s, points[..|points| - 1]), points[|points| - 1])
  }

  /** The courier after moving by (dx, dy) steps, kept `Margin` away from
      the border. */
  function Moved(cfg: Config, s: DeliveryState, dx: real, dy: real): (r: DeliveryState)
    ensures r == s.(playerX := r.playerX, playerY := r.playerY)
    ensures Margin <= r.playerX && Margin <= r.playerY
    ensures 2.0 * Margin <= cfg.mapWidth ==> r.playerX <= cfg.mapWidth - Margin
    ensures 2.0 * Margin <= cfg.mapHeight ==> r.playerY <= cfg.mapHeight - Margin
    // inside the margins the courier moves by exactly (dx, dy) times its speed
    ensures Margin <= s.playerX + dx * cfg.playerSpeed <= cfg.mapWidth - Margin ==>
              r.playerX == s.playerX + dx * cfg.playerSpeed
    ensures Margin <= s.playerY + dy * cfg.playerSpeed <= cfg.mapHeight - Margin ==>
              r.playerY == s.playerY + dy * cfg.playerSpeed
    // past a margin it stops on it
    ensures s.playerX + dx * cfg.playerSpeed < Margin ==> r.playerX == Margin
    ensures s.playerY + dy * cfg.playerSpeed < Margin ==> r.playerY == Margin
    ensures 2.0 * Margin <= cfg.mapWidth && s.playerX + dx * cfg.playerSpeed > cfg.mapWidth - Margin ==>
              r.playerX == cfg.mapWidth - Margin
    ensures 2.0 * Margin <= cfg.mapHeight && s.playerY + dy * cfg.playerSpeed > cfg.mapHeight - Margin ==>
              r.playerY == cfg.mapHeight - Margin
  {
    s.(playerX := Clamp(s.playerX + dx * cfg.playerSpeed, Margin, cfg.mapWidth - Margin),
       playerY := Clamp(s.playerY + dy * cfg.playerSpeed, Margin, cfg.mapHeight - Margin))
  }

  /** `movePlayer(dx, dy)`: nothing happens unless the game is being
      played; otherwise the courier moves and then interacts with every
      point of the state before the move, in order. */
  method MovePlayer(cfg: Config, prev: DeliveryState, dx: real, dy: real) returns (next: DeliveryState)
    ensures prev.phase != Playing ==> next == prev
    ensures prev.phase == Playing ==> next == InteractAll(cfg, Moved(cfg, prev, dx, dy), prev.deliveryPoints)
    ensures prev.phase == Playing ==> Margin <= next.playerX && Margin <= next.playerY
    ensures prev.phase == Playing && ConfigOk(cfg) ==>
      next.playerX <= cfg.mapWidth - Margin && next.playerY <= cfg.mapHeight - Margin
    ensures ConfigOk(cfg) && Inv(cfg, prev) ==> Inv(cfg, next)
  {
    if prev.phase != Playing {
      return prev;
    }
    var newX := Max(Margin, Min(cfg.mapWidth - Margin, prev.playerX + dx * cfg.playerSpeed));
    var newY := Max(Margin, Min(cfg.mapHeight - Margin, prev.playerY + dy * cfg.playerSpeed));
    next := prev.(playerX := newX, playerY := newY);
    assert next == Moved(cfg, prev, dx, dy);
    next := InteractWithAll(cfg, next, prev.deliveryPoints);
    if ConfigOk(cfg) && Inv(cfg, prev) {
      MovePreservesInv(cfg, prev, dx, dy);
    }
  }

  /** The `forEach` of `movePlayer`, statement by statement. */
  method InteractWithAll(cfg: Config, s: DeliveryState, points: seq<DeliveryPoint>) returns (next: DeliveryState)
    ensures next == InteractAll(cfg, s, points)
    ensures next.playerX == s.playerX && next.playerY == s.playerY
  {
    next := s;
    for i := 0 to |points|
      invariant next == InteractAll(cfg, s, points[..i])
      invariant next.playerX == s.playerX && next.playerY == s.playerY
    {
      assert points[..i + 1][..i] == points[..i];
      ghost var before := next;
      var point := points[i];
      if Near(s.playerX, s.playerY, point) {
        if point.kind == Pickup && !point.collected && point.package !in next.packagesCarried
           && |next.packagesCarried| < cfg.maxPackages {
          next := next.(packagesCarried := next.packagesCarried + [point.package],
                        totalPickups := next.totalPickups + 1,
                        deliveryPoints := MarkCollected(next.deliveryPoints, point.id));
        } else if point.kind == Dropoff && point.package in next.packagesCarried {
          next := next.(packagesCarried := Without(next.packagesCarried, point.package),
                        score := next.score + cfg.pointsPerDelivery,
                        completedDeliveries := next.completedDeliveries + 1,
                        totalDropoffs := next.totalDropoffs + 1,
                        deliveryPoints := RemoveId(next.deliveryPoints, point.id));
        }
      }
      assert next == Interact(cfg, before, point);
    }
    assert points[..|points|] == points;
  }

  // ---------------------------------------------------------------------
  // Pause and restart

  /** `togglePause`: playing pauses; every other phase, finished included,
      resumes playing. */
  function TogglePause(s: DeliveryState): (r: DeliveryState)
    ensures r.phase == Paused <==> s.phase == Playing
    ensures r.phase == Playing <==> s.phase != Playing
    ensures r == s.(phase := r.phase)
  {
    s.(phase := if s.phase == Playing then Paused else Playing)
  }

  /** Pausing and resuming gets back the game as it was. */
  lemma TogglePauseTwice(s: DeliveryState)
    requires s.phase != Finished
    ensures TogglePause(TogglePause(s)) == s
  {
  }

  /** `restart`: a new game on the original six points; the carry limit
      recorded in the state is kept. */
  function Restart(cfg: Config, s: DeliveryState): (r: DeliveryState)
    ensures r == Initial(cfg).(maxPackages := s.maxPackages)
  {
    s.(phase := Playing, playerX := cfg.mapWidth / 2.0, playerY := cfg.mapHeight / 2.0,
       score := 0.0, timeLeft := cfg.gameTimeSeconds, packagesCarried := [],
       completedDeliveries := 0, totalPickups := 0, totalDropoffs := 0,
       deliveryPoints := InitialPoints)
  }

  // ---------------------------------------------------------------------
  // The state invariant

  /** A map large enough to keep the courier `Margin` from every border. */
  predicate ConfigOk(cfg: Config)
  {
    2.0 * Margin <= cfg.mapWidth && 2.0 * Margin <= cfg.mapHeight
  }

  /** What every reachable state satisfies: the courier is on the map,
      carries at most `maxPackages` packages and none twice, every delivery
      was paid `pointsPerDelivery`, and deliveries equal dropoffs. */
  predicate Inv(cfg: Config, s: DeliveryState)
  {
    Margin <= s.playerX <= cfg.mapWidth - Margin && Margin <= s.playerY <= cfg.mapHeight - Margin &&
    |s.packagesCarried| <= cfg.maxPackages && NoDuplicates(s.packagesCarried) &&
    s.score == cfg.pointsPerDelivery * s.completedDeliveries as real &&
    s.completedDeliveries == s.totalDropoffs
  }

  /** The initial state satisfies the invariant. */
  lemma InitialInv(cfg: Config)
    requires ConfigOk(cfg)
    ensures Inv(cfg, Initial(cfg)) && Inv(cfg, Restart(cfg, Initial(cfg)))
  {
  }

  /** One interaction keeps the invariant: a pickup needs room and a
      package not yet carried; a dropoff pays exactly one delivery. */
  lemma InteractPreservesInv(cfg: Config, s: DeliveryState, point: DeliveryPoint)
    requires Inv(cfg, s)
    ensures Inv(cfg, Interact(cfg, s, point))
  {
    var r := Interact(cfg, s, point);
    InteractRules(cfg, s, point);
    if r.completedDeliveries == s.completedDeliveries + 1 {
      assert r.score == cfg.pointsPerDelivery * s.completedDeliveries as real + cfg.pointsPerDelivery;
    } else if r.totalPickups == s.totalPickups + 1 {
      assert NoDuplicates(r.packagesCarried) by {
        forall i, j | 0 <= i < j < |r.packagesCarried|
          ensures r.packagesCarried[i] != r.packagesCarried[j]
        {
          if j == |s.packagesCarried| {
            assert r.packagesCarried[i] in s.packagesCarried;
          }
        }
      }
    }
  }

  lemma {:induction false} InteractAllPreservesInv(cfg: Config, s: DeliveryState, points: seq<DeliveryPoint>)
    requires Inv(cfg, s)
    ensures Inv(cfg, InteractAll(cfg, s, points))
    ensures InteractAll(cfg, s, points).phase == s.phase
  {
    if points != [] {
      InteractAllPreservesInv(cfg, s, points[..|points| - 1]);
      InteractPreservesInv(cfg, InteractAll(cfg, s, points[..|points| - 1]), points[|points| - 1]);
    }
  }

  /** A timer callback and a pause change neither position, packages nor
      score, so they keep the invariant. */
  lemma TickPreservesInv(cfg: Config, s: DeliveryState)
    requires Inv(cfg, s)
    ensures Inv(cfg, Tick(s).state) && Inv(cfg, TogglePause(s))
  {
    var t := Tick(s).state;
    assert t.(phase := s.phase, timeLeft := s.timeLeft) == s;
  }

  /** A move keeps the courier on the map and interacts under the rules
      above, so it keeps the invariant. */
  lemma MovePreservesInv(cfg: Config, s: DeliveryState, dx: real, dy: real)
    requires ConfigOk(cfg) && Inv(cfg, s)
    ensures Inv(cfg, InteractAll(cfg, Moved(cfg, s, dx, dy), s.deliveryPoints))
  {
    InteractAllPreservesInv(cfg, Moved(cfg, s, dx, dy), s.deliveryPoints);
  }

  /** A restart starts over in a state satisfying the invariant. */
  lemma RestartInv(cfg: Config, s: DeliveryState)
    requires ConfigOk(cfg)
    ensures Inv(cfg, Restart(cfg, s))
  {
    assert cfg.pointsPerDelivery * 0 as real == 0.0;
  }
}
