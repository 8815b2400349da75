/** The player-controlled spaceship of EarthWarrior3D (Classes/Player.cpp):
    drag steering clamped to the play area, banking that the per-frame update
    keeps within ±maxRoll, the guarded position update that moves the trail
    attachments, damage with a once-only death, and the two firing timers. */
module PlayerShip {
  import opened Vector2

  /** The tuning values defined in consts.h and Player.h, which are not part of
      this model: the play-area limits and the roll constants. */
  datatype Tuning = Tuning(
    limitLeft: real, limitRight: real, limitBot: real, limitTop: real,
    maxRoll: real, rollSpeed: real, returnSpeed: real, rollReturnThreshold: real)
  {
    /** The play area is a non-empty rectangle, and maxRoll is positive because
        onTouchMoved and update divide by it. */
    predicate Valid() {
      limitLeft <= limitRight && limitBot <= limitTop && maxRoll > 0.0
    }

    function LowerLeft(): Vec2 {
      Vec2(limitLeft, limitBot)
    }

    function UpperRight(): Vec2 {
      Vec2(limitRight, limitTop)
    }
  }

  /** The health a ship starts with, and its collision radius (init). */
  const InitialHP: real := 100.0
  const Radius: real := 40.0

  /** Periods, in seconds, of the two firing timers that init schedules. */
  const ShootInterval: real := 0.075
  const MissileInterval: real := 1.5

  /** Name of the notification that die posts. */
  const ShowGameOver: string := "ShowGameOver"

  predicate InPlayArea(t: Tuning, p: Vec2) {
    Within(p, t.LowerLeft(), t.UpperRight())
  }

  // ---------------------------------------------------------------------
  // Drag steering (onTouchMoved)
  // ---------------------------------------------------------------------

  /** Where a drag by `delta` from `prev` puts the ship: the shifted point,
      clamped into the play area. */
  function DragTo(t: Tuning, prev: Vec2, delta: Vec2): (r: Vec2)
    requires t.Valid()
    ensures InPlayArea(t, r)
    ensures InPlayArea(t, prev.Plus(delta)) ==> r == prev.Plus(delta)
    ensures forall q :: InPlayArea(t, q) ==>
              Dist(r.x, prev.x + delta.x) <= Dist(q.x, prev.x + delta.x) &&
              Dist(r.y, prev.y + delta.y) <= Dist(q.y, prev.y + delta.y)
  {
    ClampPoint(prev.Plus(delta), t.LowerLeft(), t.UpperRight())
  }

  /** The bank angle after a horizontal drag by `dx`: the drag is scaled by
      rollSpeed and by a damping factor that shrinks as the angle approaches
      rollReturnThreshold * maxRoll. This angle is not clamped here; update
      clamps it. */
  function Steered(t: Tuning, angle: real, dx: real): real
    requires t.Valid()
  {
    angle + dx * t.rollSpeed * (t.rollReturnThreshold - Abs(angle) / t.maxRoll)
  }

  /** While the ship banks less than the return threshold and rollSpeed is
      positive, the bank follows the drag: dragging right raises the angle,
      dragging left lowers it, no horizontal drag keeps it. */
  lemma BankFollowsDrag(t: Tuning, angle: real, dx: real)
    requires t.Valid() && t.rollSpeed > 0.0
    requires Abs(angle) < t.rollReturnThreshold * t.maxRoll
    ensures dx > 0.0 ==> Steered(t, angle, dx) > angle
    ensures dx < 0.0 ==> Steered(t, angle, dx) < angle
    ensures dx == 0.0 ==> Steered(t, angle, dx) == angle
  {
  }

  /** A sequence of drags, each applied as onTouchMoved applies one. */
  ghost function DragPath(t: Tuning, start: Vec2, deltas: seq<Vec2>): Vec2
    requires t.Valid()
    decreases |deltas|
  {
    if deltas == [] then start else DragPath(t, DragTo(t, start, deltas[0]), deltas[1..])
  }

  /** Whatever the starting position and whatever the drags, after at least one
      drag the ship is inside the play area, and it stays there. */
  lemma {:induction false} DragPathInPlayArea(t: Tuning, start: Vec2, deltas: seq<Vec2>)
    requires t.Valid()
    requires deltas != [] || InPlayArea(t, start)
    ensures InPlayArea(t, DragPath(t, start, deltas))
    decreases |deltas|
  {
    if deltas != [] {
      DragPathInPlayArea(t, DragTo(t, start, deltas[0]), deltas[1..]);
    }
  }

  // ---------------------------------------------------------------------
  // Banking (update)
  // ---------------------------------------------------------------------

  /** The bank angle after a frame of `dt` seconds before clamping: the angle
      scaled by a decay factor built from returnSpeed and the threshold. */
  function Decayed(t: Tuning, angle: real, dt: real): real
    requires t.Valid()
  {
    angle * (1.0 - dt * t.returnSpeed * (t.rollReturnThreshold - Abs(angle) / t.maxRoll))
  }

  /** The smoothed bank angle of update: the decayed angle clamped into
      [-maxRoll, maxRoll], whatever the previous angle and whatever `dt`. */
  function SmoothedAngle(t: Tuning, angle: real, dt: real): (r: real)
    requires t.Valid()
    ensures -t.maxRoll <= r <= t.maxRoll
    ensures -t.maxRoll <= Decayed(t, angle, dt) <= t.maxRoll ==> r == Decayed(t, angle, dt)
    ensures Decayed(t, angle, dt) > t.maxRoll ==> r == t.maxRoll
    ensures Decayed(t, angle, dt) < -t.maxRoll ==> r == -t.maxRoll
  {
    FMin(FMax(Decayed(t, angle, dt), -t.maxRoll), t.maxRoll)
  }

  /** The rotation update gives the ship: pitch 0.15 of the absolute roll,
      roll the smoothed angle, no yaw. */
  function Rotation(roll: real): Vec3 {
    Vec3(Abs(roll) * 0.15, roll, 0.0)
  }

  lemma ProductNonNegative(a: real, b: real)
    requires a >= 0.0 && b >= 0.0
    ensures a * b >= 0.0
  {
  }

  /** When the frame's decay factor lies in [0, 1] and the bank is within
      ±maxRoll, update brings the ship back toward level flight: the angle keeps
      its sign and does not grow. */
  lemma UpdateReturnsTowardLevel(t: Tuning, angle: real, dt: real)
    requires t.Valid()
    requires Abs(angle) <= t.maxRoll
    requires 0.0 <= 1.0 - dt * t.returnSpeed * (t.rollReturnThreshold - Abs(angle) / t.maxRoll) <= 1.0
    ensures Abs(SmoothedAngle(t, angle, dt)) <= Abs(angle)
    ensures angle >= 0.0 ==> SmoothedAngle(t, angle, dt) >= 0.0
    ensures angle <= 0.0 ==> SmoothedAngle(t, angle, dt) <= 0.0
  {
    var f := 1.0 - dt * t.returnSpeed * (t.rollReturnThreshold - Abs(angle) / t.maxRoll);
    assert Decayed(t, angle, dt) == angle * f;
    var g := 1.0 - f;
    assert angle * f == angle - angle * g;
    if angle >= 0.0 {
      assert 0.0 <= angle * f <= angle;
    } else {
      ProductNonNegative(-angle, g);
      ProductNonNegative(-angle, f);
      assert angle <= angle * f <= 0.0;
    }
  }

  // ---------------------------------------------------------------------
  // Health and death (hurt, die)
  // ---------------------------------------------------------------------

  /** The part of the game state that damage and death touch: the ship's HP and
      alive flag, the global GameLayer::isDie flag, and the notifications
      posted so far. */
  datatype Vitals = Vitals(hp: real, alive: bool, isDie: bool, notices: seq<string>)

  /** die: the ship is no longer alive, the game is over, and ShowGameOver is
      posted. */
  function Died(v: Vitals): Vitals {
    v.(alive := false, isDie := true, notices := v.notices + [ShowGameOver])
  }

  datatype HurtResult = HurtResult(after: Vitals, died: bool)

  /** hurt: HP drops by exactly `damage`, alive or not; the ship dies, and the
      call reports it, exactly when it was alive and its HP is now at most 0;
      a death posts exactly one ShowGameOver and sets the game-over flag;
      otherwise nothing but HP changes. */
  function HurtStep(v: Vitals, damage: real): (r: HurtResult)
    ensures r.after.hp == v.hp - damage
    ensures r.died <==> v.alive && v.hp - damage <= 0.0
    ensures r.after.alive <==> v.alive && !r.died
    ensures r.after.isDie <==> v.isDie || r.died
    ensures r.after.notices == if r.died then v.notices + [ShowGameOver] else v.notices
  {
    var lowered := v.(hp := v.hp - damage);
    if lowered.hp <= 0.0 && lowered.alive then HurtResult(Died(lowered), true)
    else HurtResult(lowered, false)
  }

  /** hurt(0) on a ship with HP left changes nothing and reports no death. */
  lemma HurtZeroIsHarmless(v: Vitals)
    requires v.hp > 0.0
    ensures HurtStep(v, 0.0) == HurtResult(v, false)
  {
  }

  /** Once the ship is dead, no hurt reports a death or posts anything. */
  lemma HurtAfterDeathIsSilent(v: Vitals, damage: real)
    requires !v.alive
    ensures !HurtStep(v, damage).died
    ensures HurtStep(v, damage).after == v.(hp := v.hp - damage)
  {
  }

  /** Total of a sequence of damages. */
  ghost function Sum(ds: seq<real>): real {
    if ds == [] then 0.0 else ds[0] + Sum(ds[1..])
  }

  datatype Trace = Trace(final: Vitals, deaths: nat)

  /** A sequence of hurt calls, counting the ones that reported a death. */
  ghost function HurtSeq(v: Vitals, ds: seq<real>): Trace
    decreases |ds|
  {
    if ds == [] then Trace(v, 0)
    else
      var step := HurtStep(v, ds[0]);
      var rest := HurtSeq(step.after, ds[1..]);
      Trace(rest.final, rest.deaths + if step.died then 1 else 0)
  }

  /** Death happens at most once over any sequence of hurts, never for a ship
      already dead; the game-over notification is posted exactly once per
      death, and the ship ends alive exactly when no hurt killed it. */
  lemma {:induction false} DeathAtMostOnce(v: Vitals, ds: seq<real>)
    ensures HurtSeq(v, ds).deaths <= 1
    ensures !v.alive ==> HurtSeq(v, ds).deaths == 0
    ensures HurtSeq(v, ds).final.alive <==> v.alive && HurtSeq(v, ds).deaths == 0
    ensures HurtSeq(v, ds).final.isDie <==> v.isDie || HurtSeq(v, ds).deaths == 1
    ensures HurtSeq(v, ds).final.notices ==
              if HurtSeq(v, ds).deaths == 1 then v.notices + [ShowGameOver] else v.notices
    decreases |ds|
  {
    if ds != [] {
      var step := HurtStep(v, ds[0]);
      DeathAtMostOnce(step.after, ds[1..]);
    }
  }

  /** Over any sequence of hurts the HP falls by exactly the total damage. */
  lemma {:induction false} HurtSeqHp(v: Vitals, ds: seq<real>)
    ensures HurtSeq(v, ds).final.hp == v.hp - Sum(ds)
    decreases |ds|
  {
    if ds != [] {
      HurtSeqHp(HurtStep(v, ds[0]).after, ds[1..]);
    }
  }

  lemma SumOfPrefix(ds: seq<real>, k: nat)
    requires 1 <= k <= |ds|
    ensures Sum(ds[..k]) == ds[0] + Sum(ds[1..][..k - 1])
  {
    assert ds[..k][1..] == ds[1..][..k - 1];
  }

  /** The ship survives a sequence of hurts exactly when it started alive and
      its HP stayed above 0 after every one of them. */
  lemma {:induction false} SurvivesIff(v: Vitals, ds: seq<real>)
    ensures HurtSeq(v, ds).final.alive <==>
              v.alive && forall k :: 1 <= k <= |ds| ==> v.hp - Sum(ds[..k]) > 0.0
    decreases |ds|
  {
    if ds != [] {
      var step := HurtStep(v, ds[0]);
      var rest := ds[1..];
      SurvivesIff(step.after, rest);
      DeathAtMostOnce(step.after, rest);
      assert Sum(ds[..1]) == ds[0] by { SumOfPrefix(ds, 1); }
      forall k | 2 <= k <= |ds|
        ensures v.hp - Sum(ds[..k]) == step.after.hp - Sum(rest[..k - 1])
      {
        SumOfPrefix(ds, k);
      }
      if v.alive && !step.died {
        if forall j :: 1 <= j <= |rest| ==> step.after.hp - Sum(rest[..j]) > 0.0 {
          forall k | 1 <= k <= |ds| ensures v.hp - Sum(ds[..k]) > 0.0 {
            if k >= 2 {
              assert step.after.hp - Sum(rest[..k - 1]) > 0.0;
            }
          }
        } else {
          var j :| 1 <= j <= |rest| && step.after.hp - Sum(rest[..j]) <= 0.0;
          assert v.hp - Sum(ds[..j + 1]) <= 0.0;
        }
      }
    }
  }

  // ---------------------------------------------------------------------
  // Shooting (shoot, shootMissile)
  // ---------------------------------------------------------------------

  datatype BulletType = PlayerBullet | PlayerMissile

  /** The rotation given to a spawned bullet after spawnBullet, if any. */
  datatype Turn = Unturned | Turned(degrees: real)

  /** One call of BulletController::spawnBullet: what is spawned, where, how
      fast, and the rotation set on it afterwards. */
  datatype Spawn = Spawn(kind: BulletType, position: Vec2, velocity: Vec2, turn: Turn)

  /** The spawn reflected in the vertical line through the ship at `ship`. */
  function Mirror(ship: Vec2, s: Spawn): Spawn {
    Spawn(s.kind,
          Vec2(2.0 * ship.x - s.position.x, s.position.y),
          Vec2(-s.velocity.x, s.velocity.y),
          match s.turn
          case Unturned => Unturned
          case Turned(d) => Turned(-d))
  }

  /** shoot: three player bullets, 20 above the ship, all climbing at 1600; the
      left and right ones are mirror images, the centre one is its own. */
  function Volley(ship: Vec2): (r: seq<Spawn>)
    ensures |r| == 3
    ensures forall s :: s in r ==>
              s.kind == PlayerBullet && s.position.y == ship.y + 20.0 &&
              s.velocity.y == 1600.0 && s.turn == Unturned
    ensures r[1] == Mirror(ship, r[0]) && r[2] == Mirror(ship, r[2])
    ensures r[0].position.x < ship.x < r[1].position.x
    ensures r[2].position == ship.Plus(Vec2(0.0, 20.0))
  {
    [Spawn(PlayerBullet, ship.Plus(Vec2(-20.0, 20.0)), Vec2(-200.0, 1600.0), Unturned),
     Spawn(PlayerBullet, ship.Plus(Vec2(20.0, 20.0)), Vec2(200.0, 1600.0), Unturned),
     Spawn(PlayerBullet, ship.Plus(Vec2(0.0, 20.0)), Vec2(0.0, 1600.0), Unturned)]
  }

  /** shootMissile: two missiles 20 below the ship and 50 to each side, flying
      outward and down, each turned 45 degrees toward its own side; the pair is
      mirror-symmetric. */
  function Salvo(ship: Vec2): (r: seq<Spawn>)
    ensures |r| == 2
    ensures forall s :: s in r ==>
              s.kind == PlayerMissile && s.position.y == ship.y - 20.0 &&
              s.velocity.y == -200.0 && s.turn.Turned? && Abs(s.turn.degrees) == 45.0
    ensures r[1] == Mirror(ship, r[0])
    ensures r[0].position.x < ship.x < r[1].position.x
  {
    [Spawn(PlayerMissile, ship.Plus(Vec2(-50.0, -20.0)), Vec2(-200.0, -200.0), Turned(-45.0)),
     Spawn(PlayerMissile, ship.Plus(Vec2(50.0, -20.0)), Vec2(200.0, -200.0), Turned(45.0))]
  }

  datatype Timer = ShootTimer | MissileTimer

  // ---------------------------------------------------------------------
  // Collaborators: the global game-over flag and the notification bus
  // ---------------------------------------------------------------------

  /** Holds GameLayer::isDie, the process-wide game-over flag. */
  class GameLayer {
    var isDie: bool

    constructor ()
      ensures !isDie
    {
      isDie := false;
    }
  }

  /** The notification bus, reduced to the log of names posted to it. */
  class NotificationCenter {
    var posted: seq<string>

    constructor ()
      ensures posted == []
    {
      posted := [];
    }

    method PostNotification(name: string)
      modifies this`posted
      ensures posted == old(posted) + [name]
    {
      posted := posted + [name];
    }
  }

  /** Where an optional attachment (the streak or the emission particles)
      sits, or that the ship has none. */
  datatype Attachment = Absent | At(position: Vec2) {
    function MovedTo(p: Vec2): (r: Attachment)
      ensures r.At? <==> At?
      ensures r.At? ==> r.position == p
    {
      if At? then At(p) else Absent
    }
  }

  // ---------------------------------------------------------------------
  // The ship
  // ---------------------------------------------------------------------

  class Player {
    const tuning: Tuning
    const game: GameLayer
    const center: NotificationCenter
    /** Offset of the streak from the ship. */
    const trailOffset: Vec2

    var position: Vec2
    var transformUpdated: bool
    var transformDirty: bool
    var inverseDirty: bool
    var streak: Attachment
    var emissionPart: Attachment

    var rotation: Vec3
    var targetAngle: real

    var hp: real
    var radius: real
    var alive: bool

    /** Whether the shoot and shootMissile timers are scheduled. */
    var shootScheduled: bool
    var missileScheduled: bool

    ghost predicate Valid()
      reads this
    {
      tuning.Valid()
    }

    ghost function State(): Vitals
      reads this, game, center
    {
      Vitals(hp, alive, game.isDie, center.posted)
    }

    /** The state after a successful init: full health, radius 40, alive, both
        firing timers scheduled. The starting position and bank angle, the
        trail offset and the attachments come from the code that creates the
        ship. */
    constructor (tuning: Tuning, game: GameLayer, center: NotificationCenter,
                 start: Vec2, angle: real, trailOffset: Vec2,
                 streak: Attachment, emissionPart: Attachment)
      requires tuning.Valid()
      ensures Valid()
      ensures this.tuning == tuning && this.game == game && this.center == center
      ensures position == start && targetAngle == angle && this.trailOffset == trailOffset
      ensures this.streak == streak && this.emissionPart == emissionPart
      ensures hp == InitialHP && radius == Radius && alive
      ensures shootScheduled && missileScheduled
    {
      this.tuning := tuning;
      this.game := game;
      this.center := center;
      this.trailOffset := trailOffset;
      position := start;
      transformUpdated, transformDirty, inverseDirty := true, true, true;
      this.streak := streak;
      this.emissionPart := emissionPart;
      rotation := Vec3(0.0, angle, 0.0);
      targetAngle := angle;
      radius := Radius;
      hp := InitialHP;
      alive := true;
      shootScheduled, missileScheduled := true, true;
    }

    /** update: smooth the bank angle, rotate the ship to it, and read it back
        as the new target angle, which is then within ±maxRoll. */
    method Update(dt: real)
      requires Valid()
      modifies this`rotation, this`targetAngle, this`transformUpdated, this`transformDirty,
               this`inverseDirty
      ensures targetAngle == SmoothedAngle(tuning, old(targetAngle), dt)
      ensures -tuning.maxRoll <= targetAngle <= tuning.maxRoll
      ensures rotation == Rotation(targetAngle)
      ensures rotation != old(rotation) ==> transformUpdated && transformDirty && inverseDirty
      ensures rotation == old(rotation) ==>
                transformUpdated == old(transformUpdated) && transformDirty == old(transformDirty) &&
                inverseDirty == old(inverseDirty)
    {
      var smoothed := SmoothedAngle(tuning, targetAngle, dt);
      SetRotation3D(Rotation(smoothed));
      targetAngle := rotation.y;
    }

    /** The engine's setRotation3D: a no-op when the rotation is unchanged;
        otherwise store it and raise the three transform flags. */
    method SetRotation3D(r: Vec3)
      modifies this`rotation, this`transformUpdated, this`transformDirty, this`inverseDirty
      ensures rotation == r
      ensures old(rotation) == r ==>
                transformUpdated == old(transformUpdated) && transformDirty == old(transformDirty) &&
                inverseDirty == old(inverseDirty)
      ensures old(rotation) != r ==> transformUpdated && transformDirty && inverseDirty
    {
      if rotation == r {
        return;
      }
      rotation := r;
      transformUpdated, transformDirty, inverseDirty := true, true, true;
    }

    /** onTouchBegan: every touch is accepted. */
    method OnTouchBegan() returns (accepted: bool)
      ensures accepted
    {
      accepted := true;
    }

    /** onTouchMoved: bank by the horizontal drag, then move by the drag,
        clamped into the play area. */
    method OnTouchMoved(delta: Vec2)
      requires Valid()
      modifies this`targetAngle, this`position, this`transformUpdated, this`transformDirty,
               this`inverseDirty, this`streak, this`emissionPart
      ensures targetAngle == Steered(tuning, old(targetAngle), delta.x)
      ensures position == DragTo(tuning, old(position), delta)
      ensures InPlayArea(tuning, position)
      ensures InPlayArea(tuning, old(position).Plus(delta)) ==> position == old(position).Plus(delta)
      ensures position == old(position) ==>
                transformUpdated == old(transformUpdated) && transformDirty == old(transformDirty) &&
                inverseDirty == old(inverseDirty) &&
                streak == old(streak) && emissionPart == old(emissionPart)
      ensures position != old(position) ==>
                transformUpdated && transformDirty && inverseDirty &&
                streak == old(streak).MovedTo(position.Plus(trailOffset)) &&
                emissionPart == old(emissionPart).MovedTo(position)
    {
      var prev := position;
      targetAngle := Steered(tuning, targetAngle, delta.x);
      SetPosition(DragTo(tuning, prev, delta));
    }

    /** setPosition: a no-op when the position is unchanged; otherwise store
        it, raise the three transform flags, and move the streak (offset by the
        trail offset) and the emission particles with the ship. */
    method SetPosition(pos: Vec2)
      modifies this`position, this`transformUpdated, this`transformDirty, this`inverseDirty,
               this`streak, this`emissionPart
      ensures old(position) == pos ==>
                position == old(position) &&
                transformUpdated == old(transformUpdated) && transformDirty == old(transformDirty) &&
                inverseDirty == old(inverseDirty) &&
                streak == old(streak) && emissionPart == old(emissionPart)
      ensures old(position) != pos ==>
                position == pos && transformUpdated && transformDirty && inverseDirty &&
                streak == old(streak).MovedTo(pos.Plus(trailOffset)) &&
                emissionPart == old(emissionPart).MovedTo(pos)
    {
      if position == pos {
        return;
      }
      position := pos;
      transformUpdated, transformDirty, inverseDirty := true, true, true;
      if streak.At? {
        streak := At(pos.Plus(trailOffset));
      }
      if emissionPart.At? {
        emissionPart := At(pos);
      }
    }

    /** shoot: the bullets spawned from the current position. */
    method Shoot() returns (spawned: seq<Spawn>)
      ensures spawned == Volley(position)
    {
      var p := position;
      spawned := [Spawn(PlayerBullet, p.Plus(Vec2(-20.0, 20.0)), Vec2(-200.0, 1600.0), Unturned)];
      spawned := spawned + [Spawn(PlayerBullet, p.Plus(Vec2(20.0, 20.0)), Vec2(200.0, 1600.0), Unturned)];
      spawned := spawned + [Spawn(PlayerBullet, p.Plus(Vec2(0.0, 20.0)), Vec2(0.0, 1600.0), Unturned)];
    }

    /** shootMissile: the missiles spawned from the current position, each
        turned after it is spawned. */
    method ShootMissile() returns (spawned: seq<Spawn>)
      ensures spawned == Salvo(position)
    {
      var p := position;
      var left := Spawn(PlayerMissile, p.Plus(Vec2(-50.0, -20.0)), Vec2(-200.0, -200.0), Unturned);
      left := left.(turn := Turned(-45.0));
      var right := Spawn(PlayerMissile, p.Plus(Vec2(50.0, -20.0)), Vec2(200.0, -200.0), Unturned);
      right := right.(turn := Turned(45.0));
      spawned := [left, right];
    }

    /** The scheduler firing one of the two timers: its callback runs, and
        spawns, only while the timer is scheduled. */
    method TimerFires(timer: Timer) returns (spawned: seq<Spawn>)
      ensures timer == ShootTimer ==> spawned == if shootScheduled then Volley(position) else []
      ensures timer == MissileTimer ==> spawned == if missileScheduled then Salvo(position) else []
    {
      spawned := [];
      match timer {
        case ShootTimer =>
          if shootScheduled {
            spawned := Shoot();
          }
        case MissileTimer =>
          if missileScheduled {
            spawned := ShootMissile();
          }
      }
    }

    /** stop: cancel both firing timers. */
    method Stop()
      modifies this`shootScheduled, this`missileScheduled
      ensures !shootScheduled && !missileScheduled
    {
      shootScheduled := false;
      missileScheduled := false;
    }

    /** hurt: lower HP by `damage`; if that leaves a live ship at 0 HP or less,
        die and report it. */
    method Hurt(damage: real) returns (died: bool)
      modifies this`hp, this`alive, game`isDie, center`posted
      ensures HurtResult(State(), died) == HurtStep(old(State()), damage)
      ensures hp == old(hp) - damage
      ensures died <==> old(alive) && hp <= 0.0
    {
      hp := hp - damage;
      if hp <= 0.0 && alive {
        Die();
        return true;
      }
      return false;
    }

    /** die: clear the alive flag, set the global game-over flag and post
        ShowGameOver once. */
    method Die()
      modifies this`alive, game`isDie, center`posted
      ensures State() == Died(old(State()))
    {
      alive := false;
      game.isDie := true;
      center.PostNotification(ShowGameOver);
    }
  }

  /** The damage scenario: from full health, 30 damage leaves 70 HP and no
      death; 80 more kills the ship, sets the game-over flag and posts one
      notification; later damage posts nothing more. After stop, neither timer
      spawns anything. */
  method DamageScenario(t: Tuning)
    requires t.Valid()
  {
    var game := new GameLayer();
    var center := new NotificationCenter();
    var ship := new Player(t, game, center, Vec2(0.0, 0.0), 0.0, Vec2(0.0, -30.0), Absent, Absent);
    var died := ship.Hurt(30.0);
    assert !died && ship.hp == 70.0 && ship.alive;
    died := ship.Hurt(80.0);
    assert died && !ship.alive && game.isDie && center.posted == [ShowGameOver];
    died := ship.Hurt(5.0);
    assert !died && center.posted == [ShowGameOver];
    ship.Stop();
    var bullets := ship.TimerFires(ShootTimer);
    var missiles := ship.TimerFires(MissileTimer);
    assert bullets == [] && missiles == [];
  }
}
