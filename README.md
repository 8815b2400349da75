# EarthWarrior3D player ship: a verified model

This project models the player-controlled spaceship of EarthWarrior3D, `Player` in
`Classes/Player.cpp`. It covers the small state machine inside the cocos2d-x glue code:

- **Drag steering (`onTouchMoved`).** The ship banks by the horizontal drag. It then
  moves by the drag and is clamped into the play area
  `[PLAYER_LIMIT_LEFT, PLAYER_LIMIT_RIGHT] × [PLAYER_LIMIT_BOT, PLAYER_LIMIT_TOP]`.
- **Banking (`update`).** The bank angle decays and is clamped to `[-maxRoll, maxRoll]`.
  It is then read back as the new `targetAngle`.
- **Guarded position update (`setPosition`).** Setting the same position does nothing.
  Setting a new one raises the three transform flags and moves the streak and the
  emission particles.
- **Damage and death (`hurt`, `die`).** Every hurt lowers HP. A live ship whose HP drops
  to 0 or below dies exactly once. Death clears `_alive`, sets the global
  `GameLayer::isDie` and posts one `ShowGameOver` notification.
- **Firing timers (`shoot`, `shootMissile`, `stop`).** Each timer fires its spawn
  pattern while it is scheduled. `stop` cancels both timers.

Layout:

- `vector2.dfy`, module `Vector2`: the engine math the ship uses. It holds `Vec2`,
  `Vec3`, `fabsf`, `fmin`/`fmax`, `clampf` and `Vector2::getClampPoint`.
- `player.dfy`, module `PlayerShip`: the pure specification functions (`DragTo`,
  `Steered`, `SmoothedAngle`, `HurtStep`, `Died`, `Volley`, `Salvo`), the lemmas about
  them, and the class `Player`. `Update`, `OnTouchMoved`, `Hurt`, `Die`, `Shoot`,
  `ShootMissile` and `TimerFires` are proved against `SmoothedAngle`, `Steered` and
  `DragTo`, `HurtStep`, `Died`, `Volley` and `Salvo`. `SetPosition`, `SetRotation3D` and
  `Stop` state their new state directly in their own postconditions.
  `GameLayer` (the global game-over flag) and `NotificationCenter` (the notification bus,
  reduced to a log of posted names) are small classes that the ship refers to.

The tuning constants are defined in `consts.h` and `Player.h`, which are not part of this
model. These are the play-area limits, `maxRoll`, `rollSpeed`, `returnSpeed` and
`rollReturnThreshold`. They are the fields of the `Tuning` value the ship is built with.
`Tuning.Valid()` states what the model assumes of them: `left ≤ right`, `bot ≤ top` and
`maxRoll > 0`.

Three things the code does that a reader might not expect:

- HP is not kept within 0–100. `hurt` keeps subtracting, so HP can go negative, and it
  keeps falling after death.
- The bank bound after `update` holds for every `dt`, negative values included.
- `onTouchMoved` does not bound the bank angle. Only `update` clamps it.

## Model

| member | source | states |
|---|---|---|
| Vector2.Clampf | Classes/Player.cpp:94 | the clamped value lies in `[lo, hi]`; it is the input when the input is already inside, the nearer end otherwise, and no point of the interval is nearer to the input |
| Vector2.ClampPoint | Classes/Player.cpp:92-94 | `getClampPoint` returns a point of the rectangle; a point already inside is returned unchanged; per component no point of the rectangle is nearer to the input |
| PlayerShip.DragTo | Classes/Player.cpp:87-94 | after a drag, the position is in the play area for any previous position and any delta; if `prev + delta` is inside, it is exactly `prev + delta`; otherwise it is the nearest point per component |
| PlayerShip.DragPathInPlayArea | Classes/Player.cpp:85-95 | over any sequence of drags, with at least one drag or a start inside the play area, the ship ends inside the play area |
| PlayerShip.BankFollowsDrag | Classes/Player.cpp:90 | while the bank is below `rollReturnThreshold * maxRoll` and `rollSpeed > 0`, dragging right raises the target angle, dragging left lowers it, and a purely vertical drag keeps it |
| PlayerShip.SmoothedAngle | Classes/Player.cpp:76 | the smoothed angle is within `[-maxRoll, maxRoll]` for any prior angle and any `dt`; it is the decayed angle when that is in range, otherwise the nearer bound |
| PlayerShip.UpdateReturnsTowardLevel | Classes/Player.cpp:76 | when the frame's decay factor lies in `[0, 1]` and the bank is within `±maxRoll`, update keeps the angle's sign and does not increase its magnitude |
| PlayerShip.HurtStep | Classes/Player.cpp:141-173 | HP drops by exactly `damage`, alive or not; hurt reports a death iff the ship was alive and the new HP is ≤ 0; a death clears `alive`, sets the game-over flag and appends exactly one `ShowGameOver`; nothing else changes |
| PlayerShip.HurtZeroIsHarmless | Classes/Player.cpp:142-165 | `hurt(0)` on a ship with HP left changes nothing and reports no death |
| PlayerShip.HurtAfterDeathIsSilent | Classes/Player.cpp:159-165 | on a dead ship, hurt only lowers HP: it reports no death and posts nothing |
| PlayerShip.DeathAtMostOnce | Classes/Player.cpp:159-172 | over any sequence of hurts at most one reports a death, none does for a ship already dead; the ship ends alive iff none did; the game-over flag is set and exactly one `ShowGameOver` is posted iff one did |
| PlayerShip.HurtSeqHp | Classes/Player.cpp:142-143 | over any sequence of hurts HP falls by exactly the total damage |
| PlayerShip.SurvivesIff | Classes/Player.cpp:141-165 | the ship survives a sequence of hurts iff it started alive and HP stayed above 0 after every hurt in it |
| PlayerShip.Volley | Classes/Player.cpp:100-106 | shoot spawns three player bullets 20 above the ship, all climbing at 1600; the first bullet is left of the ship and the second right of it, as mirror images about the ship; the third sits straight above the ship |
| PlayerShip.Salvo | Classes/Player.cpp:123-129 | shootMissile spawns two missiles 20 below the ship, one on each side, flying down at 200 and turned ±45°; the pair is mirror-symmetric about the ship |
| PlayerShip.NotificationCenter.PostNotification | Classes/Player.cpp:172 | posting appends exactly the given name to the log of posted notifications |
| PlayerShip.Player.constructor | Classes/Player.cpp:37-73 | after a successful init the ship has HP 100 and radius 40, is alive, and has both firing timers scheduled |
| PlayerShip.Player.Update | Classes/Player.cpp:74-79 | the new `targetAngle` is the smoothed angle of the old one, hence within `±maxRoll`; the ship's rotation has that roll and a pitch of 0.15 times its magnitude; the three transform flags are raised when the rotation changes and kept otherwise |
| PlayerShip.Player.SetRotation3D | Classes/Player.cpp:77 | the rotation is stored; when it differs from the old one the three transform flags are raised, otherwise they are unchanged; nothing else changes |
| PlayerShip.Player.OnTouchBegan | Classes/Player.cpp:80-84 | every touch is accepted |
| PlayerShip.Player.OnTouchMoved | Classes/Player.cpp:85-95 | the target angle is steered by the horizontal drag; the new position is the clamped `prev + delta`, inside the play area and exactly `prev + delta` when that is inside; the flags and attachments change as `setPosition` says |
| PlayerShip.Player.SetPosition | Classes/Player.cpp:107-122 | setting the current position changes nothing; a new position is stored, all three dirty flags are raised, a present streak moves to `pos + trailOffset` and a present emission part to `pos`; nothing else changes |
| PlayerShip.Player.Shoot | Classes/Player.cpp:100-106 | the spawns are the volley for the current position |
| PlayerShip.Player.ShootMissile | Classes/Player.cpp:123-129 | the spawns are the missile salvo for the current position, each missile turned after spawning |
| PlayerShip.Player.TimerFires | Classes/Player.cpp:58-59 | a timer firing spawns its pattern only while it is scheduled, and nothing otherwise |
| PlayerShip.Player.Stop | Classes/Player.cpp:131-135 | both firing timers are cancelled, so no later firing spawns anything; nothing else changes |
| PlayerShip.Player.Hurt | Classes/Player.cpp:141-166 | the returned flag and the new HP, alive flag, game-over flag and notification log are those of `HurtStep` on the old state |
| PlayerShip.Player.Die | Classes/Player.cpp:168-173 | `alive` is cleared, the global game-over flag is set and exactly one `ShowGameOver` is posted; HP is unchanged |

`PlayerShip.DamageScenario` is a client of the class. It runs this sequence from full
health: `hurt(30)` leaves 70 HP and no death; `hurt(80)` kills the ship, sets the
game-over flag and posts one notification; a third hurt posts nothing more; after
`stop`, neither timer spawns anything.

## Left out

- Floating point: HP, positions and angles are reals. Single-precision rounding, NaN and
  infinities are not modelled.
- `maxRoll` is required to be positive, not just non-negative. `update` and
  `onTouchMoved` divide by it, and a zero divisor gives float infinities or NaN, which
  the model does not represent.
- `Vec2::equals` in `setPosition` is modelled as exact equality. The engine's definition
  is not part of this model and may compare with a tolerance.
- `clampf` is modelled for `lo ≤ hi` only. That is the only case the play-area
  constants produce.
- `init` engine setup: model loading, scale, outline, touch-listener registration and the
  engine-trail particles are engine calls. The failure path (the model fails to load, so
  init returns false) is not modelled. The constructor gives the state after a
  successful init.
- The three transform flags and the attachments start as the code that creates the ship
  provides them. The constructor raises the flags; the engine's node defaults are not
  part of this model.
- The visual side of `hurt`: the warning-layer fade, the scene lookups by tag and the
  HP-bar animation. `PublicApi::hp2percent` is not part of this model. `hideWarningLayer`
  only hides a node and is left out with them.
- `onTouchEnded` has an empty body and is not modelled.
- `setRotation3D` is the engine's. Its definition is not part of this model. It is taken
  to behave like `setPosition`: a no-op on an unchanged rotation, and otherwise it stores
  the rotation and raises the three transform flags.
- `setTargetAngle` (in `Player.h`) is taken to be a plain assignment. `getRotation3D().y`
  is taken to return the roll just given to `setRotation3D`.
- In `onTouchMoved`, `event->getCurrentTarget()` is taken to be the ship itself, because
  the listener is registered on the ship.
- Scheduler timing: the firing periods are constants (`ShootInterval`,
  `MissileInterval`). Elapsed time and the order of callbacks within a frame belong to
  the engine. `TimerFires` models one dispatch of a timer. The `dt` argument of `shoot`
  and `shootMissile` is unused by the code and dropped.
- `BulletController::spawnBullet` is not part of this model. A spawn is recorded as a
  value (kind, position, velocity, rotation set afterwards).
- The notification bus is reduced to a log of posted names. Listeners are not modelled.
