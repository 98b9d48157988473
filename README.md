# Asteroids game session, ship and bullet

A model of the session bookkeeping in the Asteroids game and of how its ship and
bullet react. The model is written in Dafny and its properties are proved.

The `Controller` keeps the following state:

- the number of lives left;
- the pending stage-transition time, where `Long.MAX_VALUE` means nothing is pending;
- the active ship, or none;
- the set of held keys;
- whether the display delivers key events to it;
- the legend shown across the screen;
- the list of participants.

Each operation of the controller updates this state in place. The model covers:

- the splash, initial and final screens;
- placing the ship and the first three asteroids;
- clearing the field;
- the callbacks for a destroyed ship and a destroyed asteroid;
- scheduling and performing the stage transition;
- counting the live asteroids;
- turning the held keys into ship commands;
- the key-pressed and key-released events;
- the two branches of the action handler: the start button, and the refresh-timer tick.

The ship and the bullet are classes over a shared participant part. That part holds the kind and the `expired` and `inert` flags. A ship:

- starts inert;
- registers a `"vulnerable"` countdown of 2000 ms;
- shows its thrust outline exactly while accelerating;
- expires and reports to the controller when it collides with a ship destroyer.

A bullet:

- registers a `"lifetime"` countdown of 1500 ms;
- expires when it hits an asteroid or when that countdown completes.

Dafny module by module:

- `Participants` holds:
  - the kind tags;
  - the destroyer capability tags of each kind, which stand in for the `AsteroidDestroyer` and `ShipDestroyer` marker interfaces;
  - the base participant, as a class with the two flags;
  - `AsteroidCount`, the number of live asteroids in a participant list;
  - `Countdowns`, the pending list of countdown timers, each stored as (owner, payload, fire time).
- `Keys` holds:
  - the key codes and the three key bindings;
  - the press/release semantics of the held-key set;
  - `AfterKeys`, the commands a ship receives from a held-key set, given as a count per binding.
- `Bullets` holds the bullet.
- `Game` holds the controller and the ship. They refer to each other, so they share one module.
- `Scenarios` holds client methods whose contracts state what a sequence of calls does.

Wall-clock time is an explicit parameter `now`, in milliseconds. The constant `END_DELAY` is the controller's constructor parameter `endDelay`.

`Controller.Valid()` is the class invariant. It says that the active ship, if any, is a ship-kind participant of the game. The constructor establishes it and every operation keeps it. `ShipExclusive()` says that at most one ship is live, namely the active one. Placing a ship and destroying it both keep it.

Four behaviours of the code that a reader might not expect are kept as written:

- **No respawn, no new wave.** When a transition comes due with lives left, `performTransition` only clears the pending time. It neither places a new ship nor a new wave (`StageClearKeepsShip`).
- **No expiry guard in the ship.** `Ship.collidedWith` has no guard against a ship that has already expired. Two destroying collisions cost two lives (`RepeatedShipCollision`).
- **Only live asteroids are counted (an assumption).** `countAsteroids` visits the participants through the iterator of `ParticipantState`, which is not part of this model. The model assumes that this iterator skips expired participants, so only live asteroids are counted. Two things support this: the doc comment says "active participants", and without it `asteroidDestroyed` could never see zero, because the asteroid just destroyed would still be counted. The "Participant iteration" line under "## Left out" records the same assumption.
- **Three asteroids, not four.** The comment in `splashScreen` (Controller.java:91) speaks of four asteroids, but `placeAsteroids` places three (Controller.java:121-123). The model follows the code and places three.

## Model

| member | source | states |
|---|---|---|
| Participants.DestroyerTags | src/asteroids/participants/Ship.java:14 | ships and bullets are asteroid destroyers and never ship destroyers; only asteroids destroy ships |
| Participants.Participant.constructor | src/asteroids/participants/Ship.java:31-56 | a new participant part has the given kind and is neither expired nor inert |
| Participants.Participant.SetInert | src/asteroids/participants/Ship.java:53 | sets the inert flag to the given value and leaves the expired flag alone |
| Participants.Participant.Expire | src/asteroids/game/Controller.java:110 | expires the given participant and leaves its inert flag alone; a null participant is ignored |
| Participants.AsteroidCount | src/asteroids/game/Controller.java:257-271 | the number of live asteroids in a participant list never exceeds the list's length |
| Participants.NoAsteroidsLeft | src/asteroids/game/Controller.java:190-197 | the count is zero exactly when no participant is a live asteroid, in both directions |
| Participants.AsteroidCountAppend | src/asteroids/game/Controller.java:263-269 | counting distributes over concatenation, so visiting participants in order accumulates the count |
| Participants.AsteroidCountByFlags | src/asteroids/game/Controller.java:110 | the count depends only on the liveness of the asteroids, so expiring a ship leaves it unchanged |
| Participants.Countdowns.constructor | src/asteroids/participants/Ship.java:54 | no countdown is pending at first |
| Participants.Countdowns.Register | src/asteroids/participants/Ship.java:54 | registering appends exactly one countdown with its owner and payload, due `delay` ms after `now` |
| Keys.HeldAfterLastEvent | src/asteroids/game/Controller.java:293-299 | after any sequence of presses and releases, a key is held exactly when the last event about it was a press, or, with no such event, when it was held at the start |
| Keys.LastFor | src/asteroids/game/Controller.java:293-299 | the index found is an event about the key, and no later event is about it |
| Keys.AfterKeysStep | src/asteroids/game/Controller.java:278-288 | acting on one more held key adds exactly that key's commands, so the order of visiting the keys does not matter |
| Keys.AfterKeysNext | src/asteroids/game/Controller.java:278-288 | the same step, stated for the keys still to be visited |
| Keys.BoundCountStep | src/asteroids/game/Controller.java:279-287 | a key not yet counted raises a binding's count by one exactly when it is bound |
| Bullets.Bullet.constructor | src/asteroids/participants/Bullet.java:24-35 | a new bullet is live and not inert, and exactly one "lifetime" countdown of 1500 ms is registered for it |
| Bullets.Bullet.CollidedWith | src/asteroids/participants/Bullet.java:44-46 | the bullet is expired afterwards exactly when it was before or the other participant is an asteroid; expiry is never cleared |
| Bullets.Bullet.CountdownComplete | src/asteroids/participants/Bullet.java:52-54 | the "lifetime" payload expires the bullet, any other payload leaves it as it was; expiry is never cleared |
| Game.Controller.constructor | src/asteroids/game/Controller.java:44-62 | no transition is pending, no lives, no ship, no held keys, not listening, the title over three fresh asteroids |
| Game.Controller.SplashScreen | src/asteroids/game/Controller.java:85-93 | the participants are exactly three fresh live asteroids under the title legend, with no ship |
| Game.Controller.FinalScreen | src/asteroids/game/Controller.java:98-102 | shows GAME_OVER and stops key listening; nothing else changes |
| Game.Controller.PlaceShip | src/asteroids/game/Controller.java:107-114 | the previous ship, if any, is expired with its inert flag kept; a fresh inert, live ship with no commands issued becomes the active one and is appended to the participants; its "vulnerable" countdown is registered; the legend is cleared; the asteroid count and at-most-one-live-ship are kept |
| Game.Controller.ExpireShip | src/asteroids/game/Controller.java:110 | the active ship, if any, is expired and keeps its inert flag; the asteroid count is kept; if that ship was the only live one, no ship is live |
| Game.Controller.SpawnShip | src/asteroids/game/Controller.java:111-112 | the new ship is the active one, appended last, and with no other ship live it is the only live ship |
| Game.Controller.PlaceAsteroids | src/asteroids/game/Controller.java:119-124 | three fresh live asteroids are appended after the existing participants, which stay in place; the asteroid count grows by three |
| Game.Controller.AddAsteroid | src/asteroids/game/Controller.java:121 | one fresh live asteroid is appended and the count grows by one |
| Game.Controller.Clear | src/asteroids/game/Controller.java:129-134 | no participants, no ship, a blank legend |
| Game.Controller.InitialScreen | src/asteroids/game/Controller.java:139-159 | one life, key listening on, a blank legend, three fresh asteroids followed by a fresh inert, live ship with no commands issued that is the only live ship, and its "vulnerable" countdown registered |
| Game.Controller.ResetField | src/asteroids/game/Controller.java:142-148 | after clearing and placing, the participants are three fresh asteroids and then the fresh active ship, which is inert, live and has issued no commands |
| Game.Controller.AddParticipant | src/asteroids/game/Controller.java:164-167 | the participant is appended last and no other field changes |
| Game.Controller.ShipDestroyed | src/asteroids/game/Controller.java:172-185 | no ship, the "Ouch!" legend, one life fewer, a transition END_DELAY after now; nothing else changes |
| Game.Controller.AsteroidDestroyed | src/asteroids/game/Controller.java:190-197 | a transition END_DELAY after now is scheduled exactly when no live asteroid remains; otherwise the pending time is unchanged |
| Game.Controller.ScheduleTransition | src/asteroids/game/Controller.java:202-205 | the pending time becomes exactly now + m, whatever it was before |
| Game.Controller.Tick | src/asteroids/game/Controller.java:221-234 | a refresh tick first performs the due transition and then gives the ship exactly the commands of the held keys |
| Game.Controller.ActionPerformed | src/asteroids/game/Controller.java:211-235 | the start button begins a new game, as InitialScreen states, and leaves the previous ship object alone; the refresh timer ticks, as Tick states, and leaves the pending countdowns alone; any other source changes neither the controller, the timers nor the ship |
| Game.Controller.PerformTransition | src/asteroids/game/Controller.java:240-255 | when the pending time has come, it is cleared to MAX, and the game is over if and only if no lives are left; before that time nothing changes |
| Game.Controller.CountAsteroids | src/asteroids/game/Controller.java:260-271 | the loop's count is the number of live asteroids among the participants |
| Game.Controller.KeyActions | src/asteroids/game/Controller.java:276-290 | with a ship, it receives one right turn per held right key, one left turn per held left key, one acceleration per held thrust key, and its flame is on if a thrust key is held; without a ship nothing changes |
| Game.Controller.KeyAction | src/asteroids/game/Controller.java:279-287 | one held key gives the commands of the bindings it belongs to |
| Game.Controller.KeyPressed | src/asteroids/game/Controller.java:293 | the key is added to the held set; nothing else changes |
| Game.Controller.KeyReleased | src/asteroids/game/Controller.java:299 | the key is removed from the held set; nothing else changes |
| Game.Ship.constructor | src/asteroids/participants/Ship.java:31-56 | a new ship is live, inert and not accelerating, and exactly one "vulnerable" countdown of 2000 ms is registered for it |
| Game.Ship.Outline | src/asteroids/participants/Ship.java:79-84 | the thrust outline exactly while accelerating |
| Game.Ship.TurnRight | src/asteroids/participants/Ship.java:99-102 | one more right turn, nothing else changes |
| Game.Ship.TurnLeft | src/asteroids/participants/Ship.java:107-110 | one more left turn, nothing else changes |
| Game.Ship.Accelerate | src/asteroids/participants/Ship.java:115-118 | the flame is on and one more acceleration is issued |
| Game.Ship.Unaccelerate | src/asteroids/participants/Ship.java:120 | the flame is off, nothing else changes |
| Game.Ship.CollidedWith | src/asteroids/participants/Ship.java:126-135 | against a ship destroyer, the ship expires and the controller records the destroyed ship once; against anything else nothing changes; the controller's invariants are kept |
| Game.Ship.CountdownComplete | src/asteroids/participants/Ship.java:141-143 | the "vulnerable" payload ends the inert period, any other payload changes nothing |
| Scenarios.TransitionIdempotent | src/asteroids/game/Controller.java:240-255 | performing the transition twice at the same time equals performing it once |
| Scenarios.LastScheduleWins | src/asteroids/game/Controller.java:202-205 | of two scheduled transitions, the later one decides the pending time |
| Scenarios.RepeatedShipCollision | src/asteroids/participants/Ship.java:128-134 | two destroying collisions with the same ship cost two lives |
| Scenarios.ShipIgnoresBullets | src/asteroids/participants/Ship.java:128 | a ship colliding with a bullet leaves the ship's participant part and every field of the controller unchanged |
| Scenarios.DeliverKeyEvents | src/asteroids/game/Controller.java:293-299 | delivering any sequence of key events through keyPressed and keyReleased leaves exactly the keys whose last event was a press, plus the untouched keys held before; nothing else changes |
| Scenarios.PressTwiceReleaseOnce | src/asteroids/game/Controller.java:293-299 | pressing a key twice and releasing it once leaves it released and every other key as it was |
| Scenarios.LastLifeEndsGame | src/asteroids/game/Controller.java:240-255 | a new game whose only ship is destroyed shows GAME_OVER after END_DELAY: key listening is off, no ship remains, nothing is pending, and a later tick leaves the participants and the held keys alone |
| Scenarios.StageClearKeepsShip | src/asteroids/game/Controller.java:240-255 | clearing the last asteroid with lives left ends in a transition that keeps the ship and the participants and places no new wave |

## Left out

- Physics: positions, velocities, rotation by ±π/16, friction, `setVelocity` and the ship's nose point are floating point. Turning and accelerating are counted as commands instead.
- Geometry: the `Path2D` outlines appear only as the tags `Hull` and `HullWithFlame`. The bullet's `getOutline` is not modelled because it has a single shape.
- Collisions: the resolver that finds overlapping participants and calls `collidedWith` lives in `ParticipantState`, which is not part of this model. `pstate.moveParticipants()` inside the refresh tick is not part of this model either.
- Sweep of expired participants: an expired participant stays in the list and only stops counting. The removal at the end of a tick belongs to `ParticipantState`.
- Participant iteration: `iterator()` and the traversal order of `ParticipantState` are not part of this model. Counting visits the list in insertion order and, by assumption, skips expired entries.
- Timer firing: `ParticipantCountdownTimer` is reduced to registering a pending entry. When entries fire and in what order is not modelled, and `countdownComplete` is a method the environment may call.
- Swing and the display: the refresh `Timer`, `Display`, `setVisible`, `refresh` and `requestFocusInWindow` are left out. `addKeyListener`/`removeKeyListener` are reduced to the `listening` flag. The `JButton` test in `actionPerformed` becomes the `StartButton` source.
- Time: `System.currentTimeMillis()` is the parameter `now`.
- Legend text: the strings are the `Legend` datatype. The `GAME_OVER` constant lives in `Constants`, which is not part of this model.
- Game.Controller.ScheduleTransition: does not model the `long` overflow of `now + m`, because time is an unbounded integer.
- Game.Controller.ShipDestroyed: does not model the wrap-around of `lives--` below the smallest `int`, because lives are an unbounded integer.
- Asteroids: `Asteroid.java` is not part of this model. An asteroid is a participant of kind `AsteroidKind` that is assumed to be a ship destroyer. Its variety, position, velocity and splitting are left out.
- Participant: `Participant.java` is not part of this model. `Participant.expire` is assumed to ignore a null argument, because `placeShip` passes it the ship before any ship exists.
- `getShip` is a plain field read. `keyTyped` has an empty body in the source and is not modelled.
- `Screen.java` is painting only and is not part of this model.
