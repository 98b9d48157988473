/**
 * The game controller (lives, the pending stage transition, the ship, the held
 * keys, key listening, the legend and the participant list) and the ship,
 * which calls back into the controller when it is destroyed. The two refer to
 * each other, so they share this module.
 *
 * Wall-clock time is the parameter `now` (milliseconds); END_DELAY is the
 * constructor parameter `endDelay`.
 */
module Game {
  import opened Participants
  import opened Keys

  /** Long.MAX_VALUE: the transition time that means "nothing pending". */
  const MAX: int := 0x7fff_ffff_ffff_ffff

  /** Milliseconds a new ship stays inert. */
  const VulnerableDelay: int := 2000

  /** The text shown across the screen: "", "Asteroids", "Ouch!" and GAME_OVER. */
  datatype Legend = Blank | Title | Ouch | GameOver

  /** The outline a ship shows: the hull alone, or the hull with the thrust flame. */
  datatype Shape = Hull | HullWithFlame

  /** The source of an action event: the start button, the refresh timer, or anything else. */
  datatype Source = StartButton | RefreshTimer | OtherSource

  /** Every live ship-kind participant of `ps` is in `ships`. */
  ghost predicate LiveShipsAre(ps: seq<Participant>, ships: set<Participant>)
    reads ps
  {
    forall i :: 0 <= i < |ps| && ps[i].kind == ShipKind && IsLive(ps[i]) ==> ps[i] in ships
  }

  class Controller {
    const endDelay: int
    /** The countdown timers registered by the participants this controller creates. */
    const timers: Countdowns

    /** The participants of the game, in insertion order. */
    var participants: seq<Participant>
    /** The active ship, or null. */
    var ship: Ship?
    /** When the next stage transition happens; MAX when none is pending. */
    var transitionTime: int
    var lives: int
    /** The keys currently held down. */
    var keyList: set<int>
    /** Whether the display delivers key events to this controller. */
    var listening: bool
    var legend: Legend

    /** The active ship, if any, is a ship-kind participant of the game. */
    ghost predicate Valid()
      reads this
    {
      ship != null ==> ship.participant.kind == ShipKind && ship.participant in participants
    }

    /** Every live ship-kind participant is the active ship: at most one ship is live. */
    ghost predicate ShipExclusive()
      reads this, participants
    {
      LiveShipsAre(participants, if ship == null then {} else {ship.participant})
    }

    /** The state right after the start button: one life, three asteroids and a ship. */
    ghost predicate NewGame()
      reads this, participants
    {
      && Valid() && ShipExclusive()
      && lives == 1 && listening && legend == Blank
      && ship != null && ship.controller == this
      && |participants| == 4 && participants[3] == ship.participant
      && AsteroidCount(participants) == 3
    }

    /** A new controller shows the splash screen; no transition is pending. */
    constructor (endDelay: int, timers: Countdowns)
      ensures this.endDelay == endDelay && this.timers == timers
      ensures transitionTime == MAX && lives == 0 && ship == null
      ensures keyList == {} && !listening && legend == Title
      ensures |participants| == 3 && AsteroidCount(participants) == 3
      ensures forall i :: 0 <= i < 3 ==> fresh(participants[i]) && participants[i].kind == AsteroidKind
      ensures Valid() && ShipExclusive()
    {
      this.endDelay := endDelay;
      this.timers := timers;
      participants := [];
      ship := null;
      transitionTime := MAX;
      lives := 0;
      keyList := {};
      listening := false;
      legend := Blank;
      new;
      SplashScreen();
    }

    /** Empties the game and shows the title over three asteroids. */
    method SplashScreen()
      modifies this
      ensures legend == Title && ship == null
      ensures |participants| == 3 && AsteroidCount(participants) == 3
      ensures forall i :: 0 <= i < 3 ==> fresh(participants[i]) && participants[i].kind == AsteroidKind
      ensures transitionTime == old(transitionTime) && lives == old(lives)
      ensures keyList == old(keyList) && listening == old(listening)
      ensures Valid() && ShipExclusive()
    {
      Clear();
      legend := Title;
      PlaceAsteroids();
    }

    /** The game is over: show GAME_OVER and stop listening for keys. */
    method FinalScreen()
      modifies this
      ensures legend == GameOver && !listening
      ensures participants == old(participants) && ship == old(ship)
      ensures transitionTime == old(transitionTime) && lives == old(lives) && keyList == old(keyList)
    {
      legend := GameOver;
      listening := false;
    }

    /** Expires the current ship, if any, and adds a new ship as the current one. */
    method PlaceShip(now: int)
      requires Valid()
      modifies this, timers, if ship == null then {} else {ship.participant}
      ensures old(ship) != null ==> old(ship).participant.expired && old(ship).participant.inert == old(ship.participant.inert)
      ensures ship != null && fresh(ship) && fresh(ship.participant) && ship.controller == this
      ensures ship.participant.kind == ShipKind && ship.participant.inert && !ship.participant.expired
      ensures !ship.accelerating && ship.turnsRight == 0 && ship.turnsLeft == 0 && ship.thrusts == 0
      ensures participants == old(participants) + [ship.participant]
      ensures timers.pending == old(timers.pending) + [Countdown(ship.participant, "vulnerable", now + VulnerableDelay)]
      ensures legend == Blank
      ensures transitionTime == old(transitionTime) && lives == old(lives)
      ensures keyList == old(keyList) && listening == old(listening)
      ensures AsteroidCount(participants) == old(AsteroidCount(participants))
      ensures Valid() && (old(ShipExclusive()) ==> ShipExclusive())
    {
      ExpireShip();
      var s := SpawnShip(now);
      legend := Blank;
    }

    /** No ship-kind participant is live. */
    ghost predicate NoLiveShip()
      reads this, participants
    {
      LiveShipsAre(participants, {})
    }

    /**
     * Expires the current ship, if any. No asteroid changes, and when the
     * ship was the only live one, no ship-kind participant is live afterwards.
     */
    method ExpireShip()
      requires Valid()
      modifies if ship == null then {} else {ship.participant}
      ensures ship != null ==> ship.participant.expired && ship.participant.inert == old(ship.participant.inert)
      ensures AsteroidCount(participants) == old(AsteroidCount(participants))
      ensures old(ShipExclusive()) ==> NoLiveShip()
    {
      ghost var ps := participants;
      ghost var flags := seq(|ps|, i requires 0 <= i < |ps| reads ps => IsLive(ps[i]));
      AsteroidCountByFlags(ps, flags);
      Participant.Expire(if ship == null then null else ship.participant);
      AsteroidCountByFlags(ps, flags);
      if old(ShipExclusive()) {
        forall i | 0 <= i < |participants| && participants[i].kind == ShipKind
          ensures !IsLive(participants[i])
        {
          if old(IsLive(participants[i])) {
            assert participants[i] == ship.participant;
          }
        }
      }
    }

    /** Creates a new ship, makes it the current one and adds it to the participants. */
    method SpawnShip(now: int) returns (s: Ship)
      modifies this, timers
      ensures ship == s && fresh(s) && fresh(s.participant) && s.controller == this
      ensures s.participant.kind == ShipKind && s.participant.inert && !s.participant.expired
      ensures !s.accelerating && s.turnsRight == 0 && s.turnsLeft == 0 && s.thrusts == 0
      ensures participants == old(participants) + [s.participant]
      ensures timers.pending == old(timers.pending) + [Countdown(s.participant, "vulnerable", now + VulnerableDelay)]
      ensures legend == old(legend) && transitionTime == old(transitionTime) && lives == old(lives)
      ensures keyList == old(keyList) && listening == old(listening)
      ensures AsteroidCount(participants) == old(AsteroidCount(participants))
      ensures Valid() && (old(NoLiveShip()) ==> ShipExclusive())
    {
      ghost var before := participants;
      s := new Ship(this, timers, now);
      ship := s;
      AddParticipant(s.participant);
      AsteroidCountAppend(before, [s.participant]);
      assert AsteroidCount([s.participant]) == 0;
      if old(NoLiveShip()) {
        assert participants[|before|] == s.participant;
      }
    }

    /** Adds three new live asteroids. */
    method PlaceAsteroids()
      modifies this
      ensures |participants| == |old(participants)| + 3
      ensures participants[..|old(participants)|] == old(participants)
      ensures forall i :: |old(participants)| <= i < |participants| ==>
        fresh(participants[i]) && participants[i].kind == AsteroidKind && IsLive(participants[i])
      ensures AsteroidCount(participants) == old(AsteroidCount(participants)) + 3
      ensures ship == old(ship) && legend == old(legend)
      ensures transitionTime == old(transitionTime) && lives == old(lives)
      ensures keyList == old(keyList) && listening == old(listening)
      ensures old(Valid()) ==> Valid()
      ensures old(ShipExclusive()) ==> ShipExclusive()
    {
      ghost var before := participants;
      var a0 := AddAsteroid();
      var a1 := AddAsteroid();
      var a2 := AddAsteroid();
      assert participants == before + [a0, a1, a2];
      assert IsLive(a0) && IsLive(a1) && IsLive(a2);
      assert fresh(a0) && fresh(a1);
      forall i | |before| <= i < |participants|
        ensures fresh(participants[i]) && participants[i].kind == AsteroidKind && IsLive(participants[i])
      {
        if i == |before| {
          assert participants[i] == a0;
        } else if i == |before| + 1 {
          assert participants[i] == a1;
        } else {
          assert participants[i] == a2;
        }
      }
    }

    /** Adds one new live asteroid, `a`. */
    method AddAsteroid() returns (a: Participant)
      modifies this
      ensures participants == old(participants) + [a]
      ensures fresh(a) && a.kind == AsteroidKind && IsLive(a)
      ensures AsteroidCount(participants) == old(AsteroidCount(participants)) + 1
      ensures ship == old(ship) && legend == old(legend)
      ensures transitionTime == old(transitionTime) && lives == old(lives)
      ensures keyList == old(keyList) && listening == old(listening)
      ensures old(Valid()) ==> Valid()
      ensures old(ShipExclusive()) ==> ShipExclusive()
    {
      ghost var before := participants;
      a := new Participant(AsteroidKind);
      AddParticipant(a);
      AsteroidCountAppend(before, [a]);
      assert AsteroidCount(before) == old(AsteroidCount(participants));
    }

    /** Removes every participant and forgets the ship. */
    method Clear()
      modifies this
      ensures participants == [] && legend == Blank && ship == null
      ensures transitionTime == old(transitionTime) && lives == old(lives)
      ensures keyList == old(keyList) && listening == old(listening)
      ensures Valid() && ShipExclusive()
    {
      participants := [];
      legend := Blank;
      ship := null;
    }

    /** Starts a new game: three asteroids, a ship, one life, and key listening on. */
    method InitialScreen(now: int)
      modifies this, timers
      ensures NewGame() && fresh(ship) && fresh(ship.participant) && ship.participant.inert && !ship.participant.expired
      ensures !ship.accelerating && ship.turnsRight == 0 && ship.turnsLeft == 0 && ship.thrusts == 0
      ensures forall i :: 0 <= i < 3 ==> fresh(participants[i]) && participants[i].kind == AsteroidKind
      ensures timers.pending == old(timers.pending) + [Countdown(ship.participant, "vulnerable", now + VulnerableDelay)]
      ensures transitionTime == old(transitionTime) && keyList == old(keyList)
    {
      ResetField(now);
      lives := 1;
      // removing the key listener and adding it again leaves the controller listening
      listening := true;
    }

    /** Clears the screen, then places three new asteroids and a new ship after them. */
    method ResetField(now: int)
      modifies this, timers
      ensures Valid() && ShipExclusive() && legend == Blank
      ensures ship != null && ship.controller == this && fresh(ship) && fresh(ship.participant)
      ensures ship.participant.inert && !ship.participant.expired
      ensures !ship.accelerating && ship.turnsRight == 0 && ship.turnsLeft == 0 && ship.thrusts == 0
      ensures |participants| == 4 && participants[3] == ship.participant && AsteroidCount(participants) == 3
      ensures forall i :: 0 <= i < 3 ==> fresh(participants[i]) && participants[i].kind == AsteroidKind
      ensures timers.pending == old(timers.pending) + [Countdown(ship.participant, "vulnerable", now + VulnerableDelay)]
      ensures transitionTime == old(transitionTime) && keyList == old(keyList)
      ensures lives == old(lives) && listening == old(listening)
    {
      Clear();
      PlaceAsteroids();
      PlaceShip(now);
    }

    /** Appends `p` to the participants. */
    method AddParticipant(p: Participant)
      modifies this
      ensures participants == old(participants) + [p]
      ensures ship == old(ship) && legend == old(legend)
      ensures transitionTime == old(transitionTime) && lives == old(lives)
      ensures keyList == old(keyList) && listening == old(listening)
    {
      participants := participants + [p];
    }

    /** The ship is gone: one life fewer, and a transition END_DELAY after `now`. */
    method ShipDestroyed(now: int)
      modifies this
      ensures ship == null && legend == Ouch
      ensures lives == old(lives) - 1
      ensures transitionTime == now + endDelay
      ensures participants == old(participants) && keyList == old(keyList) && listening == old(listening)
      ensures Valid()
    {
      ship := null;
      legend := Ouch;
      lives := lives - 1;
      ScheduleTransition(endDelay, now);
    }

    /** An asteroid is gone: a transition is scheduled exactly when no live asteroid remains. */
    method AsteroidDestroyed(now: int)
      modifies this
      ensures transitionTime == if AsteroidCount(participants) == 0 then now + endDelay else old(transitionTime)
      ensures participants == old(participants) && ship == old(ship) && legend == old(legend)
      ensures lives == old(lives) && keyList == old(keyList) && listening == old(listening)
    {
      var n := CountAsteroids();
      if n == 0 {
        ScheduleTransition(endDelay, now);
      }
    }

    /** Sets the pending transition to `m` milliseconds after `now`, replacing any earlier one. */
    method ScheduleTransition(m: int, now: int)
      modifies this
      ensures transitionTime == now + m
      ensures participants == old(participants) && ship == old(ship) && legend == old(legend)
      ensures lives == old(lives) && keyList == old(keyList) && listening == old(listening)
    {
      transitionTime := now + m;
    }

    /**
     * One refresh-timer event: the due transition first, then the held keys.
     * Moving the participants and resolving collisions happens between the
     * two in the game and is not part of this model.
     */
    method Tick(now: int)
      requires Valid()
      modifies this, ship
      ensures transitionTime == if old(transitionTime) <= now then MAX else old(transitionTime)
      ensures old(transitionTime) <= now && lives <= 0 ==> legend == GameOver && !listening
      ensures !(old(transitionTime) <= now && lives <= 0) ==> legend == old(legend) && listening == old(listening)
      ensures ship == old(ship) && participants == old(participants)
      ensures lives == old(lives) && keyList == old(keyList)
      ensures ship != null ==> ship.Issued() == AfterKeys(old(ship.Issued()), keyList)
      ensures Valid()
    {
      PerformTransition(now);
      KeyActions();
    }

    /**
     * An action event: the start button begins a new game, the refresh timer
     * ticks the game, anything else is ignored.
     */
    method ActionPerformed(source: Source, now: int)
      requires Valid()
      modifies this, timers, ship
      ensures source == StartButton ==>
        && NewGame() && fresh(ship) && fresh(ship.participant) && ship.participant.inert && !ship.participant.expired
        && !ship.accelerating && ship.turnsRight == 0 && ship.turnsLeft == 0 && ship.thrusts == 0
        && timers.pending == old(timers.pending) + [Countdown(ship.participant, "vulnerable", now + VulnerableDelay)]
        && transitionTime == old(transitionTime) && keyList == old(keyList)
      ensures source == RefreshTimer ==>
        && transitionTime == (if old(transitionTime) <= now then MAX else old(transitionTime))
        && (old(transitionTime) <= now && lives <= 0 ==> legend == GameOver && !listening)
        && (!(old(transitionTime) <= now && lives <= 0) ==> legend == old(legend) && listening == old(listening))
        && ship == old(ship) && participants == old(participants)
        && lives == old(lives) && keyList == old(keyList)
        && (ship != null ==> ship.Issued() == AfterKeys(old(ship.Issued()), keyList))
        && unchanged(timers)
      ensures source == StartButton ==> old(ship) != null ==> unchanged(old(ship))
      ensures source == OtherSource ==> unchanged(this) && unchanged(timers) && (ship != null ==> unchanged(ship))
      ensures Valid()
    {
      if source == StartButton {
        InitialScreen(now);
      } else if source == RefreshTimer {
        Tick(now);
      }
    }

    /** If the transition time has come, clear it; with no lives left the game is over. */
    method PerformTransition(now: int)
      modifies this
      ensures transitionTime == if old(transitionTime) <= now then MAX else old(transitionTime)
      ensures old(transitionTime) <= now && lives <= 0 ==> legend == GameOver && !listening
      ensures !(old(transitionTime) <= now && lives <= 0) ==> legend == old(legend) && listening == old(listening)
      ensures participants == old(participants) && ship == old(ship)
      ensures lives == old(lives) && keyList == old(keyList)
    {
      if transitionTime <= now {
        transitionTime := MAX;
        if lives <= 0 {
          FinalScreen();
        }
      }
    }

    /** The number of live asteroids, found by visiting every participant. */
    method CountAsteroids() returns (count: nat)
      ensures count == AsteroidCount(participants)
    {
      count := 0;
      var i := 0;
      while i < |participants|
        invariant 0 <= i <= |participants|
        invariant count == AsteroidCount(participants[..i])
      {
        var p := participants[i];
        if IsLive(p) && p.kind == AsteroidKind {
          count := count + 1;
        }
        assert participants[..i + 1] == participants[..i] + [p];
        AsteroidCountAppend(participants[..i], [p]);
        i := i + 1;
      }
      assert participants[..i] == participants;
    }

    /**
     * Gives the ship one command per held key bound to it; without a ship,
     * nothing happens. The held keys are visited in no particular order.
     */
    method KeyActions()
      modifies ship
      ensures ship != null ==> ship.Issued() == AfterKeys(old(ship.Issued()), keyList)
    {
      if ship != null {
        var s: Ship := ship;
        ghost var start := s.Issued();
        var remaining := keyList;
        while remaining != {}
          invariant remaining <= keyList
          invariant s.Issued() == AfterKeys(start, keyList - remaining)
          decreases remaining
        {
          SomeKey(remaining);
          var key :| key in remaining;
          KeyAction(s, key);
          AfterKeysNext(start, keyList, remaining, key);
          remaining := remaining - {key};
        }
        assert keyList - remaining == keyList;
      }
    }

    /** The commands that one held key gives the ship. */
    static method KeyAction(s: Ship, key: int)
      modifies s
      ensures s.Issued() == AfterKey(old(s.Issued()), key)
    {
      if key == VK_RIGHT || key == VK_D {
        s.TurnRight();
      }
      if key == VK_LEFT || key == VK_A {
        s.TurnLeft();
      }
      if key == VK_UP || key == VK_W {
        s.Accelerate();
      }
    }

    /** A key went down; pressing a held key again changes nothing. */
    method KeyPressed(code: int)
      modifies this
      ensures keyList == old(keyList) + {code}
      ensures participants == old(participants) && ship == old(ship) && legend == old(legend)
      ensures transitionTime == old(transitionTime) && lives == old(lives) && listening == old(listening)
    {
      keyList := keyList + {code};
    }

    /** A key went up; it is no longer held, however often it was pressed. */
    method KeyReleased(code: int)
      modifies this
      ensures keyList == old(keyList) - {code}
      ensures participants == old(participants) && ship == old(ship) && legend == old(legend)
      ensures transitionTime == old(transitionTime) && lives == old(lives) && listening == old(listening)
    {
      keyList := keyList - {code};
    }
  }

  class Ship {
    /** The participant part of this ship: kind, expired and inert flags. */
    const participant: Participant
    const controller: Controller
    /** Whether the thrust flame is shown. */
    var accelerating: bool
    // Commands issued to the ship; the rotation and velocity they cause are not modelled.
    var turnsRight: nat
    var turnsLeft: nat
    var thrusts: nat

    /** A new ship: inert, not accelerating, with its "vulnerable" countdown registered at `now`. */
    constructor (controller: Controller, timers: Countdowns, now: int)
      modifies timers
      ensures this.controller == controller
      ensures fresh(participant) && participant.kind == ShipKind
      ensures participant.inert && !participant.expired
      ensures !accelerating && turnsRight == 0 && turnsLeft == 0 && thrusts == 0
      ensures timers.pending == old(timers.pending) + [Countdown(participant, "vulnerable", now + VulnerableDelay)]
    {
      var p := new Participant(ShipKind);
      this.controller := controller;
      participant := p;
      turnsRight, turnsLeft, thrusts := 0, 0, 0;
      accelerating := false;
      new;
      participant.SetInert(true);
      timers.Register(participant, "vulnerable", VulnerableDelay, now);
    }

    /** The commands this ship has been given. */
    function Issued(): Commands
      reads this
    {
      Commands(turnsRight, turnsLeft, thrusts, accelerating)
    }

    /** The thrust outline exactly while accelerating, the plain hull otherwise. */
    function Outline(): (s: Shape)
      reads this
      ensures s == HullWithFlame <==> accelerating
    {
      if accelerating then HullWithFlame else Hull
    }

    method TurnRight()
      modifies this
      ensures turnsRight == old(turnsRight) + 1
      ensures turnsLeft == old(turnsLeft) && thrusts == old(thrusts) && accelerating == old(accelerating)
    {
      turnsRight := turnsRight + 1;
    }

    method TurnLeft()
      modifies this
      ensures turnsLeft == old(turnsLeft) + 1
      ensures turnsRight == old(turnsRight) && thrusts == old(thrusts) && accelerating == old(accelerating)
    {
      turnsLeft := turnsLeft + 1;
    }

    /** Shows the thrust flame and issues one acceleration. */
    method Accelerate()
      modifies this
      ensures accelerating && thrusts == old(thrusts) + 1
      ensures turnsRight == old(turnsRight) && turnsLeft == old(turnsLeft)
    {
      accelerating := true;
      thrusts := thrusts + 1;
    }

    /** Hides the thrust flame. */
    method Unaccelerate()
      modifies this
      ensures !accelerating
      ensures turnsRight == old(turnsRight) && turnsLeft == old(turnsLeft) && thrusts == old(thrusts)
    {
      accelerating := false;
    }

    /**
     * Hit by a ship destroyer, the ship expires and tells the controller;
     * anything else leaves everything as it was. There is no guard against a
     * ship that has already expired.
     */
    method CollidedWith(p: Participant, now: int)
      modifies participant, controller
      ensures ShipDestroyer in Capabilities(p.kind) ==>
        && participant.expired && participant.inert == old(participant.inert)
        && controller.ship == null && controller.legend == Ouch
        && controller.lives == old(controller.lives) - 1
        && controller.transitionTime == now + controller.endDelay
        && controller.participants == old(controller.participants)
        && controller.keyList == old(controller.keyList)
        && controller.listening == old(controller.listening)
      ensures ShipDestroyer !in Capabilities(p.kind) ==> unchanged(participant) && unchanged(controller)
      ensures old(controller.Valid()) ==> controller.Valid()
      ensures old(controller.ship) == this && old(controller.ShipExclusive()) ==> controller.ShipExclusive()
    {
      if ShipDestroyer in Capabilities(p.kind) {
        Participant.Expire(participant);
        controller.ShipDestroyed(now);
      }
    }

    /** The "vulnerable" countdown ends the inert period; every other payload is ignored. */
    method CountdownComplete(payload: string)
      modifies participant
      ensures participant.inert == if payload == "vulnerable" then false else old(participant.inert)
      ensures participant.expired == old(participant.expired)
    {
      if payload == "vulnerable" {
        participant.SetInert(false);
      }
    }
  }
}
