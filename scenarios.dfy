/**
 * Properties that span several calls into the controller, the ship and the
 * bullet, each stated by a client method that makes the calls.
 */
module Scenarios {
  import opened Participants
  import opened Keys
  import opened Bullets
  import opened Game

  /** A second PerformTransition at the same time undoes nothing and adds nothing. */
  method TransitionIdempotent(c: Controller, now: int)
    modifies c
    ensures c.transitionTime == if old(c.transitionTime) <= now then MAX else old(c.transitionTime)
    ensures old(c.transitionTime) <= now && c.lives <= 0 ==> c.legend == GameOver && !c.listening
    ensures !(old(c.transitionTime) <= now && c.lives <= 0) ==> c.legend == old(c.legend) && c.listening == old(c.listening)
    ensures c.participants == old(c.participants) && c.ship == old(c.ship)
    ensures c.lives == old(c.lives) && c.keyList == old(c.keyList)
  {
    c.PerformTransition(now);
    ghost var time, legend, listening := c.transitionTime, c.legend, c.listening;
    c.PerformTransition(now);
    assert c.transitionTime == time && c.legend == legend && c.listening == listening;
  }

  /** Of two scheduled transitions, the later call decides the pending time. */
  method LastScheduleWins(c: Controller, m1: int, now1: int, m2: int, now2: int)
    modifies c
    ensures c.transitionTime == now2 + m2
    ensures c.participants == old(c.participants) && c.ship == old(c.ship) && c.lives == old(c.lives)
  {
    c.ScheduleTransition(m1, now1);
    c.ScheduleTransition(m2, now2);
  }

  /**
   * The ship has no guard against a second destroying collision: hit twice by
   * an asteroid, it costs two lives.
   */
  method RepeatedShipCollision(s: Ship, rock: Participant, now: int)
    requires rock.kind == AsteroidKind
    modifies s.participant, s.controller
    ensures s.participant.expired && s.controller.ship == null
    ensures s.controller.lives == old(s.controller.lives) - 2
    ensures s.controller.transitionTime == now + s.controller.endDelay
  {
    s.CollidedWith(rock, now);
    s.CollidedWith(rock, now);
  }

  /** A bullet is no ship destroyer: colliding with one leaves ship and controller alone. */
  method ShipIgnoresBullets(s: Ship, timers: Countdowns, now: int)
    modifies timers, s.participant, s.controller
    ensures unchanged(s.participant) && unchanged(s.controller)
  {
    var b := new Bullet(timers, now);
    s.CollidedWith(b.participant, now);
  }

  /**
   * Delivers `events` to the controller one at a time, in order. The held
   * keys end as HeldAfter says, so the last event about a key decides
   * whether it is held; nothing else in the controller changes.
   */
  method DeliverKeyEvents(c: Controller, events: seq<KeyEvent>)
    modifies c
    ensures c.keyList == HeldAfter(old(c.keyList), events)
    ensures forall k :: !Mentions(events, k) ==> (k in c.keyList <==> k in old(c.keyList))
    ensures forall k :: Mentions(events, k) ==> (k in c.keyList <==> events[LastFor(events, k)].Pressed?)
    ensures c.participants == old(c.participants) && c.ship == old(c.ship) && c.legend == old(c.legend)
    ensures c.transitionTime == old(c.transitionTime) && c.lives == old(c.lives) && c.listening == old(c.listening)
  {
    ghost var start := c.keyList;
    var i := 0;
    while i < |events|
      invariant 0 <= i <= |events|
      invariant c.keyList == HeldAfter(start, events[..i])
      invariant c.participants == old(c.participants) && c.ship == old(c.ship) && c.legend == old(c.legend)
      invariant c.transitionTime == old(c.transitionTime) && c.lives == old(c.lives) && c.listening == old(c.listening)
    {
      match events[i] {
        case Pressed(code) => c.KeyPressed(code);
        case Released(code) => c.KeyReleased(code);
      }
      assert events[..i + 1][..i] == events[..i];
      i := i + 1;
    }
    assert events[..i] == events;
    forall k | true
      ensures !Mentions(events, k) ==> (k in c.keyList <==> k in start)
      ensures Mentions(events, k) ==> (k in c.keyList <==> events[LastFor(events, k)].Pressed?)
    {
      HeldAfterLastEvent(start, events, k);
    }
  }

  /** Pressing a key twice and releasing it once leaves it released; other keys stay as they were. */
  method PressTwiceReleaseOnce(c: Controller, k: int)
    modifies c
    ensures k !in c.keyList
    ensures forall j :: j != k ==> (j in c.keyList <==> j in old(c.keyList))
  {
    var events := [Pressed(k), Pressed(k), Released(k)];
    DeliverKeyEvents(c, events);
    assert Mentions(events, k) && LastFor(events, k) == 2 by {
      assert events[2].code == k;
    }
    forall j | j != k
      ensures !Mentions(events, j)
    {
      assert forall i :: 0 <= i < |events| ==> events[i].code == k;
    }
  }

  /**
   * With one life, losing the ship leaves no lives at once; the tick
   * END_DELAY later ends the game: GAME_OVER, no key listening, no ship, and
   * later ticks leave the participants and the held keys alone.
   */
  method LastLifeEndsGame(endDelay: int, now: int) returns (c: Controller)
    ensures c.lives == 0 && c.ship == null
    ensures c.legend == GameOver && !c.listening
    ensures c.transitionTime == MAX
    ensures c.ShipExclusive()
  {
    var timers := new Countdowns();
    c := new Controller(endDelay, timers);
    c.InitialScreen(now);
    var rock := new Participant(AsteroidKind);
    c.ship.CollidedWith(rock, now);
    assert c.lives == 0;
    c.Tick(now + endDelay);
    ghost var state, keys := c.participants, c.keyList;
    c.Tick(now + endDelay + 1);
    assert c.participants == state && c.keyList == keys;
  }

  /**
   * Clearing the last asteroid with lives left: the transition that follows
   * keeps the ship and places no new wave.
   */
  method StageClearKeepsShip(c: Controller, now: int)
    requires c.lives > 0 && AsteroidCount(c.participants) == 0
    modifies c
    ensures c.ship == old(c.ship) && c.participants == old(c.participants)
    ensures c.transitionTime == MAX && c.listening == old(c.listening)
  {
    c.AsteroidDestroyed(now);
    c.PerformTransition(now + c.endDelay);
  }
}
