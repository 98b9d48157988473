/**
 * A bullet: it expires when it hits an asteroid or when its lifetime
 * countdown completes. Position and velocity are not modelled.
 */
module Bullets {
  import opened Participants

  /** Milliseconds a bullet lives before its countdown expires it. */
  const LifetimeDelay: int := 1500

  class Bullet {
    /** The participant part of this bullet: kind, expired and inert flags. */
    const participant: Participant

    /** A new live bullet, with its lifetime countdown registered at time `now`. */
    constructor (timers: Countdowns, now: int)
      modifies timers
      ensures fresh(participant) && participant.kind == BulletKind
      ensures !participant.expired && !participant.inert
      ensures timers.pending == old(timers.pending) + [Countdown(participant, "lifetime", now + LifetimeDelay)]
    {
      participant := new Participant(BulletKind);
      new;
      timers.Register(participant, "lifetime", LifetimeDelay, now);
    }

    /** A bullet expires when, and only when, the other participant is an asteroid. */
    method CollidedWith(p: Participant)
      modifies participant
      ensures participant.expired == (old(participant.expired) || p.kind == AsteroidKind)
      ensures participant.inert == old(participant.inert)
    {
      if p.kind == AsteroidKind {
        Participant.Expire(participant);
      }
    }

    /** The "lifetime" countdown expires the bullet; every other payload is ignored. */
    method CountdownComplete(payload: string)
      modifies participant
      ensures participant.expired == (old(participant.expired) || payload == "lifetime")
      ensures participant.inert == old(participant.inert)
    {
      if payload == "lifetime" {
        Participant.Expire(participant);
      }
    }
  }
}
