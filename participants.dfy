/**
 * The participant layer shared by the game controller, the ship and the
 * bullet: the kind tag of every participant, the destroyer capability tags,
 * the base participant with its expired and inert flags, the number of live
 * asteroids, and the pending list of countdown timers.
 */
module Participants {

  /** The concrete variants of a participant. */
  datatype Kind = ShipKind | BulletKind | AsteroidKind

  /** Marker interfaces: what a participant is able to destroy. */
  datatype Capability = AsteroidDestroyer | ShipDestroyer

  /** The marker interfaces each kind implements. */
  function Capabilities(k: Kind): set<Capability>
  {
    match k
    case ShipKind => {AsteroidDestroyer}
    case BulletKind => {AsteroidDestroyer}
    case AsteroidKind => {ShipDestroyer}
  }

  /**
   * Ships and bullets destroy asteroids and never ships; only asteroids
   * destroy ships.
   */
  lemma DestroyerTags()
    ensures Capabilities(ShipKind) == {AsteroidDestroyer}
    ensures Capabilities(BulletKind) == {AsteroidDestroyer}
    ensures forall k :: ShipDestroyer in Capabilities(k) <==> k == AsteroidKind
    ensures forall k :: AsteroidDestroyer in Capabilities(k) <==> k != AsteroidKind
  {
  }

  /**
   * The part of every ship, bullet and asteroid that the base participant
   * class keeps: its kind and its two flags.
   */
  class Participant {
    const kind: Kind
    var expired: bool
    var inert: bool

    constructor (kind: Kind)
      ensures this.kind == kind && !expired && !inert
    {
      this.kind := kind;
      expired := false;
      inert := false;
    }

    method SetInert(b: bool)
      modifies this
      ensures inert == b && expired == old(expired)
    {
      inert := b;
    }

    /** Expires `p`; a null participant is ignored. */
    static method Expire(p: Participant?)
      modifies p
      ensures p != null ==> p.expired && p.inert == old(p.inert)
    {
      if p != null {
        p.expired := true;
      }
    }
  }

  /** A participant that an iteration over the game visits. */
  predicate IsLive(p: Participant)
    reads p
  {
    !p.expired
  }

  /** The number of live asteroids among `ps`. */
  ghost function AsteroidCount(ps: seq<Participant>): (n: nat)
    reads ps
    ensures n <= |ps|
  {
    if ps == [] then 0
    else (if ps[0].kind == AsteroidKind && IsLive(ps[0]) then 1 else 0) + AsteroidCount(ps[1..])
  }

  /** No asteroid is counted exactly when no participant is a live asteroid. */
  lemma {:induction false} NoAsteroidsLeft(ps: seq<Participant>)
    ensures AsteroidCount(ps) == 0 <==> forall i :: 0 <= i < |ps| ==> !(ps[i].kind == AsteroidKind && IsLive(ps[i]))
  {
    if ps != [] {
      NoAsteroidsLeft(ps[1..]);
      assert forall i :: 1 <= i < |ps| ==> ps[i] == ps[1..][i - 1];
    }
  }

  /** Counting live asteroids distributes over concatenation. */
  lemma {:induction false} AsteroidCountAppend(s: seq<Participant>, t: seq<Participant>)
    ensures AsteroidCount(s + t) == AsteroidCount(s) + AsteroidCount(t)
  {
    if s == [] {
      assert s + t == t;
    } else {
      assert (s + t)[1..] == s[1..] + t;
      AsteroidCountAppend(s[1..], t);
    }
  }

  /**
   * The live-asteroid count of `ps` read off the flags `live` instead of the
   * participants' own expired flags; kinds never change, so this count does
   * not depend on the heap.
   */
  function MarkedAsteroidCount(ps: seq<Participant>, live: seq<bool>): nat
    requires |live| == |ps|
  {
    if ps == [] then 0
    else (if ps[0].kind == AsteroidKind && live[0] then 1 else 0) + MarkedAsteroidCount(ps[1..], live[1..])
  }

  /**
   * The count is determined by the liveness of the asteroids alone: flags
   * that agree with the participants on every asteroid give the same count.
   * Expiring a ship therefore leaves the count unchanged.
   */
  lemma {:induction false} AsteroidCountByFlags(ps: seq<Participant>, live: seq<bool>)
    requires |live| == |ps|
    requires forall i :: 0 <= i < |ps| && ps[i].kind == AsteroidKind ==> live[i] == IsLive(ps[i])
    ensures AsteroidCount(ps) == MarkedAsteroidCount(ps, live)
  {
    if ps != [] {
      AsteroidCountByFlags(ps[1..], live[1..]);
    }
  }

  /** A registered one-shot timer: at `fireAt`, `owner` receives `payload`. */
  datatype Countdown = Countdown(owner: Participant, payload: string, fireAt: int)

  /** The timers registered so far and not yet fired. */
  class Countdowns {
    var pending: seq<Countdown>

    constructor ()
      ensures pending == []
    {
      pending := [];
    }

    /** Registers a countdown that completes `delay` milliseconds after `now`. */
    method Register(owner: Participant, payload: string, delay: int, now: int)
      modifies this
      ensures pending == old(pending) + [Countdown(owner, payload, now + delay)]
    {
      pending := pending + [Countdown(owner, payload, now + delay)];
    }
  }
}
