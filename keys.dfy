/**
 * Key codes, the key bindings of the ship controls, and the set of held keys
 * as it results from a sequence of key-pressed and key-released events.
 */
module Keys {

  // Virtual key codes of java.awt.event.KeyEvent.
  const VK_LEFT: int := 37
  const VK_UP: int := 38
  const VK_RIGHT: int := 39
  const VK_A: int := 65
  const VK_D: int := 68
  const VK_W: int := 87

  /** The keys that turn the ship right, turn it left, and accelerate it. */
  const RightKeys: set<int> := {VK_RIGHT, VK_D}
  const LeftKeys: set<int> := {VK_LEFT, VK_A}
  const ThrustKeys: set<int> := {VK_UP, VK_W}

  /** One key event delivered to the controller. */
  datatype KeyEvent = Pressed(code: int) | Released(code: int)

  /** The held-key set after `events`, starting from `keys`: a press adds, a release removes. */
  function HeldAfter(keys: set<int>, events: seq<KeyEvent>): set<int>
  {
    if events == [] then keys
    else
      var before := HeldAfter(keys, events[..|events| - 1]);
      match events[|events| - 1]
      case Pressed(c) => before + {c}
      case Released(c) => before - {c}
  }

  /** True if some event in `events` concerns key `k`. */
  predicate Mentions(events: seq<KeyEvent>, k: int)
  {
    exists i :: 0 <= i < |events| && events[i].code == k
  }

  /** The index of the last event in `events` that concerns `k`. */
  function LastFor(events: seq<KeyEvent>, k: int): (i: nat)
    requires Mentions(events, k)
    ensures i < |events| && events[i].code == k
    ensures forall j :: i < j < |events| ==> events[j].code != k
  {
    if events[|events| - 1].code == k then |events| - 1
    else
      assert Mentions(events[..|events| - 1], k) by {
        var i :| 0 <= i < |events| && events[i].code == k;
        assert events[..|events| - 1][i] == events[i];
      }
      LastFor(events[..|events| - 1], k)
  }

  /**
   * Set semantics of the held keys: after any sequence of events, key `k` is
   * held exactly when the last event about it was a press, or, when no event
   * was about it, when it was held at the start. Repeated presses count once.
   */
  lemma {:induction false} HeldAfterLastEvent(keys: set<int>, events: seq<KeyEvent>, k: int)
    ensures !Mentions(events, k) ==> (k in HeldAfter(keys, events) <==> k in keys)
    ensures Mentions(events, k) ==> (k in HeldAfter(keys, events) <==> events[LastFor(events, k)].Pressed?)
  {
    if events != [] {
      var init := events[..|events| - 1];
      var last := events[|events| - 1];
      HeldAfterLastEvent(keys, init, k);
      if last.code != k {
        assert Mentions(events, k) <==> Mentions(init, k) by {
          if Mentions(events, k) {
            var i :| 0 <= i < |events| && events[i].code == k;
            assert init[i] == events[i];
          }
          if Mentions(init, k) {
            var i :| 0 <= i < |init| && init[i].code == k;
            assert events[i] == init[i];
          }
        }
      }
    }
  }

  /** A non-empty key set holds some key. */
  lemma SomeKey(keys: set<int>)
    requires keys != {}
    ensures exists k :: k in keys
  {
    if forall k :: k !in keys {
      assert false;
    }
  }

  /**
   * What the ship has been told so far: turns to the right, turns to the
   * left, accelerations, and whether its thrust flame is on.
   */
  datatype Commands = Commands(right: nat, left: nat, thrusts: nat, accelerating: bool)

  /** The commands after one held key is acted on. */
  function AfterKey(c: Commands, key: int): Commands
  {
    Commands(c.right + (if key in RightKeys then 1 else 0),
             c.left + (if key in LeftKeys then 1 else 0),
             c.thrusts + (if key in ThrustKeys then 1 else 0),
             c.accelerating || key in ThrustKeys)
  }

  /**
   * The commands after every key of `keys` is acted on once: one command per
   * held key bound to it, whatever the order of the keys.
   */
  function AfterKeys(c: Commands, keys: set<int>): Commands
  {
    Commands(c.right + |keys * RightKeys|,
             c.left + |keys * LeftKeys|,
             c.thrusts + |keys * ThrustKeys|,
             c.accelerating || keys * ThrustKeys != {})
  }

  /** Acting on the keys one at a time, in any order, gives AfterKeys. */
  lemma AfterKeysStep(c: Commands, done: set<int>, key: int)
    requires key !in done
    ensures AfterKeys(c, done + {key}) == AfterKey(AfterKeys(c, done), key)
  {
    BoundCountStep(done, key, RightKeys);
    BoundCountStep(done, key, LeftKeys);
    BoundCountStep(done, key, ThrustKeys);
    assert key in ThrustKeys ==> key in (done + {key}) * ThrustKeys;
    assert (done + {key}) * ThrustKeys != {} <==> (done * ThrustKeys != {} || key in ThrustKeys);
  }

  /**
   * The loop form of AfterKeysStep: taking `key` out of the keys still to be
   * acted on adds its commands to those of the keys already acted on.
   */
  lemma AfterKeysNext(c: Commands, keys: set<int>, remaining: set<int>, key: int)
    requires remaining <= keys && key in remaining
    ensures AfterKeys(c, keys - (remaining - {key})) == AfterKey(AfterKeys(c, keys - remaining), key)
  {
    assert keys - (remaining - {key}) == (keys - remaining) + {key};
    AfterKeysStep(c, keys - remaining, key);
  }

  /** Adding one key not yet counted raises a binding's count by one exactly when it is bound. */
  lemma BoundCountStep(done: set<int>, key: int, binding: set<int>)
    requires key !in done
    ensures |(done + {key}) * binding| == |done * binding| + (if key in binding then 1 else 0)
  {
    if key in binding {
      assert (done + {key}) * binding == done * binding + {key};
    } else {
      assert (done + {key}) * binding == done * binding;
    }
  }
}
