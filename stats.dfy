/**
 The pet record of the virtual-pet widget and the clamping helpers its
 transitions share. The four stats are exact reals (the widget keeps them
 as JavaScript doubles); age, level, experience and the timestamp are
 integers.
 */
module Stats {

  datatype Option<+T> = None | Some(value: T)

  /** The single persisted entity: what the widget stores and renders. */
  datatype PetState = PetState(
    name: string,
    hunger: real,      // fullness, 0..100
    happiness: real,   // mood, 0..100
    health: real,      // vitality, 0..100
    energy: real,      // stamina, 0..100
    age: int,          // one per decay tick
    level: int,        // starts at 1
    exp: int,          // progress to the next level, 0..99
    lastUpdate: int)   // milliseconds since the epoch

  /** `Math.max(0, x)`: the floor every decreasing stat is clamped to. */
  function Floor0(x: real): (r: real)
    ensures r >= 0.0 && r >= x
    ensures r == x || r == 0.0
  {
    if x < 0.0 then 0.0 else x
  }

  /** `Math.min(100, x)`: the cap every increasing stat is clamped to. */
  function Cap100(x: real): (r: real)
    ensures r <= 100.0 && r <= x
    ensures r == x || r == 100.0
  {
    if x > 100.0 then 100.0 else x
  }

  /** The name every new pet gets: "pet", written in katakana. */
  const DefaultName: string := "\U{30DA}\U{30C3}\U{30C8}"

  /** The stats a new pet starts with, stamped with the creation time. */
  function Default(now: int): (p: PetState)
    ensures InRange(p) && p.lastUpdate == now && p.name == DefaultName
    ensures p.hunger == 80.0 && p.happiness == 80.0 && p.health == 100.0 && p.energy == 90.0
    ensures p.age == 0 && p.level == 1 && p.exp == 0
  {
    PetState(DefaultName, 80.0, 80.0, 100.0, 90.0, 0, 1, 0, now)
  }

  predicate StatInRange(x: real) {
    0.0 <= x <= 100.0
  }

  /** The bounds the widget's displays assume: every stat a percentage,
      experience below the level-up threshold, level at least 1. */
  predicate InRange(p: PetState) {
    && StatInRange(p.hunger)
    && StatInRange(p.happiness)
    && StatInRange(p.health)
    && StatInRange(p.energy)
    && 0 <= p.exp < 100
    && p.level >= 1
    && p.age >= 0
  }

  /** Clamping twice is clamping once, on either side. */
  lemma ClampIdempotent(x: real)
    ensures Floor0(Floor0(x)) == Floor0(x)
    ensures Cap100(Cap100(x)) == Cap100(x)
  {
  }
}
