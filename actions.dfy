/**
 The four user actions of the virtual-pet widget as transitions of the pet
 record: feed, play, give a drink and put to sleep. Each raises the stats it
 helps (capped at 100), lowers the ones it costs (floored at 0) and stamps
 the record with the time of the action; feed and play also earn experience,
 which rolls over into levels at 100.
 */
module Actions {
  import opened Stats

  /** JavaScript's `a % 100`: the remainder of a division truncated towards
      zero, so it takes the sign of the dividend (Dafny's `%` never does). */
  function JsRemainder100(a: int): (r: int)
    ensures -100 < r < 100
    ensures a >= 0 ==> r >= 0
    ensures a <= 0 ==> r <= 0
    ensures (a - r) % 100 == 0
  {
    if a >= 0 then a % 100 else -((-a) % 100)
  }

  /** Experience earned by an action: the new total is split into whole
      levels (`Math.floor(total / 100)`, which is `/` for a positive divisor)
      and the remainder kept as experience (`total % 100`). */
  function GainExp(p: PetState, gained: int): (r: PetState)
    ensures r == p.(level := r.level, exp := r.exp)
  {
    var total := p.exp + gained;
    p.(level := p.level + total / 100, exp := JsRemainder100(total))
  }

  function Feed(p: PetState, now: int): (r: PetState)
    ensures r == p.(hunger := r.hunger, level := r.level, exp := r.exp, lastUpdate := now)
    ensures r.hunger <= 100.0 && (r.hunger >= p.hunger || r.hunger == 100.0)
  {
    GainExp(p, 10).(hunger := Cap100(p.hunger + 30.0), lastUpdate := now)
  }

  function Play(p: PetState, now: int): (r: PetState)
    ensures r == p.(happiness := r.happiness, energy := r.energy, level := r.level,
                    exp := r.exp, lastUpdate := now)
    ensures r.happiness <= 100.0 && (r.happiness >= p.happiness || r.happiness == 100.0)
    ensures r.energy >= 0.0 && (r.energy <= p.energy || r.energy == 0.0)
  {
    GainExp(p, 15).(happiness := Cap100(p.happiness + 25.0),
                    energy := Floor0(p.energy - 15.0),
                    lastUpdate := now)
  }

  function Drink(p: PetState, now: int): (r: PetState)
    ensures r == p.(health := r.health, hunger := r.hunger, lastUpdate := now)
    ensures r.health <= 100.0 && (r.health >= p.health || r.health == 100.0)
    ensures r.hunger <= 100.0 && (r.hunger >= p.hunger || r.hunger == 100.0)
  {
    p.(health := Cap100(p.health + 15.0), hunger := Cap100(p.hunger + 10.0), lastUpdate := now)
  }

  /** A pet whose energy is 90 or more refuses to sleep. */
  predicate WontSleep(p: PetState) {
    p.energy >= 90.0
  }

  /** Sleep: refused (the record untouched) when the pet is not tired,
      otherwise energy +40 and health +10, both capped at 100. */
  function Sleep(p: PetState, now: int): (r: PetState)
    ensures WontSleep(p) ==> r == p
    ensures !WontSleep(p) ==> r == p.(energy := r.energy, health := r.health, lastUpdate := now)
    ensures !WontSleep(p) ==> r.energy <= 100.0 && r.energy >= p.energy && r.health <= 100.0
  {
    if WontSleep(p) then p
    else p.(energy := Cap100(p.energy + 40.0), health := Cap100(p.health + 10.0), lastUpdate := now)
  }

  // ------------------------------------------------------------ experience

  /** Rolling experience over loses nothing and double-counts nothing: level
      and experience together still hold the old total plus the gain, with
      the experience left below 100. */
  lemma ExpRollOver(p: PetState, gained: int)
    requires p.exp + gained >= 0
    ensures var r := GainExp(p, gained);
      && r.level * 100 + r.exp == p.level * 100 + p.exp + gained
      && 0 <= r.exp < 100
      && r.level >= p.level
      && r == p.(level := r.level, exp := r.exp)
  {
    var total := p.exp + gained;
    assert JsRemainder100(total) == total % 100;
    assert total == (total / 100) * 100 + total % 100;
  }

  /** With experience in range, a gain below 100 adds a level exactly when
      it carries the experience to 100 or past it. */
  lemma LevelUpRule(p: PetState, gained: int)
    requires 0 <= p.exp < 100 && 0 <= gained < 100
    ensures var r := GainExp(p, gained);
      && (p.exp + gained >= 100 ==> r.level == p.level + 1 && r.exp == p.exp + gained - 100)
      && (p.exp + gained < 100 ==> r.level == p.level && r.exp == p.exp + gained)
  {
    ExpRollOver(p, gained);
  }

  // --------------------------------------------------------------- actions

  /** Feeding: hunger +30 capped at 100, 10 experience rolled into levels,
      nothing else but the timestamp changes. */
  lemma FeedEffect(p: PetState, now: int)
    requires p.exp >= 0
    ensures var r := Feed(p, now);
      && r.hunger == Cap100(p.hunger + 30.0)
      && r.level * 100 + r.exp == p.level * 100 + p.exp + 10 && 0 <= r.exp < 100
      && r.lastUpdate == now
      && r == p.(hunger := r.hunger, level := r.level, exp := r.exp, lastUpdate := now)
  {
    ExpRollOver(p, 10);
  }

  /** Playing: happiness +25 capped at 100, energy -15 floored at 0, 15
      experience rolled into levels, nothing else but the timestamp changes. */
  lemma PlayEffect(p: PetState, now: int)
    requires p.exp >= 0
    ensures var r := Play(p, now);
      && r.happiness == Cap100(p.happiness + 25.0)
      && r.energy == Floor0(p.energy - 15.0)
      && r.level * 100 + r.exp == p.level * 100 + p.exp + 15 && 0 <= r.exp < 100
      && r.lastUpdate == now
      && r == p.(happiness := r.happiness, energy := r.energy, level := r.level,
                 exp := r.exp, lastUpdate := now)
  {
    ExpRollOver(p, 15);
  }

  /** A drink: health +15 and hunger +10, each capped at 100; nothing else
      but the timestamp changes. */
  lemma DrinkEffect(p: PetState, now: int)
    ensures var r := Drink(p, now);
      && r.health == Cap100(p.health + 15.0)
      && r.hunger == Cap100(p.hunger + 10.0)
      && r == p.(health := r.health, hunger := r.hunger, lastUpdate := now)
  {
  }

  /** Sleep either changes nothing (energy 90 or more) or restores energy
      by 40 and health by 10, capped, touching nothing else. */
  lemma SleepEffect(p: PetState, now: int)
    ensures var r := Sleep(p, now);
      && (p.energy >= 90.0 ==> r == p)
      && (p.energy < 90.0 ==>
            && r.energy == Cap100(p.energy + 40.0)
            && r.health == Cap100(p.health + 10.0)
            && r == p.(energy := r.energy, health := r.health, lastUpdate := now))
  {
  }

  /** Every action keeps the record within bounds, never lowers the level,
      and moves each stat only in the direction the action promises. */
  lemma ActionsPreserveRange(p: PetState, now: int)
    requires InRange(p)
    ensures InRange(Feed(p, now)) && Feed(p, now).level >= p.level
    ensures InRange(Play(p, now)) && Play(p, now).level >= p.level
    ensures InRange(Drink(p, now)) && InRange(Sleep(p, now))
    ensures Feed(p, now).hunger >= p.hunger && Drink(p, now).hunger >= p.hunger
    ensures Drink(p, now).health >= p.health && Sleep(p, now).health >= p.health
    ensures Play(p, now).happiness >= p.happiness && Play(p, now).energy <= p.energy
    ensures Sleep(p, now).energy >= p.energy
  {
    ExpRollOver(p, 10);
    ExpRollOver(p, 15);
  }

  /** Feeding a half-hungry pet at 95 experience: hunger 80, a new level,
      5 experience left over. */
  lemma FeedLevelsUp(p: PetState, now: int)
    requires p.hunger == 50.0 && p.exp == 95 && p.level == 1
    ensures var r := Feed(p, now); r.hunger == 80.0 && r.exp == 5 && r.level == 2
  {
  }

  /** Playing with a happy but tired pet: happiness stops at 100, energy
      drops to 5, experience 15. */
  lemma PlayCapsHappiness(p: PetState, now: int)
    requires p.happiness == 90.0 && p.energy == 20.0 && p.exp == 0 && p.level == 1
    ensures var r := Play(p, now);
      r.happiness == 100.0 && r.energy == 5.0 && r.exp == 15 && r.level == 1
  {
  }
}
