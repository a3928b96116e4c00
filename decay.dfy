/**
 Time-driven decay: the periodic tick the widget runs every ten seconds,
 and the one-shot catch-up it applies to a saved record when the page is
 opened again. The two use different rates and different health rules on
 purpose; the lemmas below state each rule and the bounds they keep.
 */
module Decay {
  import opened Stats

  const MinuteMillis := 60000

  /** The periodic decay tick, stamped with the time it ran. Hunger,
      happiness and energy drop and are floored at 0; age grows by one; health
      drops only if the hunger or happiness just computed is below 20. */
  function DecayTick(p: PetState, now: int): (r: PetState)
    ensures r == p.(hunger := r.hunger, happiness := r.happiness, energy := r.energy,
                    health := r.health, age := p.age + 1, lastUpdate := now)
    ensures r.hunger >= 0.0 && r.happiness >= 0.0 && r.energy >= 0.0
    ensures r.health != p.health ==> r.hunger < 20.0 || r.happiness < 20.0
  {
    var next := p.(hunger := Floor0(p.hunger - 0.5),
                   happiness := Floor0(p.happiness - 0.3),
                   energy := Floor0(p.energy - 0.4),
                   age := p.age + 1,
                   lastUpdate := now);
    if next.hunger < 20.0 || next.happiness < 20.0 then
      next.(health := Floor0(next.health - 0.5))
    else
      next
  }

  /** Whole minutes elapsed between two millisecond timestamps, rounded
      towards minus infinity as `Math.floor` does (also when negative). */
  function ElapsedMinutes(since: int, now: int): (t: int)
    ensures t * MinuteMillis <= now - since < (t + 1) * MinuteMillis
  {
    (now - since) / MinuteMillis
  }

  /** The catch-up applied to a saved record: per elapsed minute hunger
      drops by 2, happiness by 1 and energy by 1.5, each floored at 0; health
      drops by one per minute only if the SAVED hunger or happiness was below
      20. Everything else, the saved `lastUpdate` included, is kept. */
  function CatchUp(saved: PetState, now: int): (r: PetState)
    ensures r == saved.(hunger := r.hunger, happiness := r.happiness, energy := r.energy,
                        health := r.health)
    ensures r.hunger >= 0.0 && r.happiness >= 0.0 && r.energy >= 0.0 && r.health >= 0.0
    ensures saved.hunger >= 20.0 && saved.happiness >= 20.0 ==> r.health == Floor0(saved.health)
  {
    var t := ElapsedMinutes(saved.lastUpdate, now) as real;
    saved.(hunger := Floor0(saved.hunger - t * 2.0),
           happiness := Floor0(saved.happiness - t),
           energy := Floor0(saved.energy - t * 1.5),
           health := Floor0(saved.health - (if saved.hunger < 20.0 || saved.happiness < 20.0 then t else 0.0)))
  }

  /** The state after the page opens: the saved record caught up, or the
      current (fresh) state when nothing usable was saved. */
  function Load(saved: Option<PetState>, current: PetState, now: int): (r: PetState)
    ensures saved.None? ==> r == current
    ensures saved.Some? ==> r == CatchUp(saved.value, now)
    ensures saved.Some? ==> r.name == saved.value.name && r.lastUpdate == saved.value.lastUpdate
  {
    match saved
    case None => current
    case Some(data) => CatchUp(data, now)
  }

  // ---------------------------------------------------------------- tick

  /** What a tick does to the fields other than health. */
  lemma TickEffect(p: PetState, now: int)
    ensures var r := DecayTick(p, now);
      && r.hunger == Floor0(p.hunger - 0.5)
      && r.happiness == Floor0(p.happiness - 0.3)
      && r.energy == Floor0(p.energy - 0.4)
      && r.age == p.age + 1
      && r.lastUpdate == now
      && r.name == p.name && r.level == p.level && r.exp == p.exp
  {
  }

  /** The tick's health rule stated on the state BEFORE the tick: because
      the test reads the decayed values, health suffers as soon as hunger is
      below 20.5 or happiness below 20.3, and then it loses 0.5 (floored). */
  lemma TickHealthRule(p: PetState, now: int)
    ensures var r := DecayTick(p, now);
      && (p.hunger < 20.5 || p.happiness < 20.3 ==> r.health == Floor0(p.health - 0.5))
      && (p.hunger >= 20.5 && p.happiness >= 20.3 ==> r.health == p.health)
  {
  }

  /** A tick keeps every bound, never raises a stat and keeps level and
      experience. */
  lemma TickPreservesRange(p: PetState, now: int)
    requires InRange(p)
    ensures var r := DecayTick(p, now);
      && InRange(r)
      && r.hunger <= p.hunger && r.happiness <= p.happiness
      && r.health <= p.health && r.energy <= p.energy
  {
  }

  // ------------------------------------------------------------ catch-up

  /** Catch-up over `t` whole minutes, with the health rule read on the
      saved values (a health that is not lowered is still floored at 0);
      name, age, level, experience and the saved timestamp are copied
      unchanged. */
  lemma CatchUpEffect(saved: PetState, now: int, t: int)
    requires t == ElapsedMinutes(saved.lastUpdate, now)
    ensures var r := CatchUp(saved, now);
      && r.hunger == Floor0(saved.hunger - 2.0 * (t as real))
      && r.happiness == Floor0(saved.happiness - (t as real))
      && r.energy == Floor0(saved.energy - 1.5 * (t as real))
      && (saved.hunger < 20.0 || saved.happiness < 20.0 ==> r.health == Floor0(saved.health - (t as real)))
      && (saved.hunger >= 20.0 && saved.happiness >= 20.0 ==> r.health == Floor0(saved.health))
      && r.name == saved.name && r.age == saved.age && r.level == saved.level
      && r.exp == saved.exp && r.lastUpdate == saved.lastUpdate
  {
  }

  /** When the clock has not gone backwards, catch-up keeps every bound and
      never raises a stat. */
  lemma CatchUpPreservesRange(saved: PetState, now: int)
    requires InRange(saved) && now >= saved.lastUpdate
    ensures var r := CatchUp(saved, now);
      && InRange(r)
      && r.hunger <= saved.hunger && r.happiness <= saved.happiness
      && r.health <= saved.health && r.energy <= saved.energy
  {
    var t := ElapsedMinutes(saved.lastUpdate, now);
    assert t >= 0;
  }

  /** Under a minute of absence changes nothing at all in a record within
      bounds. */
  lemma CatchUpWithinAMinute(saved: PetState, now: int)
    requires InRange(saved)
    requires saved.lastUpdate <= now < saved.lastUpdate + MinuteMillis
    ensures CatchUp(saved, now) == saved
  {
    assert ElapsedMinutes(saved.lastUpdate, now) == 0;
  }

  /** Catch-up floors every stat, including those it does not lower: a
      negative saved health comes back as 0, with or without neglect. */
  lemma CatchUpFloorsEveryStat(saved: PetState, now: int)
    requires saved.health < 0.0 && now >= saved.lastUpdate
    ensures CatchUp(saved, now).health == 0.0
  {
    assert ElapsedMinutes(saved.lastUpdate, now) >= 0;
  }

  /** If the clock has gone back a minute or more, catch-up RAISES the
      stats, even past 100: a full pet saved a minute in the future comes
      back with hunger 102. */
  lemma CatchUpClockBackwards(saved: PetState)
    requires saved.hunger == 100.0
    ensures CatchUp(saved, saved.lastUpdate - MinuteMillis).hunger == 102.0
  {
    assert ElapsedMinutes(saved.lastUpdate, saved.lastUpdate - MinuteMillis) == -1;
  }

  /** Five minutes away from a pet at 80/80/100/90 gives 70/75/100/82.5. */
  lemma CatchUpFiveMinutes(saved: PetState, now: int)
    requires saved.hunger == 80.0 && saved.happiness == 80.0
    requires saved.health == 100.0 && saved.energy == 90.0
    requires now == saved.lastUpdate + 5 * MinuteMillis + 59999
    ensures var r := CatchUp(saved, now);
      && r.hunger == 70.0 && r.happiness == 75.0 && r.health == 100.0 && r.energy == 82.5
      && r.age == saved.age && r.level == saved.level && r.exp == saved.exp
  {
    assert ElapsedMinutes(saved.lastUpdate, now) == 5;
  }

  /** The two decay rules really differ: a pet at hunger 20.2 loses health
      on the next tick, but not during a minute of catch-up. */
  lemma TickAndCatchUpDisagree(p: PetState, now: int)
    requires p.hunger == 20.2 && p.happiness == 50.0 && p.health == 50.0
    requires now == p.lastUpdate + MinuteMillis
    ensures DecayTick(p, now).health == 49.5
    ensures CatchUp(p, now).health == 50.0
  {
  }
}
