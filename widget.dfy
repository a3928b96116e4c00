/**
 The widget component itself: the mutable cells it keeps (the pet record,
 the day/night flag, the running animation and the message), the storage
 slot the record is persisted to, and the handlers that overwrite them.
 Timers are not modelled: what a timer does when it fires is a method of
 its own (ClearEffect, ClearMessage, WakeUp) that the host calls.
 */
module Widget {
  import opened Stats
  import opened Display
  import Decay
  import Actions

  /** The messages the widget shows; `Quiet` is the empty message. */
  datatype Message = Quiet | Yummy | Fun | Refreshed | NotSleepy | Sleeping | SleptWell

  class VirtualPet {
    var pet: PetState
    var isDaytime: bool
    var animation: Animation
    var message: Message
    /** The storage slot for the pet, as it decodes: `None` when nothing
        is stored or what is stored does not parse. */
    var storage: Option<PetState>

    /** A new widget: a default pet stamped `now`, daytime, idle, quiet. */
    constructor (now: int, stored: Option<PetState>)
      ensures pet == Default(now) && isDaytime && animation == Idle && message == Quiet
      ensures storage == stored
    {
      pet := Default(now);
      isDaytime := true;
      animation := Idle;
      message := Quiet;
      storage := stored;
    }

    /** The load on opening: a stored record replaces the pet, caught up to
        `now`; nothing is written back. */
    method Load(now: int)
      modifies this
      ensures pet == Decay.Load(old(storage), old(pet), now)
      ensures storage == old(storage) && isDaytime == old(isDaytime)
      ensures animation == old(animation) && message == old(message)
    {
      match storage
      case Some(data) =>
        pet := Decay.CatchUp(data, now);
      case None =>
    }

    /** The decay tick: builds the decayed record, then lowers its health in
        place if the new hunger or happiness is low, stores it and shows it.
        It is the only handler that writes to storage. */
    method Tick(now: int)
      modifies this
      ensures pet == Decay.DecayTick(old(pet), now) && storage == Some(pet)
      ensures isDaytime == old(isDaytime) && animation == old(animation) && message == old(message)
      ensures InRange(old(pet)) ==> InRange(pet)
    {
      if InRange(pet) {
        Decay.TickPreservesRange(pet, now);
      }
      var next := pet.(hunger := Floor0(pet.hunger - 0.5),
                       happiness := Floor0(pet.happiness - 0.3),
                       energy := Floor0(pet.energy - 0.4),
                       age := pet.age + 1,
                       lastUpdate := now);
      if next.hunger < 20.0 || next.happiness < 20.0 {
        next := next.(health := Floor0(next.health - 0.5));
      }
      storage := Some(next);
      pet := next;
    }

    method Feed(now: int)
      modifies this
      ensures pet == Actions.Feed(old(pet), now) && animation == Animation.Eat && message == Yummy
      ensures storage == old(storage) && isDaytime == old(isDaytime)
      ensures InRange(old(pet)) ==> InRange(pet) && pet.level >= old(pet.level)
    {
      if InRange(pet) {
        Actions.ActionsPreserveRange(pet, now);
      }
      pet := Actions.Feed(pet, now);
      animation := Animation.Eat;
      message := Yummy;
    }

    method Play(now: int)
      modifies this
      ensures pet == Actions.Play(old(pet), now) && animation == Animation.Play && message == Fun
      ensures storage == old(storage) && isDaytime == old(isDaytime)
      ensures InRange(old(pet)) ==> InRange(pet) && pet.level >= old(pet.level)
    {
      if InRange(pet) {
        Actions.ActionsPreserveRange(pet, now);
      }
      pet := Actions.Play(pet, now);
      animation := Animation.Play;
      message := Fun;
    }

    method Drink(now: int)
      modifies this
      ensures pet == Actions.Drink(old(pet), now) && animation == Animation.Drink && message == Refreshed
      ensures storage == old(storage) && isDaytime == old(isDaytime)
      ensures InRange(old(pet)) ==> InRange(pet)
    {
      if InRange(pet) {
        Actions.ActionsPreserveRange(pet, now);
      }
      pet := Actions.Drink(pet, now);
      animation := Animation.Drink;
      message := Refreshed;
    }

    /** Sleep: a pet that is not tired only says so; otherwise it rests,
        the animation switches to sleeping and night falls. */
    method LetSleep(now: int) returns (slept: bool)
      modifies this
      ensures slept <==> old(pet.energy) < 90.0
      ensures pet == Actions.Sleep(old(pet), now) && storage == old(storage)
      ensures slept ==> animation == Animation.Sleep && !isDaytime && message == Sleeping
      ensures !slept ==> pet == old(pet) && animation == old(animation)
                         && isDaytime == old(isDaytime) && message == NotSleepy
      ensures InRange(old(pet)) ==> InRange(pet)
    {
      if InRange(pet) {
        Actions.ActionsPreserveRange(pet, now);
      }
      if pet.energy >= 90.0 {
        message := NotSleepy;
        return false;
      }
      pet := Actions.Sleep(pet, now);
      animation := Animation.Sleep;
      isDaytime := false;
      message := Sleeping;
      slept := true;
    }

    /** What the timer after feeding, playing or drinking does. */
    method ClearEffect()
      modifies this
      ensures animation == Idle && message == Quiet
      ensures pet == old(pet) && storage == old(storage) && isDaytime == old(isDaytime)
    {
      animation := Idle;
      message := Quiet;
    }

    /** What the timer after a refused sleep, or after waking, does. */
    method ClearMessage()
      modifies this
      ensures message == Quiet
      ensures pet == old(pet) && storage == old(storage)
      ensures isDaytime == old(isDaytime) && animation == old(animation)
    {
      message := Quiet;
    }

    /** What the timer at the end of a sleep does: day again, idle, and a
        message that the pet slept well. */
    method WakeUp()
      modifies this
      ensures animation == Idle && isDaytime && message == SleptWell
      ensures pet == old(pet) && storage == old(storage)
    {
      animation := Idle;
      isDaytime := true;
      message := SleptWell;
    }
  }

  /** A fresh pet is too rested to sleep; after playing it sleeps, night
      falls, and waking brings the day back with energy and health full. */
  method SleepScenario(now: int)
  {
    var w := new VirtualPet(now, None);
    var slept := w.LetSleep(now);
    assert !slept && w.isDaytime && w.message == NotSleepy && w.pet == Default(now);
    w.ClearMessage();
    w.Play(now + 1);
    assert w.pet.energy == 75.0 && w.pet.happiness == 100.0 && w.pet.exp == 15;
    w.ClearEffect();
    slept := w.LetSleep(now + 2);
    assert slept && !w.isDaytime && w.animation == Animation.Sleep;
    assert w.pet.energy == 100.0 && w.pet.health == 100.0;
    w.WakeUp();
    assert w.isDaytime && w.animation == Idle && w.storage == None;
  }
}
