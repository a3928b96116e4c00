/**
 A session of the widget as a sequence of events: decay ticks and the four
 user actions, each stamped with the time it happens. The lemmas here are
 about whole sessions: the bounds every observation of the record respects,
 the level never going down, and the closed form of repeated ticks.
 */
module Engine {
  import opened Stats
  import Decay
  import Actions

  datatype Event = Tick(at: int) | Feed(at: int) | Play(at: int) | Drink(at: int) | Sleep(at: int)

  /** One event: it keeps the name, ages the pet only if it is a tick, and
      either stamps the record with its time or, as a refused sleep does,
      changes nothing. */
  function Step(p: PetState, e: Event): (r: PetState)
    ensures r.name == p.name && r.age == p.age + (if e.Tick? then 1 else 0)
    ensures r.lastUpdate == e.at || r == p
  {
    match e
    case Tick(now) => Decay.DecayTick(p, now)
    case Feed(now) => Actions.Feed(p, now)
    case Play(now) => Actions.Play(p, now)
    case Drink(now) => Actions.Drink(p, now)
    case Sleep(now) => Actions.Sleep(p, now)
  }

  /** The record after the events, applied in order. */
  function Run(p: PetState, events: seq<Event>): (r: PetState)
    ensures r.name == p.name && r.age == p.age + TickCount(events)
    decreases |events|
  {
    if events == [] then p else Run(Step(p, events[0]), events[1..])
  }

  /** The number of decay ticks among the events. */
  function TickCount(events: seq<Event>): (n: nat)
    ensures n <= |events|
    ensures AllTicks(events) ==> n == |events|
  {
    if events == [] then 0
    else (if events[0].Tick? then 1 else 0) + TickCount(events[1..])
  }

  predicate AllTicks(events: seq<Event>) {
    forall i :: 0 <= i < |events| ==> events[i].Tick?
  }

  /** One event keeps the bounds, never lowers the level and only a tick
      ages the pet. */
  lemma StepPreservesRange(p: PetState, e: Event)
    requires InRange(p)
    ensures var r := Step(p, e);
      && InRange(r) && r.level >= p.level && r.name == p.name
      && r.age == p.age + (if e.Tick? then 1 else 0)
  {
    match e
    case Tick(now) => Decay.TickPreservesRange(p, now);
    case Feed(now) => Actions.ActionsPreserveRange(p, now);
    case Play(now) => Actions.ActionsPreserveRange(p, now);
    case Drink(now) => Actions.ActionsPreserveRange(p, now);
    case Sleep(now) => Actions.ActionsPreserveRange(p, now);
  }

  /** Over any session, every stat stays in [0, 100], experience in
      [0, 100), the level never drops, the name never changes and the age
      counts the ticks. */
  lemma {:induction false} RunPreservesRange(p: PetState, events: seq<Event>)
    requires InRange(p)
    ensures var r := Run(p, events);
      && InRange(r) && r.level >= p.level && r.name == p.name
      && r.age == p.age + TickCount(events)
    decreases |events|
  {
    if events != [] {
      StepPreservesRange(p, events[0]);
      RunPreservesRange(Step(p, events[0]), events[1..]);
    }
  }

  /** A session that starts from whatever the page loaded (a fresh pet, or
      a saved record in bounds caught up to a time not before it was saved)
      stays in bounds. */
  lemma SessionPreservesRange(saved: Option<PetState>, now: int, events: seq<Event>)
    requires saved.Some? ==> InRange(saved.value) && now >= saved.value.lastUpdate
    ensures InRange(Run(Decay.Load(saved, Default(now), now), events))
  {
    if saved.Some? {
      Decay.CatchUpPreservesRange(saved.value, now);
    }
    RunPreservesRange(Decay.Load(saved, Default(now), now), events);
  }

  /** n ticks in a row take 0.5n from hunger, 0.3n from happiness and 0.4n
      from energy (each floored at 0 once, not per tick), age the pet by n
      and leave level and experience alone. */
  lemma {:induction false} TicksClosedForm(p: PetState, events: seq<Event>)
    requires AllTicks(events)
    requires p.hunger >= 0.0 && p.happiness >= 0.0 && p.energy >= 0.0
    ensures var r := Run(p, events); var n := |events| as real;
      && r.hunger == Floor0(p.hunger - 0.5 * n)
      && r.happiness == Floor0(p.happiness - 0.3 * n)
      && r.energy == Floor0(p.energy - 0.4 * n)
      && r.age == p.age + |events|
      && r.level == p.level && r.exp == p.exp && r.name == p.name
    decreases |events|
  {
    if events != [] {
      var q := Step(p, events[0]);
      Decay.TickEffect(p, events[0].at);
      assert AllTicks(events[1..]) by {
        forall i | 0 <= i < |events[1..]| ensures events[1..][i].Tick? {
          assert events[1..][i] == events[i + 1];
        }
      }
      TicksClosedForm(q, events[1..]);
    }
  }
}
