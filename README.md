# Virtual pet state engine

This project models the state engine of a single-page "virtual pet" widget.
The pet is one record:

- four stats: hunger, happiness, health and energy, each 0 to 100;
- an age, which goes up by one on every decay tick;
- a level and experience, where experience rolls over into levels at 100;
- the time of the last update.

Three kinds of transition change the record:

- a decay tick, every ten seconds;
- a one-shot catch-up, applied to a saved record when the page is opened again;
- four user actions: feed, play, give a drink and put to sleep.

Two display helpers only read the state: the colour of a stat bar and the
pet's face.

Modules:

- `Stats` (stats.dfy) holds the record, the `Math.max(0, ·)` / `Math.min(100, ·)`
  clamps, the default pet and the bounds predicate `InRange`.
- `Decay` (decay.dfy) holds the tick, the catch-up and the load step.
- `Actions` (actions.dfy) holds the four actions and the experience roll-over,
  including JavaScript's truncating `%`.
- `Display` (display.dfy) holds the colour tier and the face selection.
- `Engine` (engine.dfy) treats a session as a sequence of timestamped events.
  Its lemmas hold for every such sequence.
- `Widget` (widget.dfy) is the component as a class. Its mutable cells are the
  pet, the day/night flag, the animation, the message and the storage slot.
  Its handlers overwrite these cells in the order the component does.

The stats are exact `real`s. Every constant in the rules is a multiple of 0.1.
The current time is always a parameter (`now`, in milliseconds).

Points of the code worth knowing:

- Catch-up keeps the saved `lastUpdate`; it is not reset to the load time.
  The saved record is spread into the new one and the timestamp is never
  overwritten.
- Clamping is one-sided, and no tick or action clamps a field it does not
  move. A tick only floors at 0. Each action only caps or floors the side it
  moves a stat towards. An out-of-range stored value is therefore not pulled
  back into range by a tick or action that moves it the other way. Catch-up
  is the exception: it floors all four stats at 0 even when it does not
  lower them, so a saved health of -5 comes back as 0 after any
  non-negative absence (`Decay.CatchUpFloorsEveryStat`).
- Catch-up tests health against the saved hunger and happiness. The tick tests
  it against the values it has just decayed. So on the stats before the tick,
  the tick's thresholds are effectively 20.5 and 20.3 (`Decay.TickHealthRule`).
- Catch-up does not require the clock to have moved forward. With a negative
  elapsed time it raises the stats, even past 100 (`Decay.CatchUpClockBackwards`).
  The bounds lemmas therefore assume `now >= lastUpdate`.

## Model

| member | source | states |
|---|---|---|
| `Stats.Floor0` | script.js:52-54 | the result is the larger of 0 and the argument: at least both, and equal to one of them |
| `Stats.Cap100` | script.js:76 | the result is the smaller of 100 and the argument: at most both, and equal to one of them |
| `Stats.ClampIdempotent` | script.js:52-54 | clamping a value twice gives the same as clamping it once, for both the floor and the cap |
| `Stats.Default` | script.js:7-17 | a fresh pet has the default name, hunger 80, happiness 80, health 100, energy 90, age 0, level 1 and experience 0, is within bounds, and is stamped with the creation time |
| `Decay.ElapsedMinutes` | script.js:30 | the elapsed minutes are the floor of the elapsed milliseconds over 60000: t minutes fit in the gap and t+1 do not, also for negative gaps |
| `Decay.DecayTick` | script.js:49-62 | a tick changes only the four stats, adds 1 to age and stamps now; the decayed stats are at least 0; health changes only when the decayed hunger or happiness is below 20 |
| `Decay.CatchUp` | script.js:30-38 | catch-up changes only the four stats, which end at least 0; name, age, level, experience and the saved timestamp are kept; health is only floored when the saved hunger and happiness were both 20 or more |
| `Decay.Load` | script.js:24-44 | without a usable saved record the current pet is kept; with one, the pet is the saved record caught up to now, so it keeps its name and saved timestamp |
| `Decay.TickEffect` | script.js:49-56 | a tick floors hunger-0.5, happiness-0.3 and energy-0.4 at 0, adds 1 to age, stamps now, and keeps name, level and experience |
| `Decay.TickHealthRule` | script.js:59-62 | a tick lowers health by 0.5 (floored) exactly when hunger was below 20.5 or happiness below 20.3 before the tick; otherwise health is unchanged |
| `Decay.TickPreservesRange` | script.js:49-62 | a tick keeps every bound and never raises a stat |
| `Decay.CatchUpEffect` | script.js:30-38 | catch-up over t minutes floors hunger-2t, happiness-t and energy-1.5t at 0; health loses t only if the saved hunger or happiness was below 20; name, age, level, experience and the saved timestamp are unchanged |
| `Decay.CatchUpPreservesRange` | script.js:30-38 | when the clock has not gone backwards, catch-up keeps every bound and never raises a stat |
| `Decay.CatchUpWithinAMinute` | script.js:30-38 | less than a minute of absence leaves a record within bounds exactly as it was |
| `Decay.CatchUpFloorsEveryStat` | script.js:35-38 | catch-up floors a negative saved health at 0 after any non-negative absence, whether or not health is being lowered |
| `Decay.CatchUpClockBackwards` | script.js:30-35 | a record saved a minute in the future comes back with hunger raised from 100 to 102 |
| `Decay.CatchUpFiveMinutes` | script.js:30-38 | 80/80/100/90 after five minutes (plus 59999 ms) becomes 70/75/100/82.5, with age, level and experience unchanged |
| `Decay.TickAndCatchUpDisagree` | script.js:38-62 | at hunger 20.2 a tick costs 0.5 health, while a minute of catch-up costs none |
| `Actions.JsRemainder100` | script.js:83 | the remainder is below 100 in magnitude, has the sign of the dividend, and differs from it by a multiple of 100 |
| `Actions.GainExp` | script.js:77-83 | gaining experience changes only the level and the experience |
| `Actions.Feed` | script.js:76-85 | feeding changes only hunger, level, experience and the timestamp; hunger ends at most 100 and is not lowered unless it was above 100 |
| `Actions.Play` | script.js:100-111 | playing changes only happiness, energy, level, experience and the timestamp; happiness ends at most 100 and is not lowered unless it was above 100; energy ends at least 0 and is not raised unless it was negative |
| `Actions.Drink` | script.js:124-128 | a drink changes only health, hunger and the timestamp; both end at most 100 and neither is lowered unless it was above 100 |
| `Actions.Sleep` | script.js:141-151 | with energy 90 or more sleep returns the record unchanged; otherwise it changes only energy, health and the timestamp, energy rises and both end at most 100 |
| `Actions.ExpRollOver` | script.js:77-84 | rolling experience over keeps level*100 + experience equal to the old total plus the gain, leaves experience in [0,100) and never lowers the level |
| `Actions.LevelUpRule` | script.js:77-84 | with experience in range and a gain below 100, the level rises by one exactly when experience reaches 100, and experience keeps the excess |
| `Actions.FeedEffect` | script.js:74-86 | feeding caps hunger+30 at 100, adds 10 experience with roll-over, stamps now, and changes nothing else |
| `Actions.PlayEffect` | script.js:98-112 | playing caps happiness+25 at 100, floors energy-15 at 0, adds 15 experience with roll-over, stamps now, and changes nothing else |
| `Actions.DrinkEffect` | script.js:123-128 | a drink caps health+15 and hunger+10 at 100, stamps now, and changes nothing else |
| `Actions.SleepEffect` | script.js:139-151 | with energy 90 or more sleep changes nothing; otherwise it caps energy+40 and health+10 at 100, stamps now, and changes nothing else |
| `Actions.ActionsPreserveRange` | script.js:74-151 | every action keeps every bound, never lowers the level, and moves each stat only in the direction it promises |
| `Actions.FeedLevelsUp` | script.js:76-85 | hunger 50, experience 95, level 1 fed gives hunger 80, experience 5, level 2 |
| `Actions.PlayCapsHappiness` | script.js:100-111 | happiness 90, energy 20, experience 0 played with gives happiness 100, energy 5, experience 15 |
| `Display.StatusColor` | script.js:166-170 | green exactly above 60, yellow exactly in (30, 60], red exactly at 30 or below |
| `Display.Expression` | script.js:173-184 | each face is characterised in both directions. The running animation decides first, then health, hunger, happiness and energy below 30 in that order, then happiness above 80. Drinking and the default share the smile. |
| `Engine.Step` | script.js:49-151 | one tick or action keeps the name, ages the pet by one exactly when it is a tick, and either stamps the record with its time or leaves it unchanged (a refused sleep) |
| `Engine.Run` | script.js:49-151 | applying events in order keeps the name and ages the pet by the number of ticks among them |
| `Engine.StepPreservesRange` | script.js:49-151 | any single tick or action keeps the bounds, never lowers the level, keeps the name and ages the pet only on a tick |
| `Engine.RunPreservesRange` | script.js:49-151 | over any sequence of ticks and actions, the bounds hold, the level never drops, the name is kept, and the age grows by the number of ticks |
| `Engine.SessionPreservesRange` | script.js:7-151 | a session that starts from a fresh pet, or from a saved in-range record caught up to a time not before it was saved, stays in bounds |
| `Engine.TicksClosedForm` | script.js:49-56 | n ticks in a row take 0.5n, 0.3n and 0.4n from hunger, happiness and energy (each floored once), age the pet by n, and keep level and experience |
| `Widget.VirtualPet.constructor` | script.js:7-21 | the widget starts with the default pet, daytime, idle, no message, and whatever the storage slot holds |
| `Widget.VirtualPet.Load` | script.js:24-44 | opening replaces the pet by the caught-up stored record, if there is one, and writes nothing back |
| `Widget.VirtualPet.Tick` | script.js:48-67 | the tick builds the decayed record, then lowers its health in place; the result equals the tick function, is stored, and keeps the bounds |
| `Widget.VirtualPet.Feed` | script.js:74-90 | the pet becomes the fed pet; the animation is eating and the message is shown; storage and day flag untouched; bounds and level kept |
| `Widget.VirtualPet.Play` | script.js:98-115 | the pet becomes the played-with pet; the animation is playing and the message is shown; storage and day flag untouched; bounds and level kept |
| `Widget.VirtualPet.Drink` | script.js:123-131 | the pet becomes the refreshed pet; the animation is drinking and the message is shown; storage and day flag untouched; bounds kept |
| `Widget.VirtualPet.LetSleep` | script.js:139-155 | the pet sleeps exactly when its energy is below 90. Then the animation is sleeping and night falls. Otherwise only the refusal message changes. |
| `Widget.VirtualPet.ClearEffect` | script.js:91-94 | the delayed clear after feed, play or drink sets the animation back to idle and empties the message; nothing else changes |
| `Widget.VirtualPet.ClearMessage` | script.js:143 | the delayed clear after a refused sleep or a wake-up empties the message only |
| `Widget.VirtualPet.WakeUp` | script.js:157-160 | waking up restores day and the idle animation and shows the woke-up message; pet and storage unchanged |

## Left out

- Rendering: the element tree, the CSS class strings and the mounting call are
  presentation. Colours and faces are enumerations, and messages are a
  `Message` enumeration instead of their display text.
- Browser storage and JSON: the storage slot is a field holding the decoded
  record as an `Option`. `None` stands for both "nothing stored" and "stored
  text that does not parse". The console log on a parse failure is dropped.
  A stored record is assumed to have every field with the right type. Only the
  tick writes the slot, as in the source.
- Timers: the ten-second interval, the delayed clears and the delayed wake-up
  are not scheduled. What each timer does when it fires is a method
  (`ClearEffect`, `ClearMessage`, `WakeUp`) that the host calls. Interval
  cancellation on unmount is not modelled.
- Concurrency of state updates: the sleep handler tests the rendered
  `pet.energy` while its update reads the latest queued state. The model has a
  single current state, so both are the same record.
- Floating point: the stats are exact reals. Rounding from repeated
  subtraction of 0.3, 0.4 and 0.5 in doubles is not modelled.
- Clock: `Date.now()` is the `now` parameter of each operation.
- `Actions.FeedEffect`, `Actions.PlayEffect`: stated for non-negative stored
  experience only. A negative stored experience (possible only from a corrupt
  record) is still modelled by `Feed`/`Play` through the truncating remainder.
  The lemmas do not describe it.
- `Decay.CatchUpWithinAMinute`: stated for records within bounds. For a
  negative stat, even zero minutes of catch-up floors it at 0.
