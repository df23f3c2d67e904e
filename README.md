# Orange Pi GPIO cover: a Dafny model

This project models the cover entity `OPiGPIOCover` of the Home Assistant
integration `opi_gpio`. The entity drives a motorised cover (a blind, a
shutter or a garage door) through three relay pins: close, stop and open.
It keeps a discrete state (`closed`, `opening`, `open`, `closing`) and the
time of its last relay pulse. From that time it estimates a position.

- `close_cover` acts only on a cover that is not closed. It sets the state to
  closing, pulses the close relay, waits the closing time and sets the state
  to closed.
- `open_cover` acts only on a closed cover. It pulses the open relay, or the
  stop relay with a longer pulse in intermediate mode, and ends open.
- `stop_cover` pulses the stop relay in every state and leaves the state alone.
- A pulse (`_trigger`) writes the active level to a pin, holds it, then
  writes the complementary level. `invert_relay` swaps which level is active.
- Construction sets the state to closed and writes the idle level to all three
  pins, in the order close, stop, open.
- `current_cover_position` turns the whole seconds since the last pulse into
  a percentage of the closing time.

The project has four modules:

- `states.dfy`, module `CoverStates`: the state the entity keeps in `_state`.
  That is a Home Assistant state string. The four names the entity assigns
  itself become the constructors `Closed`, `Opening`, `Open` and `Closing`. Any
  other string, which only a restored state can bring in, becomes `Other(name)`.
  `Name` and `StateOf` convert between strings and states.
- `effects.dfy`, module `Effects`: the entity's observable effects as an event log.
  The log records `setup_output`, `write_output`, `sleep` and every assignment to
  `_state`. `Writes` projects the pin writes out of it. `Replay` gives the level
  each pin holds afterwards.
- `position.dfy`, module `Position`: the position estimate as a pure function
  of the state, the elapsed seconds and the closing time.
- `cover.dfy`, module `Cover`: the configuration and a `Snapshot` of everything
  the commands read or change. One function per command (`AfterClose`,
  `AfterOpen`, `AfterStop`, `AfterRestore`, `Initial`) gives the snapshot after
  it. Lemmas state what each command does and which invariant it keeps. The
  class `OPiGPIOCover` holds the same state in fields (`state`, `levels`,
  `trace`, `startTime`). Its methods perform the source's steps in order, and
  each is proved to produce exactly the snapshot its function gives.

The invariant `Consistent` says three things. The pin levels are what the
logged writes leave behind. All three relays are at their idle level. The
state is well formed. Every command keeps it. Every command also leaves every
pin level as it found it, because each pulse ends by releasing its relay to
idle.

Clock readings are parameters `now`, in microseconds. The elapsed time is the
`seconds` field of a Python time difference. Python normalises a time
difference into days, seconds in [0, 86400) and microseconds, and the entity
reads only the seconds part, so the model does the same: whole days are
dropped. `sleep` is recorded in the log and does not advance any clock.

The code schedules nothing after a pulse: there is no timer, and
`set_cover_position` moves nothing. `stop_cover` pulses the stop relay but
never changes the state. `current_cover_position` divides by the closing time
in every state, opening included, and does not clamp its result. A closing
time of 0 makes that division raise `ZeroDivisionError`; `Cover.CoverPosition`
returns `None` in exactly that case. `Position.EstimateOverrun`,
`Position.EstimateExamples`, `Cover.PositionDuringPulse` and
`Cover.PositionAfterCommand` state the consequences. A cover just built reports
100 although it is closed. Once `close_cover` has returned, at least the relay
time plus the closing time after its pulse began, the cover reports at most 0;
with a 5 second closing time it reports −20 six seconds after the pulse.

## Model

| member | source | states |
|---|---|---|
| `CoverStates.StateOf` | custom_components/opi_gpio/cover.py:142 | a restored string denotes a well-formed state; it is `Other` exactly when it is none of the four names the entity assigns |
| `CoverStates.NameOfStateOf` | custom_components/opi_gpio/cover.py:142 | the state stored from a restored string gives back that same string |
| `CoverStates.StateOfName` | custom_components/opi_gpio/cover.py:114 | every well-formed state survives the round trip through its string |
| `CoverStates.IsClosed` | custom_components/opi_gpio/cover.py:145-147 | for a well-formed state, `is_closed` holds exactly when the state's string is "closed" |
| `CoverStates.IsClosedName` | custom_components/opi_gpio/cover.py:145-147 | `is_closed` holds exactly when `_state` is the string "closed" |
| `Effects.IdleLevel` | custom_components/opi_gpio/cover.py:129-131 | the level the pins are written at construction is high exactly when the relays are inverted |
| `Effects.ActiveLevel` | custom_components/opi_gpio/cover.py:160-175 | the level every command pulses with is low exactly when the relays are inverted, and it differs from the idle level |
| `Effects.Complement` | custom_components/opi_gpio/cover.py:153 | the release level differs from the pulse level; the two add up to 1 |
| `Effects.ReleaseIsIdle` | custom_components/opi_gpio/cover.py:129-131 | the active level of the commands and the boot-time idle level of the pins are complements of each other and differ |
| `Effects.ReplayMeansLastWrite` | custom_components/opi_gpio/cover.py:151-153 | a pin has a level exactly when something wrote to it, and that level is the one its last write set |
| `Position.ElapsedSeconds` | custom_components/opi_gpio/cover.py:179-180 | the elapsed seconds lie in [0, 86400) and, for differences under a day, are the whole seconds elapsed |
| `Position.Estimate` | custom_components/opi_gpio/cover.py:177-181 | opening, the result is the floor of seconds·100/closing time; in every other state, 100 minus that floor |
| `Position.RateIsFloor` | custom_components/opi_gpio/cover.py:180 | the rate is the largest whole percentage of the closing time that has elapsed |
| `Position.EstimateInRange` | custom_components/opi_gpio/cover.py:180-181 | within one closing time the estimate lies in [0, 100] in every state |
| `Position.EstimateMonotone` | custom_components/opi_gpio/cover.py:180-181 | opening, the estimate never falls as time passes; in every other state it never rises |
| `Position.EstimateComplementary` | custom_components/opi_gpio/cover.py:181 | the estimate while opening and in any other state add up to 100 |
| `Position.EstimateEndPoints` | custom_components/opi_gpio/cover.py:180-181 | at 0 seconds: 0 opening and 100 otherwise; at the closing time: 100 opening and 0 otherwise |
| `Position.EstimateOverrun` | custom_components/opi_gpio/cover.py:180-181 | the estimate is not clamped: past the closing time it is at least 100 opening and at most 0 otherwise |
| `Position.EstimateExamples` | custom_components/opi_gpio/cover.py:180-181 | with a 5 second closing time: −20 closed after 6 s, 100 closed at 0 s, 40 opening and 60 closing after 2 s |
| `Cover.CoverPosition` | custom_components/opi_gpio/cover.py:177-181 | there is no position (the source raises `ZeroDivisionError`) exactly when the closing time is 0; otherwise, within one closing time since the last pulse the position is in [0, 100], it is never negative while opening and never above 100 otherwise |
| `Cover.Pulsed` | custom_components/opi_gpio/cover.py:149-154 | `_trigger` records the clock reading, keeps the state, leaves the pin at the complement of the pulse level, and appends four effects to the log |
| `Cover.Initial` | custom_components/opi_gpio/cover.py:114-131 | a new entity is closed, has its start time at construction, and has all three pins at the idle level |
| `Cover.AfterClose` | custom_components/opi_gpio/cover.py:156-161 | closing always ends Closed; a closed cover is left as it was; any other gets a new start time and only the close pin rewritten, to idle |
| `Cover.AfterOpen` | custom_components/opi_gpio/cover.py:163-171 | a cover that is not closed is left as it was; a closed one ends Open with a new start time and only the pulsed pin rewritten, to idle |
| `Cover.AfterStop` | custom_components/opi_gpio/cover.py:173-175 | stopping keeps the state, records a new start time, and rewrites only the stop pin, to idle |
| `Cover.AfterRestore` | custom_components/opi_gpio/cover.py:137-142 | with no last state nothing changes; with one, the state's string is that last state; pin levels and start time never change |
| `Cover.PulsedEffect` | custom_components/opi_gpio/cover.py:149-154 | `_trigger` makes exactly two writes, both to the given pin, the second the complement of the first, with the two sleeps between and after; it records the clock reading and leaves the state alone |
| `Cover.InitialEffect` | custom_components/opi_gpio/cover.py:114-131 | after construction the state is Closed; the pins are set up, then close, stop and open are each written once, in that order, with `1 if invert_relay else 0`, the level each pin then holds |
| `Cover.InitialConsistent` | custom_components/opi_gpio/cover.py:129-131 | a new entity satisfies the invariant: all three relays rest at the idle level and the levels are those the writes left |
| `Cover.CloseEffect` | custom_components/opi_gpio/cover.py:156-161 | a closed cover is untouched; any other passes through Closing, gets the close pin pulsed active then idle, and ends Closed with only that pin written |
| `Cover.OpenEffect` | custom_components/opi_gpio/cover.py:163-171 | a cover that is not closed is untouched; a closed one passes through Opening, gets exactly one pin pulsed (the stop pin held 5 s in intermediate mode, else the open pin held 1 s), and ends Open |
| `Cover.StopEffect` | custom_components/opi_gpio/cover.py:173-175 | the stop pin is pulsed active then idle in every state, and the state never changes |
| `Cover.RestoreEffect` | custom_components/opi_gpio/cover.py:137-142 | with no last state nothing changes; with one, `_state` becomes the state that string names, and no pin and no clock reading changes |
| `Cover.CloseKeepsConsistent` | custom_components/opi_gpio/cover.py:158-161 | closing keeps the invariant and ends with every pin level as before, the close relay released |
| `Cover.OpenKeepsConsistent` | custom_components/opi_gpio/cover.py:165-171 | opening keeps the invariant and ends with every pin level as before, the pulsed relay released |
| `Cover.StopKeepsConsistent` | custom_components/opi_gpio/cover.py:173-175 | stopping keeps the invariant and ends with every pin level as before, the stop relay released |
| `Cover.RestoreKeepsConsistent` | custom_components/opi_gpio/cover.py:141-142 | restoring keeps the invariant and every pin level |
| `Cover.CommandsIdempotent` | custom_components/opi_gpio/cover.py:156-171 | closing twice has the effect of closing once, and opening twice that of opening once |
| `Cover.OpenThenClose` | custom_components/opi_gpio/cover.py:156-171 | opening a closed cover and then closing it ends Closed with every pin level where it was |
| `Cover.PositionDuringPulse` | custom_components/opi_gpio/cover.py:124-181 | a cover just built reports 100 while closed; at the instant of the opening pulse it reports 0, and at that of the closing pulse 100 |
| `Cover.PositionAfterCommand` | custom_components/opi_gpio/cover.py:156-181 | read after `close_cover` returns and within a day, a cover reports at most 0; read after `open_cover` returns, at most 100 minus the rate of the pulse and opening time |
| `Cover.PositionIgnoresOpenDuration` | custom_components/opi_gpio/cover.py:177-181 | the position does not depend on the opening time, in any state |
| `Cover.OPiGPIOCover.constructor` | custom_components/opi_gpio/cover.py:97-131 | the new entity's fields are exactly `Initial(config, now)`, and its invariant holds |
| `Cover.OPiGPIOCover.Trigger` | custom_components/opi_gpio/cover.py:149-154 | the fields after a pulse are exactly `Pulsed` of the fields before |
| `Cover.OPiGPIOCover.CloseCover` | custom_components/opi_gpio/cover.py:156-161 | the fields after are `AfterClose` of the fields before; the invariant holds and no pin level changes |
| `Cover.OPiGPIOCover.OpenCover` | custom_components/opi_gpio/cover.py:163-171 | the fields after are `AfterOpen` of the fields before; the invariant holds and no pin level changes |
| `Cover.OPiGPIOCover.StopCover` | custom_components/opi_gpio/cover.py:173-175 | the fields after are `AfterStop` of the fields before; the invariant holds and no pin level changes |
| `Cover.OPiGPIOCover.IsClosed` | custom_components/opi_gpio/cover.py:145-147 | for a well-formed state, the entity reports closed exactly when `_state` is "closed" |
| `Cover.OPiGPIOCover.CurrentPosition` | custom_components/opi_gpio/cover.py:177-181 | the position of the entity's current fields; none exactly when the closing time is 0; within one closing time of the last pulse it lies in [0, 100] |
| `Cover.OPiGPIOCover.RestoreLastState` | custom_components/opi_gpio/cover.py:133-142 | the fields after are `AfterRestore` of the fields before; the invariant holds |

## Left out

- `setup_platform` and the configuration schemas (cover.py:37-91): they validate configuration and register entities with the host. The model takes a `Config` value instead. The schemas accept any integer from 0 up for the pins and both durations, so the durations are `nat`; a closing time of 0 passes the schema, and the position then has no value (`None`), where the source raises `ZeroDivisionError`.
- `setup_output` and `write_output` come from the integration package, which is not part of this model. They are logged as events, and a write sets the pin's level in `levels`. Their effect on hardware is not modelled.
- `sleep` is logged as a `Sleep` event with its duration. Nothing else happens, and no clock advances.
- `datetime.now()` is replaced by a clock reading `now`, in microseconds, passed to every command and to the position. Jumps of the local clock are not modelled beyond what an arbitrary `now` allows.
- `Position.Estimate`: computes the exact floor of seconds·100/closing time. The source computes `int((seconds / close_duration) * 100)` in floating point, which can be one lower. For example, 29 seconds of a 100-second closing time gives 28, not 29.
- The asynchronous lifecycle of `async_added_to_hass`: the call to the base class and `async_get_last_state` are not modelled. The last state is passed in as an optional string. `_should_restore` is always true, so restoration always runs.
- `set_cover_position` (cover.py:183-185): it only prints its arguments.
- The stored host attributes `_attr_name`, `_attr_unique_id` and `_attr_device_class`: they have no behaviour in this file.
- Concurrency: the host may read the entity while a command blocks in `sleep`. The model is sequential. The states a concurrent reader could see (Closing, Opening) appear in the log as `Assign` events.
