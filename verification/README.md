# RPG entity and effect state, in Dafny

A model of the core of a small JavaScript RPG data library: the `Entity` class
(a combatant with health, a combat flag, an effect list and a periodic
regeneration timer) and the `Effect` class (an immutable buff/debuff
description with a running active-time counter).

Both classes are modelled as immutable Dafny datatypes with pure step
functions:

- `Effects` (`effect.dfy`): the six-tag `EffectType`, its string spelling and
  parser, `EffectOptions` with optional `multiplier` and `amount`, the `Effect`
  record, its constructor `NewEffect`, and `EffectTick`, one firing of the
  one-second timer that bumps `activeTime`.
- `Entities` (`entity.dfy`): the `Entity` record, its constructor `NewEntity`,
  `GainHealth` (the single health funnel, returning the new entity together
  with the returned health), `RegenTick` (one firing of the regeneration
  timer), the no-op `ApplyEffect`, and `Run`, which replays any sequence of
  those events.
- `Presets` (`presets.dfy`): the repository's preset player, monster and
  effects as example values, with worked examples.
- `Wrappers` (`wrappers.dfy`): `Option`, standing in for a property that may
  be `undefined`.

Timers are replaced by explicit steps. The regeneration configuration that the
source's timer callback closes over (it is not a property of the object) is
kept in the entity's `regen` field, so that a tick needs nothing but the
entity.

The code has no `alive` flag, no death latch, no effect expiry, no damage or
resistance calculation and no combat timeout (nothing sets `inCombat`), and
regeneration applies a negative rate as it is. `applyEffect` has an empty
body, so an entity's effect list stays empty.

## Model

| member | source | states |
|---|---|---|
| Effects.ParseEffectType | codex/effect/Effect.js:31-33 | a string is an effect type exactly when it is one of the six tag spellings, and then it names that tag |
| Effects.TagNameRoundTrip | codex/effect/Effect.js:31-33 | every tag is recovered from its spelling, so the six spellings are distinct |
| Effects.SixEffectTypes | codex/effect/Effect.js:31-33 | there are exactly six effect-type strings |
| Effects.NewEffect | codex/effect/Effect.js:9-21 | the constructor keeps name, description and duration as given, takes type, multiplier and amount verbatim from the options (which can be read back), and starts `activeTime` at 0 |
| Effects.NewEffectInjective | codex/effect/Effect.js:9-15 | two effects built alike were built from the same arguments and options: no argument is dropped |
| Effects.EffectTick | codex/effect/Effect.js:16-18 | one timer firing raises `activeTime` by exactly 1 and leaves every other field as constructed |
| Effects.EffectTicks | codex/effect/Effect.js:16-18 | after `n` firings `activeTime` has grown by exactly `n` and the definition is unchanged |
| Effects.TicksOnNewEffect | codex/effect/Effect.js:16-21 | a new effect ticked `n` times is the constructed effect with `activeTime == n` |
| Effects.EffectTicksCompose | codex/effect/Effect.js:16-18 | ticking `m` then `n` times equals ticking `m + n` times |
| Effects.ActiveTimeMonotone | codex/effect/Effect.js:16-18 | the active time never decreases as ticks accumulate |
| Entities.NewEntity | codex/entity/Entity.js:2-18 | a new entity has health equal to `maxHp`, is out of combat, holds no effects, and is within bounds exactly when `maxHp >= 0` |
| Entities.GainHealth | codex/entity/Entity.js:20-32 | the stored health becomes `max(0, min(health + amount, maxHp))`, is never negative, is 0 whenever the sum is at most 0 or `maxHp <= 0`, respects the bound when `maxHp >= 0`, is the value returned, and no other field changes |
| Entities.DefaultGainIsNoOp | codex/entity/Entity.js:20-31 | a call with the default amount leaves an in-bounds entity unchanged and returns its health |
| Entities.DefaultGainIdempotent | codex/entity/Entity.js:20-31 | a default-amount call after any call changes nothing further |
| Entities.NoDeathLatch | codex/entity/Entity.js:27-31 | at health 0 a positive gain raises health again, to `min(amount, maxHp)` |
| Entities.GainHealthMonotone | codex/entity/Entity.js:22-30 | a larger amount never yields less health |
| Entities.GainAllPreservesBounds | codex/entity/Entity.js:20-32 | any sequence of `gainHealth` calls on an in-bounds entity keeps `0 <= health <= maxHp` and changes nothing but health |
| Entities.RegenTick | codex/entity/Entity.js:7-13 | a regeneration firing gains the combat rate when `inCombat` is set at that moment and the idle rate otherwise, through the clamping funnel; a negative rate lowers positive health rather than being skipped; only health changes |
| Entities.RegenTicksAreGains | codex/entity/Entity.js:7-13 | `n` regeneration firings equal `n` `gainHealth` calls at the rate the (unchanging) combat flag selects |
| Entities.RegenTicksPreserveBounds | codex/entity/Entity.js:7-13 | any number of regeneration firings keeps the health bound and changes nothing but health |
| Entities.ApplyEffect | codex/entity/Entity.js:34 | applying an effect leaves the entity, its effect list included, unchanged |
| Entities.RunPreservesBounds | codex/entity/Entity.js:7-34 | any interleaving of gains, regeneration firings and effect applications keeps the health bound and changes nothing but health |
| Entities.FreshEntityRun | codex/entity/Entity.js:2-34 | a new entity with `maxHp >= 0` stays in bounds, out of combat and effect-free under any sequence of `gainHealth` calls, regeneration firings and `applyEffect` calls |
| Presets.Player | codex/entity/Player.js:5 | a player is built with the given name, 100 maximum and current health, base damage 5, and regeneration 10 idle, 2 in combat every 60000 ms |
| Presets.Resistance1 | codex/effect/effects/Resistance.js:5-8 | "Toughness 1" lasts 60 seconds, is a resistance multiplier with factor 0.9 in `multiplier`, has no `amount`, and starts with no active time |
| Presets.HealthRegen1 | codex/effect/effects/HealthRegen.js:5-13 | "Health Regeneration Boost 1" lasts 3600 seconds, is a regeneration multiplier of 1.5 with no `amount`, and starts with no active time |
| Presets.RockMonster | codex/entity/mobs/RockMonster.js:4-9 | the rock monster is built with maximum and current health 10, base damage 0.5 and regeneration 2 idle, 0 in combat every 60000 ms, and the `Resistance1` it is given is not recorded |
| Presets.PlayerOverkillThenRegen | codex/entity/Player.js:3-7 | a player hit for 200 drops to exactly 0, and one idle regeneration later has 10 health |
| Presets.PlayerHealCapped | codex/entity/Player.js:5 | healing a full player returns 100, its maximum |
| Presets.HealthRegen1AfterAnHour | codex/effect/effects/HealthRegen.js:3-15 | after 3600 one-second ticks the boost has `activeTime == 3600` and its definition unchanged; nothing expires it |

## Left out

- Timers: `setInterval` scheduling, the regeneration period (`hpRegen.interval`, kept as data only) and the one-second effect period are replaced by the explicit `RegenTick` and `EffectTick` steps; timers are never cancelled in the source either.
- Logging: the `console.debug` messages in `gainHealth` are output only.
- Number representation: JavaScript numbers are doubles. Health, `maxHp`, the regeneration rates, the regeneration period `HpRegen.interval` and the effect duration `Effect.duration` are modelled as unbounded integers (every value the repository uses is an integer, though the constructors would accept a fractional duration or period), so rounding of fractional amounts and the loss of integer precision beyond 2^53 are not modelled; `baseDamage`, `multiplier` and `amount` are reals and nothing computes with them.
- Effects.EffectTick: `activeTime += 1` on a double stops growing at 2^53 seconds; the model's counter always grows.
- Effects.ParseEffectType: the source stores whatever string `options.type` holds; the model only represents the six documented tags, and any other string parses to `None`.
- Entities.GainHealth: the default argument also applies when `undefined` is passed explicitly (for instance a missing `hpRegen.combat`); the model's regeneration rates are always present integers.
- Direct writes to the public fields `health`, `inCombat` and `effects`, and changes a caller makes to the `hpRegen` object after construction (the timer callback re-reads it at every firing), are not modelled: the model's `regen` is the configuration as passed to the constructor, and the only ways an entity changes are `gainHealth`, regeneration firings and `applyEffect`.
- Type-confused inputs (`NaN`, strings, missing options) are not modelled.
- The module-level sample entity at the end of `codex/entity/Entity.js` and the re-exports of `codex/index.js` carry no logic.
- `codex/entity/Player.js` default-imports `Entity`, which is only a named export; the model treats `Player` as the intended subclass.
- `codex/effect/effects/Resistance.js` stores its factor in `multiplier`; the model keeps it there, as written.
