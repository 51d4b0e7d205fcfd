# DeadMeansDead respawn-delay engine, modelled in Dafny

This is a model of the death handler of the DeadMeansDead server module. When
a creature dies, the handler runs a chain of early returns:

- the global enable flag;
- whether the dead unit is a creature;
- whether the creature is on a map;
- the area-type gate for raids, dungeons and the open world;
- the killed-by-player filter;
- a zero respawn delay;
- the original-minimum and adjusted-maximum bounds.

If every check passes, the handler picks the creature's pristine delay. That
is the delay memoised on its first adjustment, or its current delay when it
has no memo yet. The handler scales this delay by the global multiplier and
the area multiplier, then truncates it. It writes the result as both the
respawn delay and the respawn time. A scaled delay of zero becomes the
ten-year "never respawn" delay.

Files:

- `dead_means_dead.dfy`, module `DeadMeansDead`. It holds the configuration
  record and its defaults, the map classifier, the filter chain and the delay
  calculation as functions, and the pure one-death step `OnDeath`. It also
  holds the heap model: the `Creature` class and its `CreatureData` memo
  class, which the handler creates lazily and updates in place. The
  imperative handler `OnUnitDeath` follows the source statement by statement.
  Its `ensures` ties the creature's new state to `OnDeath` of its old state.
- `properties.dfy`, module `DeadMeansDeadProperties`. It holds the
  model of repeated deaths of one creature (`Run`) and the properties that
  span several deaths, the worked scenarios, and the places where the code
  does not do what its own log messages and comments announce.

Where the code does not do what its messages and comments announce, or reads
a value before checking it, the model follows the code:

- The branches at src/DeadMeansDead.cpp:282-302 log that the new delay is
  "Adjusting to minimum" or "Adjusting to maximum", but they never change the
  value. The model writes the unclamped value (`ScaledDelayNotRaisedToMin`,
  `ScaledDelayNotLoweredToMax`).
- The comments at src/DeadMeansDead.cpp:195 and 208 call the checked value the
  creature's "original" respawn time. The checks read the creature's current
  delay, which is the adjusted one after the first adjustment
  (`BoundsReadCurrentDelay`).
- The killer is read at src/DeadMeansDead.cpp:105, before the check for its
  absence at line 172. So `OnUnitDeath` requires a killer whenever the
  handler gets past the creature check.

The host is represented by plain fields and values:

- A dead unit that is null or is not a creature is a null `Creature?`.
- A map is `Option<MapFlags>`; `None` means the creature has no map.
- The killer is a `Killer` value that records whether it is a player.
- The configuration is a `Config` value passed into every call.

## Model

| member | source | states |
|---|---|---|
| `DeadMeansDead.GetMapType` | src/DeadMeansDead.cpp:318-344 | Unknown exactly when there is no map; Dungeon exactly for a dungeon that is not a raid; Raid for every raid, whatever the dungeon flag says; Battleground or Arena only when the map is neither dungeon nor raid; World in every remaining case |
| `DeadMeansDead.AreaEnabled` | src/DeadMeansDead.cpp:143-169 | the gate holds only for Raid, Dungeon or World, and for each of them exactly when its own enable option is set |
| `DeadMeansDead.AreaMultiplier` | src/DeadMeansDead.cpp:250-254 | the dungeon, raid or world multiplier for those area types, 1 for every other type, never negative under a valid config |
| `DeadMeansDead.ScaledDelay` | src/DeadMeansDead.cpp:256 | the result is the whole part of pristine delay times global multiplier times area multiplier: at most the product and more than the product minus one |
| `DeadMeansDead.NewRespawnDelay` | src/DeadMeansDead.cpp:269-302 | the written delay is always positive; it is exactly 315360000 when the scaled delay is 0, and otherwise the scaled delay itself, with no clamping |
| `DeadMeansDead.Filter` | src/DeadMeansDead.cpp:89-220 | passes exactly when enabled, the area gate holds, the player filter is met and the current delay is nonzero and within [original minimum, adjusted maximum]; a pass carries the map's type; names the first failing check for the disabled, no-map and area cases |
| `DeadMeansDead.OnDeath` | src/DeadMeansDead.cpp:222-315 | the map never changes; a skipped death leaves the creature as it was; an adjustment records the pristine delay in an altered memo, sets delay and respawn time to the same new value, and keeps an already-altered memo unchanged |
| `DeadMeansDead.CreatureData.constructor` | src/DeadMeansDead.cpp:27-34 | a new memo is not altered and holds 0 |
| `DeadMeansDead.Creature.GetDefaultData` | src/DeadMeansDead.cpp:223 | returns the creature's memo, attaching a fresh default memo only when it has none |
| `DeadMeansDead.Creature.SetRespawnDelay` | src/DeadMeansDead.cpp:314 | the respawn delay becomes the given value and nothing else changes |
| `DeadMeansDead.Creature.SetRespawnTime` | src/DeadMeansDead.cpp:315 | the respawn time becomes the given value and nothing else changes |
| `DeadMeansDead.OnUnitDeath` | src/DeadMeansDead.cpp:87-316 | a null or non-creature unit is untouched; otherwise the creature's new state is `OnDeath` of its old state, an existing memo object is reused, a new one is fresh, and a skipped death leaves creature and memo untouched |
| `DeadMeansDeadProperties.Run` | src/DeadMeansDead.cpp:87-316 | the model of repeated deaths of one creature under one config; its contract says only that deaths never move the creature to another map |
| `DeadMeansDeadProperties.AdjustedOnlyInEnabledAreas` | src/DeadMeansDead.cpp:143-169 | a death changes the creature only for (Raid and raids enabled) or (Dungeon and dungeons enabled) or (World and world enabled); Battleground, Arena and Unknown are never adjusted |
| `DeadMeansDeadProperties.SkipsChangeNothing` | src/DeadMeansDead.cpp:89-220 | disabled, no map, a non-player killer under the player filter, or a current delay that is 0, below the original minimum or above the adjusted maximum: nothing changes and no memo is attached |
| `DeadMeansDeadProperties.SecondAdjustmentSameDelay` | src/DeadMeansDead.cpp:226-228 | right after an adjustment, a further death under the same config leaves the creature as it is, whether it is skipped or adjusted again from the memo |
| `DeadMeansDeadProperties.OnDeathKeepsOriginal` | src/DeadMeansDead.cpp:222-246 | from any state, one death leaves unchanged the pristine delay the next adjustment starts from: a first adjustment memoises the current delay, and an altered memo is kept |
| `DeadMeansDeadProperties.RunKeepsOriginal` | src/DeadMeansDead.cpp:222-246 | the same over any number of deaths, from any start state |
| `DeadMeansDeadProperties.RunKeepsMemo` | src/DeadMeansDead.cpp:226-246 | once a memo is altered, any number of further deaths keep its stored pristine delay |
| `DeadMeansDeadProperties.OnDeathSettled` | src/DeadMeansDead.cpp:222-315 | one death keeps a creature either untouched or adjusted exactly once from its pristine delay |
| `DeadMeansDeadProperties.RunSettled` | src/DeadMeansDead.cpp:222-315 | the same holds after any number of deaths |
| `DeadMeansDeadProperties.NoCompounding` | src/DeadMeansDead.cpp:222-315 | a creature without a memo, after any number of deaths under one config, is either unchanged or carries an altered memo of its pristine delay and the single adjustment of that delay as both delay and respawn time |
| `DeadMeansDeadProperties.ScenarioDungeonScaled` | src/DeadMeansDead.cpp:250-256 | pristine 600 s in a dungeon, multipliers 2 and 1.5: delay and respawn time become 1800 s and the memo holds 600 |
| `DeadMeansDeadProperties.ScenarioZeroMeansNever` | src/DeadMeansDead.cpp:269-280 | a zero global multiplier writes the ten-year delay |
| `DeadMeansDeadProperties.ScenarioBelowOriginalMin` | src/DeadMeansDead.cpp:195-207 | a 200 s delay under the default 300 s original minimum changes nothing and attaches no memo |
| `DeadMeansDeadProperties.ScaledDelayNotRaisedToMin` | src/DeadMeansDead.cpp:281-291 | a scaled delay of 60 s is written as 60 s although the adjusted minimum is 300 s |
| `DeadMeansDeadProperties.ScaledDelayNotLoweredToMax` | src/DeadMeansDead.cpp:292-302 | a scaled delay of 96000 s is written as 96000 s although the adjusted maximum is 86400 s |
| `DeadMeansDeadProperties.BoundsReadCurrentDelay` | src/DeadMeansDead.cpp:208-220 | after the ten-year delay is written, the next death is skipped as above the adjusted maximum, although the memoised delay is within bounds |

The default option values (`DeadMeansDead.DefaultConfig`) are those of
src/DeadMeansDead.cpp:41-65.

## Left out

- Configuration loading from the configuration file: the configuration is an input value, and only its defaults are recorded.
- The login announcement to a player's chat session: it is chat I/O.
- All debug logging, including the killer-ID and map-type strings built only for log messages.
- Registration of the three scripts with the host: it is host plumbing.
- DeadMeansDead.ScaledDelay: computes over exact reals, not single-precision floats, so float rounding of the product is not modelled.
- DeadMeansDead.ScaledDelay: the cast to a 32-bit unsigned delay is modelled only for non-negative products (`Config.Valid`), and delays are unbounded naturals, so a product of 2^32 or more is not wrapped or undefined as in the source.
- DeadMeansDead.Creature.SetRespawnTime: stores the offset itself; the host's conversion of the offset into an absolute respawn moment is not modelled.
- Host objects (map, unit-to-creature conversion, player test, custom-data store) are plain fields and values, not the host's classes; creatures are created by the host, so the `Creature` class has no constructor of its own.
- A memo shared between two creatures cannot arise in the host and is not ruled out in the model; every property is stated for one creature.
