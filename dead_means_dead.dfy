/** A model of the death handler of the DeadMeansDead module: when a creature
    dies, the handler decides whether to rescale its respawn delay (by area
    type, by who landed the kill, by the delay's bounds) and, if so, derives
    the new delay from the creature's pristine delay, which it memoises on
    the creature so that repeated deaths never compound the multiplier. */
module DeadMeansDead {

  datatype Option<T> = None | Some(value: T)

  /** The option globals, as one snapshot handed to every evaluation. */
  datatype Config = Config(
    enable: bool,
    announce: bool,
    enableDungeons: bool,
    enableRaids: bool,
    enableWorld: bool,
    multiplierGlobal: real,
    multiplierDungeon: real,
    multiplierRaid: real,
    multiplierWorld: real,
    respawnTimeOriginalMin: nat,
    respawnTimeAdjustedMin: nat,
    respawnTimeAdjustedMax: nat,
    filterOnlyKilledByPlayers: bool)
  {
    /** Multipliers must not be negative: a negative product cast to an
        unsigned delay has no defined value. */
    predicate Valid() {
      multiplierGlobal >= 0.0 && multiplierDungeon >= 0.0 &&
      multiplierRaid >= 0.0 && multiplierWorld >= 0.0
    }
  }

  /** The values the options take when the configuration file omits them. */
  const DefaultConfig: Config := Config(
    enable := true,
    announce := true,
    enableDungeons := true,
    enableRaids := true,
    enableWorld := false,
    multiplierGlobal := 1.0,
    multiplierDungeon := 1.0,
    multiplierRaid := 1.0,
    multiplierWorld := 1.0,
    respawnTimeOriginalMin := 300,
    respawnTimeAdjustedMin := 300,
    respawnTimeAdjustedMax := 86400,
    filterOnlyKilledByPlayers := true)

  /** The delay, ten years in seconds, that stands for "never respawn". */
  const RespawnDisabledDelay: nat := 315360000

  // ---------------------------------------------------------------------
  // Area classification
  // ---------------------------------------------------------------------

  datatype MapType = Unknown | Dungeon | Raid | Battleground | Arena | World

  /** The instance-type flags the host reports for a map. */
  datatype MapFlags = MapFlags(isDungeon: bool, isRaid: bool, isBattleground: bool, isBattleArena: bool)

  /** Classifies a map (None: no map); the first matching rule wins. */
  function GetMapType(area: Option<MapFlags>): (t: MapType)
    ensures t == Unknown <==> area.None?
    ensures t == Dungeon <==> area.Some? && area.value.isDungeon && !area.value.isRaid
    ensures t == Raid <==> area.Some? && area.value.isRaid
    ensures t == Battleground <==>
      area.Some? && !area.value.isDungeon && !area.value.isRaid && area.value.isBattleground
    ensures t == Arena <==>
      area.Some? && !area.value.isDungeon && !area.value.isRaid && !area.value.isBattleground &&
      area.value.isBattleArena
    ensures t == World <==>
      area.Some? && !area.value.isDungeon && !area.value.isRaid && !area.value.isBattleground &&
      !area.value.isBattleArena
  {
    if area.None? then Unknown
    else if area.value.isDungeon && !area.value.isRaid then Dungeon
    else if area.value.isRaid then Raid
    else if area.value.isBattleground then Battleground
    else if area.value.isBattleArena then Arena
    else World
  }

  /** The area-type gate: only raids, dungeons and the open world can be
      enabled, each by its own option. */
  predicate AreaEnabled(cfg: Config, t: MapType)
    ensures AreaEnabled(cfg, t) ==> t == Raid || t == Dungeon || t == World
    ensures t == Raid ==> (AreaEnabled(cfg, t) <==> cfg.enableRaids)
    ensures t == Dungeon ==> (AreaEnabled(cfg, t) <==> cfg.enableDungeons)
    ensures t == World ==> (AreaEnabled(cfg, t) <==> cfg.enableWorld)
  {
    (t == Raid && cfg.enableRaids) ||
    (t == Dungeon && cfg.enableDungeons) ||
    (t == World && cfg.enableWorld)
  }

  // ---------------------------------------------------------------------
  // Delay calculation
  // ---------------------------------------------------------------------

  /** The per-area multiplier; areas without one of their own use 1. */
  function AreaMultiplier(cfg: Config, t: MapType): (m: real)
    ensures cfg.Valid() ==> m >= 0.0
    ensures t == Dungeon ==> m == cfg.multiplierDungeon
    ensures t == Raid ==> m == cfg.multiplierRaid
    ensures t == World ==> m == cfg.multiplierWorld
    ensures t != Dungeon && t != Raid && t != World ==> m == 1.0
  {
    match t
    case Dungeon => cfg.multiplierDungeon
    case Raid => cfg.multiplierRaid
    case World => cfg.multiplierWorld
    case _ => 1.0
  }

  /** The delay scaled by both multipliers and cast back to a whole number
      of seconds, which truncates the fraction. */
  function ScaledDelay(original: nat, multiplierGlobal: real, multiplier: real): (n: nat)
    requires multiplierGlobal >= 0.0 && multiplier >= 0.0
    ensures n as real <= original as real * multiplierGlobal * multiplier < n as real + 1.0
  {
    var product := original as real * multiplierGlobal * multiplier;
    assert product >= 0.0 by {
      assert original as real * multiplierGlobal >= 0.0;
    }
    product.Floor
  }

  /** The delay the handler writes back for a given pristine delay: the
      scaled delay, or the ten-year delay when the scaled delay is zero.
      The adjusted bounds are not applied to it. */
  function NewRespawnDelay(cfg: Config, t: MapType, original: nat): (d: nat)
    requires cfg.Valid()
    ensures d > 0
    ensures var scaled := ScaledDelay(original, cfg.multiplierGlobal, AreaMultiplier(cfg, t));
      (scaled == 0 ==> d == RespawnDisabledDelay) && (scaled != 0 ==> d == scaled)
  {
    var scaled := ScaledDelay(original, cfg.multiplierGlobal, AreaMultiplier(cfg, t));
    if scaled == 0 then RespawnDisabledDelay else scaled
  }

  // ---------------------------------------------------------------------
  // The state the handler reads and writes
  // ---------------------------------------------------------------------

  /** The value of a creature's memo. */
  datatype Memo = Memo(altered: bool, original: nat)

  /** The value of the part of a creature the handler reads and writes. */
  datatype CreatureState = CreatureState(
    area: Option<MapFlags>,
    respawnDelay: nat,
    respawnTime: nat,
    data: Option<Memo>)

  /** The killer as the handler sees it. */
  datatype Killer = Killer(isPlayer: bool)

  /** Why a death leaves the creature as it was. */
  datatype SkipReason =
    | Disabled
    | NoMap
    | AreaDisabled
    | NotKilledByPlayer
    | NoRespawnDelay
    | BelowOriginalMin
    | AboveAdjustedMax

  datatype Verdict = Skip(reason: SkipReason) | Pass(mapType: MapType)

  /** The early returns of the handler for a dead creature, in order. The
      bounds are checked against the creature's current delay, which is the
      adjusted one after a first adjustment. */
  function Filter(cfg: Config, s: CreatureState, killer: Option<Killer>): (v: Verdict)
    requires cfg.enable ==> killer.Some?
    ensures v.Pass? <==>
      cfg.enable && AreaEnabled(cfg, GetMapType(s.area)) &&
      (cfg.filterOnlyKilledByPlayers ==> killer.value.isPlayer) &&
      s.respawnDelay != 0 &&
      cfg.respawnTimeOriginalMin <= s.respawnDelay <= cfg.respawnTimeAdjustedMax
    ensures v.Pass? ==> s.area.Some? && v.mapType == GetMapType(s.area)
    ensures v == Skip(Disabled) <==> !cfg.enable
    ensures v == Skip(NoMap) <==> cfg.enable && s.area.None?
    ensures v == Skip(AreaDisabled) <==>
      cfg.enable && s.area.Some? && !AreaEnabled(cfg, GetMapType(s.area))
  {
    if !cfg.enable then Skip(Disabled)
    else if s.area.None? then Skip(NoMap)
    else
      var mapType := GetMapType(s.area);
      if !AreaEnabled(cfg, mapType) then Skip(AreaDisabled)
      else if cfg.filterOnlyKilledByPlayers && (killer.None? || !killer.value.isPlayer) then
        Skip(NotKilledByPlayer)
      else if s.respawnDelay == 0 then Skip(NoRespawnDelay)
      else if s.respawnDelay < cfg.respawnTimeOriginalMin then Skip(BelowOriginalMin)
      else if s.respawnDelay > cfg.respawnTimeAdjustedMax then Skip(AboveAdjustedMax)
      else Pass(mapType)
  }

  /** The pristine delay an adjustment uses: the memoised one once a memo
      says the delay was altered, the current delay otherwise. */
  function OriginalDelay(s: CreatureState): nat
  {
    if s.data.Some? && s.data.value.altered then s.data.value.original else s.respawnDelay
  }

  /** What one death does to a creature that is present. */
  function OnDeath(cfg: Config, s: CreatureState, killer: Option<Killer>): (r: CreatureState)
    requires cfg.Valid()
    requires cfg.enable ==> killer.Some?
    ensures r.area == s.area
    ensures Filter(cfg, s, killer).Skip? ==> r == s
    ensures Filter(cfg, s, killer).Pass? ==>
      r.data == Some(Memo(true, OriginalDelay(s))) &&
      r.respawnDelay == r.respawnTime == NewRespawnDelay(cfg, GetMapType(s.area), OriginalDelay(s))
    ensures s.data.Some? && s.data.value.altered ==> r.data == s.data
    ensures s.data.None? && r.data.Some? ==> r.data.value.original == s.respawnDelay
  {
    match Filter(cfg, s, killer)
    case Skip(_) => s
    case Pass(mapType) =>
      var original := OriginalDelay(s);
      var delay := NewRespawnDelay(cfg, mapType, original);
      s.(data := Some(Memo(true, original)), respawnDelay := delay, respawnTime := delay)
  }

  // ---------------------------------------------------------------------
  // The heap objects
  // ---------------------------------------------------------------------

  /** The memo the handler attaches to a creature. */
  class CreatureData {
    var respawnDelayAltered: bool
    var respawnDelayOriginal: nat

    constructor ()
      ensures !respawnDelayAltered && respawnDelayOriginal == 0
    {
      respawnDelayAltered := false;
      respawnDelayOriginal := 0;
    }
  }

  class Creature {
    var area: Option<MapFlags>
    var respawnDelay: nat
    var respawnTime: nat
    var customData: CreatureData?

    /** The value of this creature and of its memo. */
    function State(): (s: CreatureState)
      reads this, customData
      ensures s.data.None? <==> customData == null
    {
      CreatureState(area, respawnDelay, respawnTime,
        if customData == null then None
        else Some(Memo(customData.respawnDelayAltered, customData.respawnDelayOriginal)))
    }

    /** The creature's memo, attached with its default values when absent. */
    method GetDefaultData() returns (d: CreatureData)
      modifies this`customData
      ensures customData == d
      ensures old(customData) != null ==> d == old(customData)
      ensures old(customData) == null ==>
        fresh(d) && !d.respawnDelayAltered && d.respawnDelayOriginal == 0
    {
      if customData == null {
        customData := new CreatureData();
      }
      d := customData;
    }

    method SetRespawnDelay(delay: nat)
      modifies this`respawnDelay
      ensures respawnDelay == delay
    {
      respawnDelay := delay;
    }

    /** Modelled as the offset the host turns into the next respawn moment. */
    method SetRespawnTime(time: nat)
      modifies this`respawnTime
      ensures respawnTime == time
    {
      respawnTime := time;
    }
  }

  /** The death handler. `unit` is null when the dead unit is absent or is
      not a creature. The killer is dereferenced before it is checked for
      absence, so it must be present once the handler gets that far. */
  method OnUnitDeath(cfg: Config, unit: Creature?, killer: Option<Killer>)
    requires cfg.Valid()
    requires cfg.enable && unit != null ==> killer.Some?
    modifies unit, if unit != null && unit.customData != null then {unit.customData} else {}
    ensures unit != null ==> unit.State() == OnDeath(cfg, old(unit.State()), killer)
    ensures unit != null && old(unit.customData) != null ==> unit.customData == old(unit.customData)
    ensures unit != null && old(unit.customData) == null && unit.customData != null ==>
      fresh(unit.customData)
    ensures unit != null && Filter(cfg, old(unit.State()), killer).Skip? ==>
      unit.State() == old(unit.State()) && unit.customData == old(unit.customData)
  {
    if !cfg.enable {
      return;
    }
    if unit == null {
      return;
    }
    var creature := unit;
    // the killer is read here, before any check for its absence
    var killerIsPlayer := killer.value.isPlayer;

    if creature.area.None? {
      return;
    }
    var mapType := GetMapType(creature.area);
    if !AreaEnabled(cfg, mapType) {
      return;
    }
    if cfg.filterOnlyKilledByPlayers && (killer.None? || !killerIsPlayer) {
      return;
    }
    if creature.respawnDelay == 0 {
      return;
    }
    if creature.respawnDelay < cfg.respawnTimeOriginalMin {
      return;
    } else if creature.respawnDelay > cfg.respawnTimeAdjustedMax {
      return;
    }

    ghost var before := creature.State();
    var creatureData := creature.GetDefaultData();
    var originalRespawnDelay := 0;
    if creatureData.respawnDelayAltered {
      originalRespawnDelay := creatureData.respawnDelayOriginal;
    } else {
      creatureData.respawnDelayOriginal := creature.respawnDelay;
      originalRespawnDelay := creature.respawnDelay;
    }
    assert originalRespawnDelay == OriginalDelay(before);

    var multiplier := AreaMultiplier(cfg, mapType);
    var newRespawnTime := ScaledDelay(originalRespawnDelay, cfg.multiplierGlobal, multiplier);
    if newRespawnTime == 0 {
      newRespawnTime := RespawnDisabledDelay;
    } else if newRespawnTime < cfg.respawnTimeAdjustedMin {
      // below the adjusted minimum: only reported, the delay is kept
    } else if newRespawnTime > cfg.respawnTimeAdjustedMax {
      // above the adjusted maximum: only reported, the delay is kept
    }

    creatureData.respawnDelayAltered := true;
    creature.SetRespawnDelay(newRespawnTime);
    creature.SetRespawnTime(newRespawnTime);
  }
}
