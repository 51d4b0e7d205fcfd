/** Properties of the death handler across one or many deaths of the same
    creature, worked scenarios, and the places where the code does not do
    what its own log messages and comments announce. */
module DeadMeansDeadProperties {
  import opened DeadMeansDead

  /** The model of repeated deaths: the creature after it has died once for
      each killer in `killers`, in order, under one configuration. Deaths
      never move the creature to another map. */
  function Run(cfg: Config, s: CreatureState, killers: seq<Killer>): (r: CreatureState)
    requires cfg.Valid()
    ensures r.area == s.area
    decreases |killers|
  {
    if killers == [] then s
    else Run(cfg, OnDeath(cfg, s, Some(killers[0])), killers[1..])
  }

  /** A death changes the creature only when the area-type gate holds;
      battlegrounds, arenas and unknown areas are never adjusted. */
  lemma AdjustedOnlyInEnabledAreas(cfg: Config, s: CreatureState, killer: Option<Killer>)
    requires cfg.Valid() && (cfg.enable ==> killer.Some?)
    ensures OnDeath(cfg, s, killer) != s ==>
      (GetMapType(s.area) == Raid && cfg.enableRaids) ||
      (GetMapType(s.area) == Dungeon && cfg.enableDungeons) ||
      (GetMapType(s.area) == World && cfg.enableWorld)
    ensures GetMapType(s.area) in {Battleground, Arena, Unknown} ==> OnDeath(cfg, s, killer) == s
  {
  }

  /** With the global switch off, without a map, with the player filter
      unmet or with a current delay that is zero or out of bounds, a death
      changes nothing and attaches no memo. */
  lemma SkipsChangeNothing(cfg: Config, s: CreatureState, killer: Option<Killer>)
    requires cfg.Valid() && (cfg.enable ==> killer.Some?)
    requires !cfg.enable || s.area.None? ||
      (cfg.filterOnlyKilledByPlayers && !killer.value.isPlayer) ||
      s.respawnDelay == 0 || s.respawnDelay < cfg.respawnTimeOriginalMin ||
      s.respawnDelay > cfg.respawnTimeAdjustedMax
    ensures OnDeath(cfg, s, killer) == s
  {
  }

  /** A second death right after an adjustment, under the same
      configuration, either is skipped or writes the same delay again,
      because both start from the memoised pristine delay. */
  lemma SecondAdjustmentSameDelay(cfg: Config, s: CreatureState, k1: Killer, k2: Killer)
    requires cfg.Valid()
    requires Filter(cfg, s, Some(k1)).Pass?
    ensures var once := OnDeath(cfg, s, Some(k1));
      OnDeath(cfg, once, Some(k2)) == once
  {
  }

  /** Whatever the creature's state, one death never changes the pristine
      delay the next adjustment would start from: on a first adjustment the
      memo captures the current delay, and an altered memo is kept. */
  lemma OnDeathKeepsOriginal(cfg: Config, s: CreatureState, killer: Option<Killer>)
    requires cfg.Valid() && (cfg.enable ==> killer.Some?)
    ensures OriginalDelay(OnDeath(cfg, s, killer)) == OriginalDelay(s)
  {
  }

  /** The same over any number of deaths, from any start state. */
  lemma {:induction false} RunKeepsOriginal(cfg: Config, s: CreatureState, killers: seq<Killer>)
    requires cfg.Valid()
    ensures OriginalDelay(Run(cfg, s, killers)) == OriginalDelay(s)
    decreases |killers|
  {
    if killers != [] {
      OnDeathKeepsOriginal(cfg, s, Some(killers[0]));
      RunKeepsOriginal(cfg, OnDeath(cfg, s, Some(killers[0])), killers[1..]);
    }
  }

  /** Once a memo records an alteration, no number of further deaths
      changes the pristine delay it holds. */
  lemma {:induction false} RunKeepsMemo(cfg: Config, s: CreatureState, killers: seq<Killer>)
    requires cfg.Valid()
    requires s.data.Some? && s.data.value.altered
    ensures Run(cfg, s, killers).data == s.data
    decreases |killers|
  {
    if killers != [] {
      RunKeepsMemo(cfg, OnDeath(cfg, s, Some(killers[0])), killers[1..]);
    }
  }

  /** The two shapes a creature can have under one configuration, starting
      from `d0` and `t0` with no memo: untouched, or adjusted once from `d0`. */
  predicate Settled(cfg: Config, s: CreatureState, d0: nat, t0: nat)
    requires cfg.Valid()
  {
    (s.data.None? && s.respawnDelay == d0 && s.respawnTime == t0) ||
    (s.data == Some(Memo(true, d0)) &&
     s.respawnDelay == NewRespawnDelay(cfg, GetMapType(s.area), d0) &&
     s.respawnTime == s.respawnDelay)
  }

  lemma OnDeathSettled(cfg: Config, s: CreatureState, killer: Killer, d0: nat, t0: nat)
    requires cfg.Valid() && Settled(cfg, s, d0, t0)
    ensures Settled(cfg, OnDeath(cfg, s, Some(killer)), d0, t0)
  {
  }

  lemma {:induction false} RunSettled(cfg: Config, s: CreatureState, killers: seq<Killer>, d0: nat, t0: nat)
    requires cfg.Valid() && Settled(cfg, s, d0, t0)
    ensures Settled(cfg, Run(cfg, s, killers), d0, t0)
    decreases |killers|
  {
    if killers != [] {
      OnDeathSettled(cfg, s, killers[0], d0, t0);
      RunSettled(cfg, OnDeath(cfg, s, Some(killers[0])), killers[1..], d0, t0);
    }
  }

  /** No compounding: however many times a creature without a memo dies
      under one configuration, its delay is either the pristine one or the
      one adjustment of the pristine one, and its memo, once attached, holds
      the pristine delay. */
  lemma {:induction false} NoCompounding(cfg: Config, s: CreatureState, killers: seq<Killer>)
    requires cfg.Valid() && s.data.None?
    ensures var r := Run(cfg, s, killers);
      (r == s) ||
      (r.data == Some(Memo(true, s.respawnDelay)) &&
       r.respawnDelay == r.respawnTime == NewRespawnDelay(cfg, GetMapType(s.area), s.respawnDelay))
  {
    RunSettled(cfg, s, killers, s.respawnDelay, s.respawnTime);
  }

  /** Utility: a configuration with the defaults except the two named
      multipliers (the dungeon one is used in the scenarios below). */
  function WithMultipliers(global: real, dungeon: real): (cfg: Config)
    requires global >= 0.0 && dungeon >= 0.0
    ensures cfg.Valid()
    ensures cfg.multiplierGlobal == global && cfg.multiplierDungeon == dungeon
  {
    DefaultConfig.(multiplierGlobal := global, multiplierDungeon := dungeon)
  }

  const DungeonMap: Option<MapFlags> := Some(MapFlags(true, false, false, false))

  /** Pristine 600 s in a dungeon, global multiplier 2, dungeon multiplier
      1.5, killed by a player: the delay becomes 1800 s. */
  lemma ScenarioDungeonScaled()
    ensures var s := CreatureState(DungeonMap, 600, 600, None);
      OnDeath(WithMultipliers(2.0, 1.5), s, Some(Killer(true))) ==
      CreatureState(DungeonMap, 1800, 1800, Some(Memo(true, 600)))
  {
  }

  /** A zero global multiplier yields the ten-year delay, beyond the
      adjusted maximum. */
  lemma ScenarioZeroMeansNever()
    ensures var s := CreatureState(DungeonMap, 600, 600, None);
      OnDeath(WithMultipliers(0.0, 1.0), s, Some(Killer(true))).respawnDelay == RespawnDisabledDelay
  {
  }

  /** A pristine delay of 200 s is below the default original minimum: the
      death changes nothing and attaches no memo. */
  lemma ScenarioBelowOriginalMin()
    ensures var s := CreatureState(DungeonMap, 200, 200, None);
      OnDeath(DefaultConfig, s, Some(Killer(true))) == s
  {
  }

  /** The adjusted minimum is only reported, never enforced: a scaled delay
      of 60 s stays 60 s although the adjusted minimum is 300 s. */
  lemma ScaledDelayNotRaisedToMin()
    ensures var s := CreatureState(DungeonMap, 600, 600, None);
      var r := OnDeath(WithMultipliers(0.1, 1.0), s, Some(Killer(true)));
      r.respawnDelay == 60 < DefaultConfig.respawnTimeAdjustedMin
  {
  }

  /** The adjusted maximum is only reported, never enforced: a scaled delay
      of 96000 s stays 96000 s although the adjusted maximum is 86400 s. */
  lemma ScaledDelayNotLoweredToMax()
    ensures var s := CreatureState(DungeonMap, 48000, 48000, None);
      var r := OnDeath(WithMultipliers(2.0, 1.0), s, Some(Killer(true)));
      r.respawnDelay == 96000 > DefaultConfig.respawnTimeAdjustedMax
  {
  }

  /** The bounds read the current delay: after the ten-year delay was
      written, the next death is skipped as above the adjusted maximum,
      although the memoised pristine delay is within the bounds. */
  lemma BoundsReadCurrentDelay()
    ensures var cfg := WithMultipliers(0.0, 1.0);
      var once := OnDeath(cfg, CreatureState(DungeonMap, 600, 600, None), Some(Killer(true)));
      once.data == Some(Memo(true, 600)) && Filter(cfg, once, Some(Killer(true))) == Skip(AboveAdjustedMax)
  {
  }
}
