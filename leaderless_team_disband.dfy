/**
 The Leaderless Team Disband plugin: when the leader of a team dies, the team
 is disbanded if the killer matches one of three configurable rules (an enemy
 player, a wild animal, an NPC). The plugin also keeps a small versioned
 configuration that it migrates forward when it is loaded.

 The host's objects are replaced by plain values: the team registry is a map
 from player id to that player's team (`None` when the registry singleton is
 absent), the death information is the initiating player (if any) plus a flag
 saying whether the initiator is an animal, and `team.Disband()` is recorded
 in a log on the plugin object.
 */
module LeaderlessTeamDisband {

  import opened Wrappers
  import opened StringCompare

  // ---------------------------------------------------------------------------
  // Host entities
  // ---------------------------------------------------------------------------

  /** A Steam user id or a team id: an unsigned 64-bit integer. */
  newtype UInt64 = x: int | 0 <= x < 0x1_0000_0000_0000_0000

  type PlayerId = UInt64
  type TeamId = UInt64

  /** A player entity; an NPC is a player whose `isNpc` is set. Players are identified by `id`. */
  datatype Player = Player(id: PlayerId, isNpc: bool)

  /** A team of the relationship registry; teams are identified by `id`. */
  datatype Team = Team(id: TeamId, leader: PlayerId)

  /** The registry's player-to-team index; a player without a team has no entry. */
  type TeamIndex = map<PlayerId, Team>

  /** What the death information says about who caused the death. */
  datatype DeathInfo = DeathInfo(initiatorPlayer: Option<Player>, initiatorIsAnimal: bool)

  // ---------------------------------------------------------------------------
  // Configuration
  // ---------------------------------------------------------------------------

  /** The plugin's version tag, from its Info attribute. */
  const PluginVersion: string := "1.0.0"

  /**
   A stored configuration older than this tag is replaced by the defaults when
   it is loaded, provided its tag is also older than the running version.
   */
  const FirstRelease: string := "1.0.0"

  /** The stored settings; a missing or null version tag is `None`. */
  datatype Configuration = Configuration(
    version: Option<string>,
    disbandIfKilledByPlayer: bool,
    disbandIfKilledByNpc: bool,
    disbandIfKilledByAnimal: bool)

  /** True when version tag `v` sorts below `w`. A missing tag sorts below every tag. */
  predicate Below(v: Option<string>, w: string)
  {
    Compare(v, Some(w)) < 0
  }

  /** The three rule flags, without the version tag. */
  function Flags(c: Configuration): (bool, bool, bool)
  {
    (c.disbandIfKilledByPlayer, c.disbandIfKilledByNpc, c.disbandIfKilledByAnimal)
  }

  /** The configuration written for a fresh install of plugin version `current`. */
  function DefaultConfig(current: string): (c: Configuration)
    ensures c.version == Some(current)
    ensures Flags(c) == (true, false, false)
  {
    Configuration(Some(current), true, false, false)
  }

  /**
   The effect of `UpdateConfig` on configuration `c`: a configuration older than
   the first release is replaced by the defaults, any other keeps its flags, and
   either way the version tag becomes `current`.
   */
  function Updated(c: Configuration, current: string): (u: Configuration)
    ensures u.version == Some(current)
    ensures Flags(u) == if Below(c.version, FirstRelease) then Flags(DefaultConfig(current)) else Flags(c)
  {
    var base := if Below(c.version, FirstRelease) then DefaultConfig(current) else c;
    base.(version := Some(current))
  }

  /** The configuration in effect after `LoadConfig` reads `stored` under plugin version `current`. */
  function Loaded(stored: Configuration, current: string): (c: Configuration)
    // a stored tag below the running version is brought up to it
    ensures Below(stored.version, current) ==> c.version == Some(current)
    // a configuration older than both the running version and the first release is reset
    ensures Below(stored.version, current) && Below(stored.version, FirstRelease) ==>
              c == DefaultConfig(current)
    // no other load changes a flag
    ensures !(Below(stored.version, current) && Below(stored.version, FirstRelease)) ==>
              Flags(c) == Flags(stored)
    // a tag that is current (or newer) is left exactly as stored
    ensures !Below(stored.version, current) ==> c == stored
    // whatever was stored, the result is never older than the running version
    ensures !Below(c.version, current)
  {
    if Below(stored.version, current) then Updated(stored, current) else stored
  }

  /** Loading is idempotent: a loaded configuration loads unchanged. */
  lemma LoadedIdempotent(stored: Configuration, current: string)
    ensures Loaded(Loaded(stored, current), current) == Loaded(stored, current)
  {
  }

  /** Loading never moves the version tag backwards. */
  lemma LoadedNeverDowngrades(stored: Configuration, current: string)
    ensures Compare(Loaded(stored, current).version, stored.version) >= 0
  {
    CompareAntisymmetric(stored.version, Some(current));
  }

  /**
   As long as the running version is not below the first release, every stored
   configuration older than the first release (a missing tag included) is
   replaced by the defaults.
   */
  lemma LoadedResetsPreReleaseConfig(stored: Configuration, current: string)
    requires !Below(Some(current), FirstRelease)
    requires Below(stored.version, FirstRelease)
    ensures Loaded(stored, current) == DefaultConfig(current)
  {
    CompareAntisymmetric(Some(current), Some(FirstRelease));
    CompareTransitive(stored.version, Some(FirstRelease), Some(current));
  }

  /** For the shipped version, a load either resets to the defaults or changes nothing. */
  lemma LoadedShippedVersion(stored: Configuration)
    ensures Loaded(stored, PluginVersion) ==
              if Below(stored.version, PluginVersion) then DefaultConfig(PluginVersion) else stored
  {
  }

  /**
   Because tags compare character by character, a future "1.10.0" release would
   see a stored "1.9.0" configuration as current: it is loaded unchanged, and
   its tag stays "1.9.0".
   */
  lemma LoadedSkipsNonNumericUpgrade(stored: Configuration)
    requires stored.version == Some("1.9.0")
    ensures Loaded(stored, "1.10.0") == stored
  {
    OrdinalIsNotNumeric();
    CompareAntisymmetric(Some("1.10.0"), Some("1.9.0"));
  }

  // ---------------------------------------------------------------------------
  // Team lookups
  // ---------------------------------------------------------------------------

  /** `GetTeam`: the team of `player`, or `None` when the player has none or the registry is absent. */
  function GetTeam(server: Option<TeamIndex>, player: PlayerId): (t: Option<Team>)
    ensures t.Some? <==> server.Some? && player in server.value
    ensures t.Some? ==> t.value == server.value[player]
  {
    if server.None? || player !in server.value then None else Some(server.value[player])
  }

  /** Two players are on the same team when both resolve to a team and it is the same team. */
  predicate SameTeam(server: Option<TeamIndex>, a: PlayerId, b: PlayerId)
  {
    GetTeam(server, a).Some? && GetTeam(server, b).Some? &&
    GetTeam(server, a).value.id == GetTeam(server, b).value.id
  }

  /** `AreEnemies`: true unless both players resolve to one and the same team. */
  function AreEnemies(server: Option<TeamIndex>, a: PlayerId, b: PlayerId): (r: bool)
    ensures r <==> !SameTeam(server, a, b)
    ensures GetTeam(server, a).None? || GetTeam(server, b).None? ==> r
  {
    var attackerTeam := GetTeam(server, a);
    var victimTeam := GetTeam(server, b);
    attackerTeam.None? || victimTeam.None? || attackerTeam.value.id != victimTeam.value.id
  }

  /** Being enemies is symmetric. */
  lemma AreEnemiesSymmetric(server: Option<TeamIndex>, a: PlayerId, b: PlayerId)
    ensures AreEnemies(server, a, b) == AreEnemies(server, b, a)
  {
  }

  // ---------------------------------------------------------------------------
  // The disband decision
  // ---------------------------------------------------------------------------

  /** Which of the three rules caused a disband. */
  datatype Rule = PlayerRule | AnimalRule | NpcRule

  /** The outcome of one death event. */
  datatype Decision = Keep | Disband(team: TeamId, rule: Rule)

  /** The teams a decision disbands, in the order it disbands them. */
  function Disbanded(d: Decision): (ts: seq<TeamId>)
    ensures d.Keep? <==> ts == []
    ensures d.Disband? ==> ts == [d.team]
  {
    if d.Disband? then [d.team] else []
  }

  /** The victim leads the team the registry assigns to them. */
  predicate LeaderOf(server: Option<TeamIndex>, victim: Player, team: Team)
  {
    GetTeam(server, victim.id) == Some(team) && team.leader == victim.id
  }

  /** The initiating player is the victim. */
  predicate SelfInflicted(victim: Player, info: DeathInfo)
  {
    info.initiatorPlayer.Some? && info.initiatorPlayer.value.id == victim.id
  }

  /** The player rule's condition: the initiating player is an enemy of the victim and the flag is on. */
  predicate PlayerRuleFires(config: Configuration, server: Option<TeamIndex>, victim: Player, info: DeathInfo)
  {
    info.initiatorPlayer.Some? && config.disbandIfKilledByPlayer &&
    AreEnemies(server, info.initiatorPlayer.value.id, victim.id)
  }

  /** The animal rule's condition. */
  predicate AnimalRuleFires(config: Configuration, info: DeathInfo)
  {
    info.initiatorIsAnimal && config.disbandIfKilledByAnimal
  }

  /** The NPC rule's condition: the initiating player is an NPC and the flag is on. */
  predicate NpcRuleFires(config: Configuration, info: DeathInfo)
  {
    info.initiatorPlayer.Some? && info.initiatorPlayer.value.isNpc && config.disbandIfKilledByNpc
  }

  /**
   `OnPlayerDeath` as a decision: whether the victim's team is disbanded, and by
   which rule. The checks run in the plugin's order and the first rule that
   fires decides.
   */
  function Decide(config: Configuration, server: Option<TeamIndex>,
                  victim: Option<Player>, info: Option<DeathInfo>): (d: Decision)
    // an absent victim or death information disbands nothing
    ensures victim.None? || info.None? ==> d == Keep
    // only a leader's death disbands, and only that leader's own team
    ensures d.Disband? ==>
              victim.Some? && info.Some? &&
              LeaderOf(server, victim.value, Team(d.team, victim.value.id))
    // a self-inflicted death never disbands
    ensures d.Disband? ==> !SelfInflicted(victim.value, info.value)
    // every disband is justified by the rule it names, and earlier rules did not fire
    ensures d.Disband? && d.rule == PlayerRule ==> PlayerRuleFires(config, server, victim.value, info.value)
    ensures d.Disband? && d.rule == AnimalRule ==>
              !PlayerRuleFires(config, server, victim.value, info.value) &&
              AnimalRuleFires(config, info.value)
    ensures d.Disband? && d.rule == NpcRule ==>
              !PlayerRuleFires(config, server, victim.value, info.value) &&
              !AnimalRuleFires(config, info.value) &&
              NpcRuleFires(config, info.value)
    // conversely, a leader's death that is not self-inflicted disbands when any rule fires
    ensures victim.Some? && info.Some? && !SelfInflicted(victim.value, info.value) &&
            GetTeam(server, victim.value.id).Some? &&
            LeaderOf(server, victim.value, GetTeam(server, victim.value.id).value) &&
            (PlayerRuleFires(config, server, victim.value, info.value) ||
             AnimalRuleFires(config, info.value) ||
             NpcRuleFires(config, info.value))
            ==> d.Disband?
  {
    if victim.None? || info.None? then Keep
    else
      var team := GetTeam(server, victim.value.id);
      if team.None? || team.value.leader != victim.value.id then Keep
      else if SelfInflicted(victim.value, info.value) then Keep
      else if PlayerRuleFires(config, server, victim.value, info.value) then Disband(team.value.id, PlayerRule)
      else if AnimalRuleFires(config, info.value) then Disband(team.value.id, AnimalRule)
      else if NpcRuleFires(config, info.value) then Disband(team.value.id, NpcRule)
      else Keep
  }

  /** A victim who does not lead their team never causes a disband, whatever the flags or killer. */
  lemma NonLeaderKeeps(config: Configuration, server: Option<TeamIndex>, victim: Player, info: Option<DeathInfo>)
    requires GetTeam(server, victim.id).None? || GetTeam(server, victim.id).value.leader != victim.id
    ensures Decide(config, server, Some(victim), info) == Keep
  {
  }

  /** A self-inflicted death never causes a disband, whatever the flags. */
  lemma SelfKillKeeps(config: Configuration, server: Option<TeamIndex>, victim: Player, info: DeathInfo)
    requires SelfInflicted(victim, info)
    ensures Decide(config, server, Some(victim), Some(info)) == Keep
  {
  }

  /** A death with neither an initiating player nor an animal initiator never disbands. */
  lemma EnvironmentalDeathKeeps(config: Configuration, server: Option<TeamIndex>,
                                victim: Option<Player>, info: DeathInfo)
    requires info.initiatorPlayer.None? && !info.initiatorIsAnimal
    ensures Decide(config, server, victim, Some(info)) == Keep
  {
  }

  /** With the player flag on, a leader killed by an enemy player has the team disbanded by the player rule. */
  lemma EnemyPlayerDisbands(config: Configuration, server: Option<TeamIndex>, leader: Player, team: Team, killer: Player,
                            isAnimal: bool)
    requires LeaderOf(server, leader, team)
    requires config.disbandIfKilledByPlayer
    requires killer.id != leader.id && AreEnemies(server, killer.id, leader.id)
    ensures Decide(config, server, Some(leader), Some(DeathInfo(Some(killer), isAnimal))) == Disband(team.id, PlayerRule)
  {
  }

  /** A leader killed by a human teammate keeps the team, unless the killer also counts as an animal. */
  lemma TeammateKillKeeps(config: Configuration, server: Option<TeamIndex>, leader: Player, killer: Player)
    requires GetTeam(server, leader.id).Some? && GetTeam(server, leader.id).value.leader == leader.id
    requires SameTeam(server, killer.id, leader.id) && !killer.isNpc
    ensures Decide(config, server, Some(leader), Some(DeathInfo(Some(killer), false))) == Keep
  {
  }

  /**
   An NPC killer is a player, so the player rule sees it first: an enemy NPC
   disbands a leader's team under the player flag even with the NPC flag off.
   */
  lemma NpcKilledThroughPlayerRule(config: Configuration, server: Option<TeamIndex>, leader: Player, team: Team,
                                   npc: Player)
    requires LeaderOf(server, leader, team)
    requires npc.isNpc && npc.id != leader.id && AreEnemies(server, npc.id, leader.id)
    requires config.disbandIfKilledByPlayer && !config.disbandIfKilledByNpc
    ensures Decide(config, server, Some(leader), Some(DeathInfo(Some(npc), false))) == Disband(team.id, PlayerRule)
  {
  }

  /** With the NPC flag on, a leader killed by any NPC other than themself has the team disbanded. */
  lemma NpcKillDisbands(config: Configuration, server: Option<TeamIndex>, leader: Player, team: Team, npc: Player,
                        isAnimal: bool)
    requires LeaderOf(server, leader, team)
    requires npc.isNpc && npc.id != leader.id && config.disbandIfKilledByNpc
    ensures Decide(config, server, Some(leader), Some(DeathInfo(Some(npc), isAnimal))).Disband?
  {
  }

  /** With no initiating player, an animal initiator disbands exactly when the animal flag is on. */
  lemma AnimalRuleIff(config: Configuration, server: Option<TeamIndex>, leader: Player, team: Team)
    requires LeaderOf(server, leader, team)
    ensures Decide(config, server, Some(leader), Some(DeathInfo(None, true))) ==
              if config.disbandIfKilledByAnimal then Disband(team.id, AnimalRule) else Keep
  {
  }

  /** Turning a rule flag on never prevents a disband. */
  lemma MoreFlagsNeverKeep(c1: Configuration, c2: Configuration, server: Option<TeamIndex>,
                           victim: Option<Player>, info: Option<DeathInfo>)
    requires c1.disbandIfKilledByPlayer ==> c2.disbandIfKilledByPlayer
    requires c1.disbandIfKilledByNpc ==> c2.disbandIfKilledByNpc
    requires c1.disbandIfKilledByAnimal ==> c2.disbandIfKilledByAnimal
    ensures Decide(c1, server, victim, info).Disband? ==> Decide(c2, server, victim, info).Disband?
  {
  }

  // ---------------------------------------------------------------------------
  // The plugin object
  // ---------------------------------------------------------------------------

  /**
   The plugin's mutable state: the active configuration and, standing for the
   calls to `team.Disband()`, the log of the teams it has disbanded.
   */
  class Plugin {
    /** The running plugin's version tag. */
    const version: string
    /** The active configuration. */
    var config: Configuration
    /** The ids of the teams disbanded so far, oldest first. */
    var disbanded: seq<TeamId>

    /** The state once the host has set the plugin up and loaded a configuration. */
    constructor (version: string, config: Configuration)
      ensures this.version == version && this.config == config && disbanded == []
    {
      this.version := version;
      this.config := config;
      disbanded := [];
    }

    /** `LoadDefaultConfig`: install the defaults for the running version. */
    method LoadDefaultConfig()
      modifies this
      ensures config == DefaultConfig(version)
      ensures disbanded == old(disbanded)
    {
      config := DefaultConfig(version);
    }

    /** `LoadConfig`: adopt the stored configuration, migrating it when its tag is older than the plugin's. */
    method LoadConfig(stored: Configuration)
      modifies this
      ensures config == Loaded(stored, version)
      ensures disbanded == old(disbanded)
    {
      config := stored;
      if Compare(config.version, Some(version)) < 0 {
        UpdateConfig();
      }
    }

    /** `UpdateConfig`: reset a pre-release configuration to the defaults, then stamp the running version. */
    method UpdateConfig()
      modifies this
      ensures config == Updated(old(config), version)
      ensures disbanded == old(disbanded)
    {
      var defaultConfig := DefaultConfig(version);
      if Compare(config.version, Some(FirstRelease)) < 0 {
        config := defaultConfig;
      }
      config := config.(version := Some(version));
    }

    /**
     `OnPlayerDeath`: disband the victim's team when the decision says so. At
     most one team is disbanded per event, and only the victim's own.
     */
    method OnPlayerDeath(server: Option<TeamIndex>, victim: Option<Player>, deathInfo: Option<DeathInfo>)
      modifies this
      ensures config == old(config)
      ensures disbanded == old(disbanded) + Disbanded(Decide(config, server, victim, deathInfo))
    {
      if victim.None? || deathInfo.None? {
        return;
      }
      var team := GetTeam(server, victim.value.id);
      if team.None? || team.value.leader != victim.value.id {
        return;
      }
      var attacker := deathInfo.value.initiatorPlayer;
      var animalAttacker := deathInfo.value.initiatorIsAnimal;
      if attacker.Some? && attacker.value.id == victim.value.id {
        return;
      }
      if attacker.Some? && config.disbandIfKilledByPlayer && AreEnemies(server, attacker.value.id, victim.value.id) {
        disbanded := disbanded + [team.value.id];
        return;
      }
      if animalAttacker && config.disbandIfKilledByAnimal {
        disbanded := disbanded + [team.value.id];
        return;
      }
      if attacker.Some? && attacker.value.isNpc && config.disbandIfKilledByNpc {
        disbanded := disbanded + [team.value.id];
      }
    }
  }
}
