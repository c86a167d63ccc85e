# Leaderless Team Disband — a verified model

Leaderless Team Disband is a game-server plugin that breaks up a team when its
leader dies. On each player death it checks that the victim leads a team and
did not kill themself. It then applies three configurable killer rules, in order:

- an enemy player, with "Disband If Killed By Player";
- a wild animal, with "Disband If Killed By Animal";
- an NPC, with "Disband If Killed By NPC".

The first rule that fires disbands the victim's team. The plugin also keeps a
versioned configuration of those three flags. It migrates the configuration
forward when it loads it.

The model has three modules:

- `Wrappers` (`wrappers.dfy`): an `Option` type that stands for a C# reference
  that may be null.
- `StringCompare` (`string_compare.dfy`): `string.Compare`, which orders version
  tags. It is modelled as ordinal lexicographic order. A null string sorts below
  every string, and two nulls are equal. The module proves that this order is
  antisymmetric, transitive and total.
- `LeaderlessTeamDisband` (`leaderless_team_disband.dfy`):
  - the host entities as values: players, teams, the team index, and the death
    information;
  - the configuration record, its defaults, and the pure migration functions
    `Updated` and `Loaded`;
  - the team lookups `GetTeam` and `AreEnemies`;
  - the death handler as a pure decision, `Decide`;
  - the class `Plugin`, whose methods change the active configuration and log
    every `team.Disband()` call. Each method is proved against the pure
    functions.

Host objects become parameters:

- The relationship registry is an `Option<map<PlayerId, Team>>`. `None` means
  the registry singleton is absent. A player without a team has no entry.
- Teams are identified by their id, which stands for reference identity.
- Players are identified by their user id. An NPC is a player with `isNpc` set.
- The death information holds the initiating player (if any) and a flag that
  says whether the initiator is an animal.

The killer categories are not mutually exclusive. An NPC initiator is
a player (`InitiatorPlayer`, LeaderlessTeamDisband.cs:108). So the player rule
at line 114 sees an NPC before the NPC rule at line 126 does. An enemy NPC
therefore disbands a leader's team whenever the player flag is on, even with
the NPC flag off (`NpcKilledThroughPlayerRule`).

## Model

| member | source | states |
|---|---|---|
| `StringCompare.CompareOrdinal` | LeaderlessTeamDisband.cs:44 | The result is -1, 0 or 1. It is 0 exactly when the two strings are equal. A proper prefix sorts first. |
| `StringCompare.CompareOrdinalAntisymmetric` | LeaderlessTeamDisband.cs:44 | Swapping the operands of the ordinal comparison negates the result. |
| `StringCompare.CompareOrdinalTransitive` | LeaderlessTeamDisband.cs:44 | The ordinal "sorts below" relation is transitive. |
| `StringCompare.Compare` | LeaderlessTeamDisband.cs:44 | This is `string.Compare` with null operands. The result is 0 exactly when the operands are equal. Null sorts below every string, and every string sorts above null. |
| `StringCompare.CompareAntisymmetric` | LeaderlessTeamDisband.cs:66 | Swapping the operands of the version comparison negates the result, nulls included. |
| `StringCompare.CompareTransitive` | LeaderlessTeamDisband.cs:66 | If a < b and b <= c, then a < c. This also holds with nulls. |
| `StringCompare.CompareTotal` | LeaderlessTeamDisband.cs:44 | Any two tags are either equal or one sorts below the other. |
| `StringCompare.OrdinalIsNotNumeric` | LeaderlessTeamDisband.cs:44 | The tag "1.10.0" sorts below "1.9.0": the order on tags is not numeric. |
| `LeaderlessTeamDisband.DefaultConfig` | LeaderlessTeamDisband.cs:73-82 | The defaults carry the running version tag, with the player flag on and the NPC and animal flags off. |
| `LeaderlessTeamDisband.Updated` | LeaderlessTeamDisband.cs:60-71 | After an update the tag is the running version. The flags become the defaults when the old tag is below "1.0.0". Otherwise the flags are unchanged. |
| `LeaderlessTeamDisband.Loaded` | LeaderlessTeamDisband.cs:39-48 | A tag below the running version is raised to it. A config below both the running version and "1.0.0" becomes the defaults. No other load changes a flag. A current or newer config is returned unchanged. The result is never below the running version. |
| `LeaderlessTeamDisband.LoadedIdempotent` | LeaderlessTeamDisband.cs:39-48 | Loading an already-loaded config changes nothing. |
| `LeaderlessTeamDisband.LoadedNeverDowngrades` | LeaderlessTeamDisband.cs:44-45 | Loading never moves the version tag backwards. |
| `LeaderlessTeamDisband.LoadedResetsPreReleaseConfig` | LeaderlessTeamDisband.cs:60-71 | Suppose the running version is at least "1.0.0". Then every stored config below "1.0.0", including a null tag, loads as the defaults. |
| `LeaderlessTeamDisband.LoadedShippedVersion` | LeaderlessTeamDisband.cs:44-70 | Under the shipped version "1.0.0", a load either resets the config to the defaults or leaves it exactly as stored. |
| `LeaderlessTeamDisband.LoadedSkipsNonNumericUpgrade` | LeaderlessTeamDisband.cs:44-45 | Under a running version "1.10.0", a stored "1.9.0" configuration is not migrated: it loads unchanged and keeps its tag. |
| `LeaderlessTeamDisband.GetTeam` | LeaderlessTeamDisband.cs:134-140 | A team is found exactly when the registry exists and the player has an entry. The team found is that entry. |
| `LeaderlessTeamDisband.AreEnemies` | LeaderlessTeamDisband.cs:142-147 | Two players are enemies exactly when they do not both resolve to the same team. A player without a team is everyone's enemy. |
| `LeaderlessTeamDisband.AreEnemiesSymmetric` | LeaderlessTeamDisband.cs:142-147 | Being enemies is symmetric. |
| `LeaderlessTeamDisband.Disbanded` | LeaderlessTeamDisband.cs:116-127 | A decision disbands nothing when it keeps the team. A disband decision disbands exactly its one team. |
| `LeaderlessTeamDisband.Decide` | LeaderlessTeamDisband.cs:99-128 | An absent victim or death info means no disband. A disband happens only on a leader's death and only to that leader's team. A self-inflicted death never disbands. Each disband names a rule that fired, and no earlier rule fired. Conversely, a leader's death that is not self-inflicted disbands whenever any rule fires. |
| `LeaderlessTeamDisband.NonLeaderKeeps` | LeaderlessTeamDisband.cs:104-106 | A victim who has no team, or does not lead it, never causes a disband, whatever the flags or killer. |
| `LeaderlessTeamDisband.SelfKillKeeps` | LeaderlessTeamDisband.cs:111-112 | A self-inflicted death never disbands, whatever the flags. |
| `LeaderlessTeamDisband.EnvironmentalDeathKeeps` | LeaderlessTeamDisband.cs:108-127 | A death with neither an initiating player nor an animal never disbands, whatever the flags. |
| `LeaderlessTeamDisband.EnemyPlayerDisbands` | LeaderlessTeamDisband.cs:114-118 | With the player flag on, a leader killed by another player who is an enemy has the team disbanded by the player rule. |
| `LeaderlessTeamDisband.TeammateKillKeeps` | LeaderlessTeamDisband.cs:114-118 | A leader killed by a human teammate keeps the team, whatever the flags. |
| `LeaderlessTeamDisband.NpcKilledThroughPlayerRule` | LeaderlessTeamDisband.cs:114-127 | With the player flag on and the NPC flag off, an enemy NPC still disbands the leader's team, through the player rule. |
| `LeaderlessTeamDisband.NpcKillDisbands` | LeaderlessTeamDisband.cs:126-127 | With the NPC flag on, a leader killed by any NPC other than themself has the team disbanded. |
| `LeaderlessTeamDisband.AnimalRuleIff` | LeaderlessTeamDisband.cs:120-124 | A leader killed by an animal, with no initiating player, has the team disbanded exactly when the animal flag is on. |
| `LeaderlessTeamDisband.MoreFlagsNeverKeep` | LeaderlessTeamDisband.cs:114-127 | Turning a rule flag on never turns a disband into a keep. |
| `LeaderlessTeamDisband.Plugin.constructor` | LeaderlessTeamDisband.cs:18 | The plugin, once the host has set it up, holds the given configuration and an empty disband log. |
| `LeaderlessTeamDisband.Plugin.LoadDefaultConfig` | LeaderlessTeamDisband.cs:50-53 | The active configuration becomes the defaults for the running version. |
| `LeaderlessTeamDisband.Plugin.LoadConfig` | LeaderlessTeamDisband.cs:39-48 | The active configuration becomes `Loaded(stored, version)`. No team is disbanded. |
| `LeaderlessTeamDisband.Plugin.UpdateConfig` | LeaderlessTeamDisband.cs:60-71 | The active configuration becomes `Updated` of the old one. No team is disbanded. |
| `LeaderlessTeamDisband.Plugin.OnPlayerDeath` | LeaderlessTeamDisband.cs:99-128 | The early-return handler appends exactly the teams of `Decide` to the disband log. That is at most one team, and only the victim's own. The configuration is unchanged. |

## Left out

- Plugin lifecycle (`Init`, `Unload`, the static `_plugin` reference, LeaderlessTeamDisband.cs:17, 88-97): host runtime with no logic. The static `_config` starts as null and stays null until `LoadConfig` or `LoadDefaultConfig` runs, and `Unload` resets it to null. The model has no state without a configuration: its constructor stands for the plugin after host setup.
- Persistence (`base.LoadConfig`, `Config.ReadObject`, `SaveConfig`/`Config.WriteObject`, LeaderlessTeamDisband.cs:41-42, 47, 55-58): JSON file I/O. `LoadConfig` takes the record that was read as a parameter. A missing file, or a `ReadObject` that returns null, is not modelled.
- Logging (`PrintWarning`, LeaderlessTeamDisband.cs:62, 69): console output only.
- StringCompare.Compare: models `string.Compare` as ordinal order. The real comparison follows the current culture's rules. No semantic-version meaning is claimed for either.
- Host types (`RelationshipManager`, `BasePlayer`, `HitInfo`, `BaseNpc`, `PlayerTeam.Disband`): the model replaces them with values. It does not model how `InitiatorPlayer` and the animal initiator are derived from the death info. The two are independent inputs, so the model also covers a death info in which both are present.
- `team.Disband()`: its effect on the host is not modelled. The plugin only records which team it asked to disband.
- Configuration object identity: the configuration is a value. The model does not capture that `UpdateConfig` writes the version into an object that nothing else references.
