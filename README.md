# BrackeysBot core plugin: permission levels

This project models the permission-level rules of the BrackeysBot core plugin
(`CorePlugin`, which implements `ICorePlugin`) and proves properties about them.
A user in a guild gets one of four tiers: Default, Guru, Moderator or
Administrator. The tier is resolved by a fixed chain of checks:

1. A null user or guild raises `ArgumentNullException`.
2. A guild with no configuration gives Default.
3. A user who is not a guild member gives Default.
4. A member with the Administrator permission is Administrator.
5. Otherwise the configured administrator, moderator and guru role ids are
   tested in that order.
6. If no role matches, the result is Default.

`IsHigherLevelThan` compares two resolved levels strictly. `IsStaffMember`
tests for Moderator or higher. `TryGetGuildConfiguration` fails exactly when
the plugin's configuration service has not been set. The service is set
while the plugin loads.

Modules:

- `Wrappers` (`wrappers.dfy`): `Option` stands for a C# reference that may be
  null. `Result` is a value or the exception that would have been thrown.
- `CoreApi` (`core_api.dfy`): the API types. `PermissionLevel` has a rank
  from 0 to 3, a snowflake id is an unsigned 64-bit integer, and there are
  users, roles, members, guilds, the role configuration, the guild
  configuration and `ArgumentNullException`, which carries the parameter name.
- `Core` (`core_plugin.dfy`): the class `CorePlugin`. Its field
  `configurationService` is a nullable reference that starts out null. The
  module also holds:
  - the class `ConfigurationService`;
  - the pure tier chain `MemberLevel`;
  - `Contains` (`List.Contains`) and `RoleIds` (the `Select(r => r.Id)`
    projection).
- `PermissionProperties` (`permission_properties.dfy`): lemmas that relate
  several calls to each other.

The contracts come from the documented behaviour in
`BrackeysBot.Core.API/ICorePlugin.cs`:

- `GetPermissionLevel`: lines 24-41.
- `IsHigherLevelThan`: lines 54-71.
- `IsStaffMember`: lines 73-81.
- `TryGetGuildConfiguration`: lines 95-107.

The interface documents no exception for `IsStaffMember`. The code does
raise one: it calls `GetPermissionLevel`, which raises `ArgumentNullException`
for a null user or guild. The model follows the code.

A "highest granted tier" reference definition states the meaning of the tier
chain. `GrantedLevels` is the set of every tier the member qualifies for:

- Default always;
- Administrator through the permission or the administrator role;
- Moderator and Guru through their roles.

`MemberLevel` is proved to return the highest-ranked element of that set.

The rank order Default < Guru < Moderator < Administrator is inferred from
two places in the code: the order of the checks
(`BrackeysBot.Core/CorePlugin.cs:63-65`) and the `>= Moderator` test (line
90). The enum declaration itself is not part of this model.

## Model

| member | source | states |
|---|---|---|
| `Core.Contains` | BrackeysBot.Core/CorePlugin.cs:63-65 | The list test finds an id exactly when the id occurs in the list. |
| `Core.RoleIds` | BrackeysBot.Core/CorePlugin.cs:61 | The projection keeps the length, and the id at each position is the id of the role at that position. |
| `Core.MemberLevel` | BrackeysBot.Core/CorePlugin.cs:57-67 | The member's level is the highest-ranked tier the member qualifies for. The Administrator permission gives Administrator whatever the roles. The level is Default exactly when no other tier is granted. |
| `Core.CorePlugin.TryGetGuildConfiguration` | BrackeysBot.Core/CorePlugin.cs:109-120 | Succeeds exactly when the configuration service is set. On success the configuration is non-null and is the service's configuration for the guild. On failure it is null. |
| `Core.CorePlugin.GetPermissionLevel` | BrackeysBot.Core/CorePlugin.cs:46-68 | A null user raises ArgumentNullException("user"). Otherwise a null guild raises ArgumentNullException("guild"). With both present it always succeeds. An unconfigured guild or a non-member gives Default. Otherwise the result is the highest tier the member qualifies for. |
| `Core.CorePlugin.IsHigherLevelThan` | BrackeysBot.Core/CorePlugin.cs:78-85 | Null user, other and guild raise ArgumentNullException, checked in that order. With all three present the result is true exactly when the user's level ranks strictly above the other's. A user is never higher than themself. |
| `Core.CorePlugin.IsStaffMember` | BrackeysBot.Core/CorePlugin.cs:88-91 | Raises what GetPermissionLevel raises. Otherwise the result is true exactly when the level is Moderator or Administrator. |
| `Core.CorePlugin.constructor` | BrackeysBot.Core/CorePlugin.cs:32 | A new plugin has no configuration service. |
| `Core.CorePlugin.OnLoad` | BrackeysBot.Core/CorePlugin.cs:140 | Loading sets the configuration service to the one supplied. |
| `PermissionProperties.LevelDependsOnlyOnRoleIdSet` | BrackeysBot.Core/CorePlugin.cs:60-65 | Two members with the same Administrator permission and the same set of role ids get the same level. |
| `PermissionProperties.ReorderedRolesSameLevel` | BrackeysBot.Core/CorePlugin.cs:61-65 | Reordering a member's roles (any permutation) does not change the level. |
| `PermissionProperties.DuplicatedRoleSameLevel` | BrackeysBot.Core/CorePlugin.cs:61-65 | Adding a second copy of a role the member already holds does not change the level. |
| `PermissionProperties.ExtraRoleNeverLowersLevel` | BrackeysBot.Core/CorePlugin.cs:60-67 | Giving a member one more role never lowers their level. |
| `PermissionProperties.UnloadedPluginGrantsDefault` | BrackeysBot.Core/CorePlugin.cs:51-52 | With no configuration service, every user is Default and nobody is staff. |
| `PermissionProperties.StaffMembership` | BrackeysBot.Core/CorePlugin.cs:90 | A user is staff exactly when all of these hold: the guild is configured, the user is a member, and the member has the Administrator permission or holds the administrator or moderator role. The guru role plays no part. |
| `PermissionProperties.IsHigherLevelThanAsymmetric` | BrackeysBot.Core/CorePlugin.cs:84 | IsHigherLevelThan never holds in both directions. |
| `PermissionProperties.IsHigherLevelThanTransitive` | BrackeysBot.Core/CorePlugin.cs:84 | If a is higher than b and b is higher than c, then a is higher than c. |
| `PermissionProperties.StaffOutranksNonStaff` | BrackeysBot.Core/CorePlugin.cs:84-90 | A staff member is higher than any user who is not staff. |

## Left out

- The Discord permission bitmask: the test `(member.Permissions & Administrator) != 0` is a boolean, `hasAdministratorPermission`. The flag values belong to the chat library.
- `ConfigurationService.GetGuildConfiguration`: its code is not part of this model. It is a fixed total lookup from guild to configuration, given when the service is created. How it loads or stores configurations is not modelled.
- `LogAsync`: an asynchronous delegation to the staff log service, whose code is not part of this model.
- `RegisterUserInfoField`: both overloads, and the built-in fields `RegisterUserInfoFields` adds. They hand builders to the user-info service, whose code is not part of this model, and they format strings and timestamps through the chat library.
- `ConfigureServices`: dependency injection. The rest of `OnLoad` (reading the log and user-info services, registering commands, subscribing to events) and the `GuildAvailable` handler are host wiring and asynchronous events. Only loading's assignment of the configuration service is modelled.
- The static `ICorePlugin.Current` singleton set by the constructor: global host state, not behaviour.
- `ChannelConfiguration`: a single JSON-bound channel id with no behaviour.
- Users, guilds and members carry only the fields permission resolution reads: ids, the member map, the Administrator permission and the role ids.
