/**
 * The core plugin: how a user's permission level in a guild is resolved from
 * the guild's configured staff roles, and the two predicates built on it.
 */
module Core {
  import opened Wrappers
  import opened CoreApi

  /** `List.Contains` over a list of ids: a linear scan from the front. */
  function Contains(ids: seq<Snowflake>, id: Snowflake): (found: bool)
    ensures found <==> id in ids
  {
    if ids == [] then false
    else ids[0] == id || Contains(ids[1..], id)
  }

  /** The projection `roles.Select(r => r.Id).ToList()`. */
  function RoleIds(roles: seq<Role>): (ids: seq<Snowflake>)
    ensures |ids| == |roles|
    ensures forall i :: 0 <= i < |roles| ==> ids[i] == roles[i].id
  {
    if roles == [] then []
    else [roles[0].id] + RoleIds(roles[1..])
  }

  /** The member holds some role whose identifier is `id`. */
  ghost predicate HoldsRole(member: Member, id: Snowflake) {
    exists r :: r in member.roles && r.id == id
  }

  /**
   * Every tier the member qualifies for: Default always, Administrator through
   * the Administrator permission or the administrator role, Moderator and
   * Guru through their roles.
   */
  ghost function GrantedLevels(rc: RoleConfiguration, member: Member): set<PermissionLevel> {
    {Default}
    + (if member.hasAdministratorPermission || HoldsRole(member, rc.administratorRoleId)
       then {Administrator} else {})
    + (if HoldsRole(member, rc.moderatorRoleId) then {Moderator} else {})
    + (if HoldsRole(member, rc.guruRoleId) then {Guru} else {})
  }

  /** `level` is the highest tier the member qualifies for. */
  ghost predicate IsHighestGranted(level: PermissionLevel, rc: RoleConfiguration, member: Member) {
    && level in GrantedLevels(rc, member)
    && forall l :: l in GrantedLevels(rc, member) ==> l.Rank() <= level.Rank()
  }

  /**
   * The tier chain applied to a guild member: the Administrator permission,
   * then the administrator, moderator and guru roles, in that order.
   */
  function MemberLevel(rc: RoleConfiguration, member: Member): (level: PermissionLevel)
    ensures IsHighestGranted(level, rc, member)
    ensures member.hasAdministratorPermission ==> level == Administrator
    ensures level == Default <==> GrantedLevels(rc, member) == {Default}
  {
    if member.hasAdministratorPermission then Administrator
    else
      var roles := RoleIds(member.roles);
      if Contains(roles, rc.administratorRoleId) then Administrator
      else if Contains(roles, rc.moderatorRoleId) then Moderator
      else if Contains(roles, rc.guruRoleId) then Guru
      else Default
  }

  /** The service that holds each guild's configuration. */
  class ConfigurationService {
    /** The configuration the service holds for each guild. */
    const lookup: Guild -> GuildConfiguration

    constructor (lookup: Guild -> GuildConfiguration)
      ensures this.lookup == lookup
    {
      this.lookup := lookup;
    }

    function GetGuildConfiguration(guild: Guild): GuildConfiguration {
      lookup(guild)
    }
  }

  class CorePlugin {
    /** The configuration service; null until the plugin is loaded. */
    var configurationService: ConfigurationService?

    constructor ()
      ensures configurationService == null
    {
      configurationService := null;
    }

    /** The part of loading that matters here: the configuration service is set. */
    method OnLoad(service: ConfigurationService)
      modifies this
      ensures configurationService == service
    {
      configurationService := service;
    }

    /** The configuration for `guild` that the plugin can currently see, if any. */
    function GuildConfigurationOf(guild: Guild): Option<GuildConfiguration>
      reads this
    {
      if configurationService == null then None
      else Some(configurationService.GetGuildConfiguration(guild))
    }

    /**
     * Retrieves the configuration for `guild`: it fails, leaving the
     * configuration null, exactly when no configuration service is set.
     */
    method TryGetGuildConfiguration(guild: Guild) returns (success: bool, configuration: Option<GuildConfiguration>)
      ensures success <==> configurationService != null
      ensures success <==> configuration.Some?
      ensures success ==> configuration.value == configurationService.GetGuildConfiguration(guild)
      ensures configuration == GuildConfigurationOf(guild)
    {
      if configurationService == null {
        configuration := None;
        return false, configuration;
      }
      configuration := Some(configurationService.GetGuildConfiguration(guild));
      success := true;
    }

    /**
     * The permission level of `user` in `guild`: Default when the guild has no
     * configuration or the user is not a member, otherwise the highest tier
     * the member qualifies for. A null argument raises ArgumentNullException.
     */
    function GetPermissionLevel(user: Option<User>, guild: Option<Guild>): (r: Result<PermissionLevel, ArgumentNullException>)
      reads this
      ensures user.None? ==> r == Failure(ArgumentNullException("user"))
      ensures user.Some? && guild.None? ==> r == Failure(ArgumentNullException("guild"))
      ensures r.Success? <==> user.Some? && guild.Some?
      ensures r.Success? && GuildConfigurationOf(guild.value).None? ==> r.value == Default
      ensures r.Success? && user.value.id !in guild.value.members ==> r.value == Default
      ensures r.Success? && GuildConfigurationOf(guild.value).Some? && user.value.id in guild.value.members ==>
                IsHighestGranted(r.value, GuildConfigurationOf(guild.value).value.roleConfiguration,
                                 guild.value.members[user.value.id])
    {
      if user.None? then Failure(ArgumentNullException("user"))
      else if guild.None? then Failure(ArgumentNullException("guild"))
      else
        match GuildConfigurationOf(guild.value)
        case None => Success(Default)
        case Some(configuration) =>
          var members := guild.value.members;
          if user.value.id !in members then Success(Default)
          else Success(MemberLevel(configuration.roleConfiguration, members[user.value.id]))
    }

    /**
     * Whether `user` has a strictly higher permission level than `other` in
     * `guild`. A null argument raises ArgumentNullException; the arguments are
     * checked in the order user, other, guild.
     */
    function IsHigherLevelThan(user: Option<User>, other: Option<User>, guild: Option<Guild>): (r: Result<bool, ArgumentNullException>)
      reads this
      ensures user.None? ==> r == Failure(ArgumentNullException("user"))
      ensures user.Some? && other.None? ==> r == Failure(ArgumentNullException("other"))
      ensures user.Some? && other.Some? && guild.None? ==> r == Failure(ArgumentNullException("guild"))
      ensures r.Success? <==> user.Some? && other.Some? && guild.Some?
      ensures r.Success? ==>
                (r.value <==> GetPermissionLevel(user, guild).value.Rank() > GetPermissionLevel(other, guild).value.Rank())
      ensures r.Success? && user == other ==> !r.value
    {
      if user.None? then Failure(ArgumentNullException("user"))
      else if other.None? then Failure(ArgumentNullException("other"))
      else if guild.None? then Failure(ArgumentNullException("guild"))
      else
        var mine := GetPermissionLevel(user, guild).value;
        var theirs := GetPermissionLevel(other, guild).value;
        Success(mine.Rank() > theirs.Rank())
    }

    /**
     * Whether `user` is a staff member of `guild`: a Moderator or an
     * Administrator. Null arguments raise what GetPermissionLevel raises.
     */
    function IsStaffMember(user: Option<User>, guild: Option<Guild>): (r: Result<bool, ArgumentNullException>)
      reads this
      ensures user.None? ==> r == Failure(ArgumentNullException("user"))
      ensures user.Some? && guild.None? ==> r == Failure(ArgumentNullException("guild"))
      ensures r.Success? <==> user.Some? && guild.Some?
      ensures r.Success? ==> (r.value <==> GetPermissionLevel(user, guild).value in {Moderator, Administrator})
    {
      match GetPermissionLevel(user, guild)
      case Failure(e) => Failure(e)
      case Success(level) => Success(level.Rank() >= Moderator.Rank())
    }
  }
}
