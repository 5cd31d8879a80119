/**
 * The types of the core plugin's public API: permission levels, the guild
 * configuration it reads, and the parts of the chat library's users, guilds
 * and members that permission resolution looks at.
 */
module CoreApi {

  /** A Discord identifier (a snowflake): an unsigned 64-bit integer. */
  type Snowflake = x: int | 0 <= x < 0x1_0000_0000_0000_0000

  /** The permission tiers of a guild, from lowest to highest. */
  datatype PermissionLevel = Default | Guru | Moderator | Administrator {

    /** The tier's position in the hierarchy; levels are compared by it. */
    function Rank(): nat {
      match this
      case Default => 0
      case Guru => 1
      case Moderator => 2
      case Administrator => 3
    }
  }

  /** The role identifiers that a guild assigns to each staff tier. */
  datatype RoleConfiguration = RoleConfiguration(
    administratorRoleId: Snowflake,
    moderatorRoleId: Snowflake,
    guruRoleId: Snowflake)

  /** The per-guild configuration; only its role configuration matters here. */
  datatype GuildConfiguration = GuildConfiguration(roleConfiguration: RoleConfiguration)

  /** A Discord user, identified by its id. */
  datatype User = User(id: Snowflake)

  /** A role of a guild. */
  datatype Role = Role(id: Snowflake)

  /**
   * A user's membership of a guild: whether the member's permissions include
   * the Administrator permission, and the roles the member holds.
   */
  datatype Member = Member(hasAdministratorPermission: bool, roles: seq<Role>)

  /** A guild and its current members, keyed by user id. */
  datatype Guild = Guild(id: Snowflake, members: map<Snowflake, Member>)

  /** The exception raised for a null argument, naming the parameter. */
  datatype ArgumentNullException = ArgumentNullException(paramName: string)
}
