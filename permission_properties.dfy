/**
 * Properties that relate several permission resolutions: the result depends
 * only on which role ids a member holds, extra roles never lower it, and
 * IsHigherLevelThan is a strict order.
 */
module PermissionProperties {
  import opened Wrappers
  import opened CoreApi
  import opened Core

  /** The set of role identifiers a member holds. */
  ghost function RoleIdSet(member: Member): set<Snowflake> {
    set r | r in member.roles :: r.id
  }

  /** Holding a role with an id is the same as that id being in the member's id set. */
  lemma HoldsRoleIffInRoleIdSet(member: Member, id: Snowflake)
    ensures HoldsRole(member, id) <==> id in RoleIdSet(member)
  {
  }

  /** Two members with the same Administrator permission and the same role ids resolve alike. */
  lemma LevelDependsOnlyOnRoleIdSet(rc: RoleConfiguration, m1: Member, m2: Member)
    requires m1.hasAdministratorPermission == m2.hasAdministratorPermission
    requires RoleIdSet(m1) == RoleIdSet(m2)
    ensures MemberLevel(rc, m1) == MemberLevel(rc, m2)
  {
    HoldsRoleIffInRoleIdSet(m1, rc.administratorRoleId);
    HoldsRoleIffInRoleIdSet(m2, rc.administratorRoleId);
    HoldsRoleIffInRoleIdSet(m1, rc.moderatorRoleId);
    HoldsRoleIffInRoleIdSet(m2, rc.moderatorRoleId);
    HoldsRoleIffInRoleIdSet(m1, rc.guruRoleId);
    HoldsRoleIffInRoleIdSet(m2, rc.guruRoleId);
    assert GrantedLevels(rc, m1) == GrantedLevels(rc, m2);
  }

  /** Reordering a member's roles does not change the level. */
  lemma ReorderedRolesSameLevel(rc: RoleConfiguration, m: Member, roles: seq<Role>)
    requires multiset(roles) == multiset(m.roles)
    ensures MemberLevel(rc, m.(roles := roles)) == MemberLevel(rc, m)
  {
    var m' := m.(roles := roles);
    forall id | id in RoleIdSet(m) ensures id in RoleIdSet(m') {
      var r :| r in m.roles && r.id == id;
      assert r in multiset(m.roles);
    }
    forall id | id in RoleIdSet(m') ensures id in RoleIdSet(m) {
      var r :| r in roles && r.id == id;
      assert r in multiset(roles);
    }
    LevelDependsOnlyOnRoleIdSet(rc, m', m);
  }

  /** Holding a role a second time does not change the level. */
  lemma DuplicatedRoleSameLevel(rc: RoleConfiguration, m: Member, i: nat)
    requires i < |m.roles|
    ensures MemberLevel(rc, m.(roles := m.roles + [m.roles[i]])) == MemberLevel(rc, m)
  {
  }

  /** Granting a member one more role never lowers the level. */
  lemma ExtraRoleNeverLowersLevel(rc: RoleConfiguration, m: Member, role: Role)
    ensures MemberLevel(rc, m.(roles := m.roles + [role])).Rank() >= MemberLevel(rc, m).Rank()
  {
  }

  /** Before the configuration service is set, every user is Default and nobody is staff. */
  lemma UnloadedPluginGrantsDefault(p: CorePlugin, user: User, guild: Guild)
    requires p.configurationService == null
    ensures p.GetPermissionLevel(Some(user), Some(guild)) == Success(Default)
    ensures p.IsStaffMember(Some(user), Some(guild)) == Success(false)
  {
  }

  /**
   * A user is staff exactly when the guild is configured, the user is a member,
   * and the member has the Administrator permission or holds the administrator
   * or moderator role; the guru role plays no part.
   */
  lemma StaffMembership(p: CorePlugin, user: User, guild: Guild)
    ensures p.IsStaffMember(Some(user), Some(guild)) == Success(true) <==>
              && p.GuildConfigurationOf(guild).Some?
              && user.id in guild.members
              && var rc := p.GuildConfigurationOf(guild).value.roleConfiguration;
                 var m := guild.members[user.id];
                 (m.hasAdministratorPermission || HoldsRole(m, rc.administratorRoleId) || HoldsRole(m, rc.moderatorRoleId))
  {
  }

  /** IsHigherLevelThan never holds in both directions. */
  lemma IsHigherLevelThanAsymmetric(p: CorePlugin, user: User, other: User, guild: Guild)
    ensures !(p.IsHigherLevelThan(Some(user), Some(other), Some(guild)) == Success(true) &&
              p.IsHigherLevelThan(Some(other), Some(user), Some(guild)) == Success(true))
  {
  }

  /** IsHigherLevelThan is transitive within one guild. */
  lemma IsHigherLevelThanTransitive(p: CorePlugin, a: User, b: User, c: User, guild: Guild)
    requires p.IsHigherLevelThan(Some(a), Some(b), Some(guild)) == Success(true)
    requires p.IsHigherLevelThan(Some(b), Some(c), Some(guild)) == Success(true)
    ensures p.IsHigherLevelThan(Some(a), Some(c), Some(guild)) == Success(true)
  {
  }

  /** A staff member is higher than every user who is not staff. */
  lemma StaffOutranksNonStaff(p: CorePlugin, user: User, other: User, guild: Guild)
    requires p.IsStaffMember(Some(user), Some(guild)) == Success(true)
    requires p.IsStaffMember(Some(other), Some(guild)) == Success(false)
    ensures p.IsHigherLevelThan(Some(user), Some(other), Some(guild)) == Success(true)
  {
  }
}
