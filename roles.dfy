/** Role and capability rules of index.js: `hasAnyRole`, `isStaff`, the approver check of
    the approval menu, the fixed team and category tables, and `findTeamRoleByCategory`. */
module Roles {
  import opened Common
  import opened Text

  /** The acting member, as the handlers see it: the user's id and tag, the ids and
      the names of the member's roles, and whether the member has ManageChannels. */
  datatype Actor = Actor(userId: string, tag: string, roleIds: set<string>, roleNames: set<string>,
                         manageChannels: bool)

  /** A guild role. */
  datatype Role = Role(id: string, name: string)

  /** The environment variables the handlers read. */
  datatype Config = Config(ticketCategoryId: string, logChannelId: string, approvalChannelId: string,
                           sessionChannelId: string, ccrRoleId: string, scrRoleId: string)

  /** `TEAM_ROLE_NAMES`. */
  const TeamRoleNames: seq<string> :=
    ["Game Team", "Chain Team", "Support Team", "QA Team", "Media Team", "Event Team"]

  /** One entry of `CATEGORY_OPTIONS`. */
  datatype CategoryOption = CategoryOption(labelText: string, value: string, roleName: string)

  const CategoryOptions: seq<CategoryOption> := [
    CategoryOption("General Support", "general-support", "General Support"),
    CategoryOption("Staff Report", "staff-report", "Staff Report"),
    CategoryOption("Management Support", "management-support", "Management Support")
  ]

  /** One entry of a `hasAnyRole` list: an all-digit entry names a role id, any other
      entry a role name, compared exactly. */
  predicate EntryMatches(a: Actor, entry: string) {
    if IsDigitString(entry) then entry in a.roleIds else entry in a.roleNames
  }

  /** `hasAnyRole`: some entry of the list matches. */
  function HasAnyRole(a: Actor, entries: seq<string>): (b: bool)
    ensures b <==> exists i :: 0 <= i < |entries| && EntryMatches(a, entries[i])
  {
    if entries == [] then false
    else EntryMatches(a, entries[0]) || HasAnyRole(a, entries[1..])
  }

  function StaffEntries(cfg: Config): seq<string> {
    [cfg.ccrRoleId, cfg.scrRoleId] + TeamRoleNames
  }

  /** `isStaff`: the CCR role, the SCR role or any of the team roles. */
  function IsStaff(cfg: Config, a: Actor): bool {
    HasAnyRole(a, StaffEntries(cfg))
  }

  /** The approval menu's gate: the CCR or SCR role, and nothing else. */
  function IsApprover(cfg: Config, a: Actor): bool {
    HasAnyRole(a, [cfg.ccrRoleId, cfg.scrRoleId])
  }

  lemma TeamNamesAreNames()
    ensures forall k :: 0 <= k < |TeamRoleNames| ==> !IsDigitString(TeamRoleNames[k])
  {
    forall k | 0 <= k < |TeamRoleNames|
      ensures !IsDigitString(TeamRoleNames[k])
    {
      assert !IsAsciiDigit(TeamRoleNames[k][0]);
    }
  }

  /** With the two staff roles configured as ids, a member is staff exactly when it
      holds one of those ids or a role named after one of the teams. */
  lemma IsStaffCharacterised(cfg: Config, a: Actor)
    requires IsDigitString(cfg.ccrRoleId) && IsDigitString(cfg.scrRoleId)
    ensures IsStaff(cfg, a) <==>
              || cfg.ccrRoleId in a.roleIds
              || cfg.scrRoleId in a.roleIds
              || exists k :: 0 <= k < |TeamRoleNames| && TeamRoleNames[k] in a.roleNames
  {
    TeamNamesAreNames();
    var es := StaffEntries(cfg);
    assert forall k :: 0 <= k < |TeamRoleNames| ==> es[k + 2] == TeamRoleNames[k];
    if exists k :: 0 <= k < |TeamRoleNames| && TeamRoleNames[k] in a.roleNames {
      var k :| 0 <= k < |TeamRoleNames| && TeamRoleNames[k] in a.roleNames;
      assert EntryMatches(a, es[k + 2]);
    }
    assert es[0] == cfg.ccrRoleId && es[1] == cfg.scrRoleId;
    if cfg.ccrRoleId in a.roleIds {
      assert EntryMatches(a, es[0]);
    }
    if cfg.scrRoleId in a.roleIds {
      assert EntryMatches(a, es[1]);
    }
    if IsStaff(cfg, a) {
      var i :| 0 <= i < |es| && EntryMatches(a, es[i]);
      if i >= 2 {
        assert TeamRoleNames[i - 2] in a.roleNames;
      }
    }
  }

  /** With the two staff roles configured as ids, only those ids make an approver:
      role names, the team names included, play no part. */
  lemma IsApproverCharacterised(cfg: Config, a: Actor)
    requires IsDigitString(cfg.ccrRoleId) && IsDigitString(cfg.scrRoleId)
    ensures IsApprover(cfg, a) <==> cfg.ccrRoleId in a.roleIds || cfg.scrRoleId in a.roleIds
  {
    var es := [cfg.ccrRoleId, cfg.scrRoleId];
    if cfg.ccrRoleId in a.roleIds {
      assert EntryMatches(a, es[0]);
    }
    if cfg.scrRoleId in a.roleIds {
      assert EntryMatches(a, es[1]);
    }
    if IsApprover(cfg, a) {
      var i :| 0 <= i < 2 && EntryMatches(a, es[i]);
    }
  }

  /** Every approver is staff, whatever the configuration. */
  lemma ApproverIsStaff(cfg: Config, a: Actor)
    requires IsApprover(cfg, a)
    ensures IsStaff(cfg, a)
  {
    var i :| 0 <= i < 2 && EntryMatches(a, [cfg.ccrRoleId, cfg.scrRoleId][i]);
    assert StaffEntries(cfg)[i] == [cfg.ccrRoleId, cfg.scrRoleId][i];
  }

  /** The first category option whose value is `value`. */
  function FindCategory(value: string): (r: Option<CategoryOption>)
    ensures r.Some? ==> r.value in CategoryOptions && r.value.value == value
    ensures r.None? <==> forall j :: 0 <= j < |CategoryOptions| ==> CategoryOptions[j].value != value
  {
    Find(CategoryOptions, (o: CategoryOption) => o.value == value)
  }

  /** The label shown for a selected value: the option's label, or the raw value when
      the value is not one of the options. */
  function CategoryLabel(value: string): string {
    match FindCategory(value)
    case Some(info) => info.labelText
    case None => value
  }

  /** The label table spelled out. */
  lemma CategoryLabelTable(value: string)
    ensures CategoryLabel(value) ==
              if value == "general-support" then "General Support"
              else if value == "staff-report" then "Staff Report"
              else if value == "management-support" then "Management Support"
              else value
  {
    var known := ["general-support", "staff-report", "management-support"];
    assert forall j :: 0 <= j < 3 ==> CategoryOptions[j].value == known[j];
    if value !in known {
      assert FindCategory(value).None?;
    }
  }

  /** `guild.roles.cache.get(id)`. */
  function RoleById(guildRoles: seq<Role>, id: string): (r: Option<Role>)
    ensures r.Some? ==> r.value in guildRoles && r.value.id == id
    ensures r.None? <==> forall j :: 0 <= j < |guildRoles| ==> guildRoles[j].id != id
  {
    Find(guildRoles, (g: Role) => g.id == id)
  }

  /** `findTeamRoleByCategory`: the first guild role named after the category's role
      name; none when the category is unknown or no role has that name. */
  function FindTeamRoleByCategory(guildRoles: seq<Role>, value: string): (r: Option<Role>)
    ensures r.Some? ==> r.value in guildRoles && FindCategory(value).Some?
                        && r.value.name == FindCategory(value).value.roleName
    ensures r.None? <==> || FindCategory(value).None?
                         || forall j :: 0 <= j < |guildRoles| ==>
                              guildRoles[j].name != FindCategory(value).value.roleName
  {
    match FindCategory(value)
    case None => None
    case Some(info) => Find(guildRoles, (g: Role) => g.name == info.roleName)
  }
}
