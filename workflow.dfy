/** The in-memory workflow engine of index.js: three keyed stores (open tickets,
    pending approval requests, session votes) and the handlers of the menus and
    commands that read and update them. Each handler takes the acting member as an
    `Actor`, the guild's channels and roles as a `Guild`, and the values the
    platform or the clock would supply (new channel and message ids, the time, the
    random suffix) as parameters; it returns an `Outcome` and the platform actions it
    performs, in order, as a list of `Effect`s. */
module Workflow {
  import opened Common
  import opened Text
  import opened Roles
  import opened Sessions
  import opened ChannelName
  import opened Transcript

  /** The channel types the handlers tell apart. */
  datatype ChannelKind = GuildCategory | GuildText | OtherTextBased | NotTextBased

  /** `channel.isTextBased()`. */
  predicate IsTextBased(k: ChannelKind) {
    k == GuildText || k == OtherTextBased
  }

  /** The guild as the handlers see it: its channels by id, and its roles. */
  datatype Guild = Guild(channels: map<string, ChannelKind>, roles: seq<Role>)

  /** `guild.channels.fetch(id).catch(() => null)` followed by `?.isTextBased()`. */
  predicate TextChannel(g: Guild, id: string) {
    id in g.channels && IsTextBased(g.channels[id])
  }

  /** One entry of `openTickets`. */
  datatype TicketRecord = TicketRecord(openerId: string, categoryValue: string, categoryLabel: string,
                                       optionClickedBy: string, createdAt: int, claimedBy: Option<string>)

  /** JavaScript truthiness of `state.claimedBy`: null and the empty string are false. */
  predicate Truthy(claimedBy: Option<string>) {
    claimedBy.Some? && claimedBy.value != ""
  }

  /** The payload of an approval request. */
  datatype Payload = Payload(heading: string, message: string, teamRoleId: string, teamRoleName: string,
                             requesterId: string)

  /** One entry of `approvalRequests`. */
  datatype ApprovalRequest = ApprovalRequest(targetChannelId: string, payload: Payload)

  /** One entry of `sessionVotes`. */
  datatype VoteEntry = VoteEntry(votes: map<string, Choice>, counts: Counts, question: string)

  /** How a handler ends. `Failed` is an exception caught by the top-level handler. */
  datatype Outcome =
    | Ok
    | Misconfigured
    | NotTracked
    | NotStaff
    | AlreadyClaimed(holder: string)
    | ReleaseDenied
    | NotApprover
    | Expired
    | Failed

  /** The content of a message the bot posts; embeds are reduced to the data they show. */
  datatype Body =
    | ClaimPanel(categoryLabel: string, openerId: string)
    | RolePing(roleId: string)
    | ClaimNotice(claimerId: string)
    | ClaimLog(channelId: string, claimerId: string, openerId: string, categoryLabel: string)
    | ReleaseNotice(releaserId: string)
    | CloseLog(channelId: string, openerId: string, claimedBy: Option<string>, categoryLabel: string,
               chosenBy: string, openedAt: int, transcript: string)
    | ApprovalPost(heading: string, message: string, teamRoleName: string, requesterTag: string,
                   requesterId: string, holdsTeamRole: bool, targetChannelId: string)
    | Broadcast(heading: string, message: string, teamRoleName: string)
    | VotePanel(question: string)
    | StatusPost(announcement: Announcement)
    | VoteResults(question: string, counts: Counts, total: nat)

  /** The platform actions of the handlers. `Untracked` marks the point at which a
      ticket's record leaves `openTickets`, so that its order among the platform
      actions can be stated. */
  datatype Effect =
    | CreateChannel(id: string, name: string, parent: string, visibleTo: seq<string>, topic: string)
    | Send(channel: string, body: Body)
    | UpdateMessage(message: string, body: Body)
    | ClearMenu(message: string)
    | DirectMessage(user: string, text: string)
    | Untracked(channel: string)
    | DeleteChannel(channel: string)

  /** The actions of the ticket menu. */
  datatype TicketAction = Claim | Release | Close

  /** The choices of the approval menu; any value but `approve` declines. */
  datatype Decision = Approve | Decline

  /** The subcommands of `/session`. */
  datatype SessionCommand = StartVote(question: string) | Announce(status: Status)

  /** The record a new ticket starts with. */
  function NewRecord(openerId: string, selected: string, now: int): (r: TicketRecord)
    ensures r.openerId == openerId && r.optionClickedBy == openerId
    ensures r.claimedBy == None && r.categoryValue == selected
    ensures r.categoryLabel == CategoryLabel(selected)
  {
    TicketRecord(openerId, selected, CategoryLabel(selected), openerId, now, None)
  }

  /** Who may release a ticket: `state.claimedBy !== user.id && !ManageChannels` refuses. */
  predicate MayRelease(rec: TicketRecord, a: Actor) {
    rec.claimedBy == Some(a.userId) || a.manageChannels
  }

  /** Releasing an unclaimed ticket needs ManageChannels; the claimant may always
      release, and nobody else may without ManageChannels. */
  lemma ReleaseRule(rec: TicketRecord, a: Actor)
    ensures rec.claimedBy.None? ==> (MayRelease(rec, a) <==> a.manageChannels)
    ensures rec.claimedBy == Some(a.userId) ==> MayRelease(rec, a)
    ensures rec.claimedBy.Some? && rec.claimedBy.value != a.userId ==> (MayRelease(rec, a) <==> a.manageChannels)
  {
  }

  /** The ids the new ticket channel is made visible to: the opener, and each of the
      CCR role, the SCR role and the category's team role that exists. */
  function VisibleTo(cfg: Config, g: Guild, openerId: string, selected: string): (ids: seq<string>)
    ensures |ids| >= 1 && ids[0] == openerId
  {
    [openerId]
      + IdOf(RoleById(g.roles, cfg.ccrRoleId))
      + IdOf(RoleById(g.roles, cfg.scrRoleId))
      + IdOf(FindTeamRoleByCategory(g.roles, selected))
  }

  /** Besides the opener, the new channel is visible to the CCR role, the SCR role and
      the category's team role, each when it exists in the guild, and to nothing else. */
  lemma VisibleToRoles(cfg: Config, g: Guild, openerId: string, selected: string)
    ensures var ids := VisibleTo(cfg, g, openerId, selected);
            && (RoleById(g.roles, cfg.ccrRoleId).Some? ==> cfg.ccrRoleId in ids)
            && (RoleById(g.roles, cfg.scrRoleId).Some? ==> cfg.scrRoleId in ids)
            && (FindTeamRoleByCategory(g.roles, selected).Some? ==>
                  FindTeamRoleByCategory(g.roles, selected).value.id in ids)
            && (forall k :: 1 <= k < |ids| ==>
                  || (RoleById(g.roles, cfg.ccrRoleId).Some? && ids[k] == cfg.ccrRoleId)
                  || (RoleById(g.roles, cfg.scrRoleId).Some? && ids[k] == cfg.scrRoleId)
                  || (FindTeamRoleByCategory(g.roles, selected).Some?
                      && ids[k] == FindTeamRoleByCategory(g.roles, selected).value.id))
  {
    var a := IdOf(RoleById(g.roles, cfg.ccrRoleId));
    var b := IdOf(RoleById(g.roles, cfg.scrRoleId));
    var c := IdOf(FindTeamRoleByCategory(g.roles, selected));
    var ids := VisibleTo(cfg, g, openerId, selected);
    assert ids == [openerId] + a + b + c;
    assert forall x :: x in a ==> x == cfg.ccrRoleId && RoleById(g.roles, cfg.ccrRoleId).Some?;
    assert forall x :: x in b ==> x == cfg.scrRoleId && RoleById(g.roles, cfg.scrRoleId).Some?;
    forall k | 1 <= k < |ids|
      ensures || (RoleById(g.roles, cfg.ccrRoleId).Some? && ids[k] == cfg.ccrRoleId)
              || (RoleById(g.roles, cfg.scrRoleId).Some? && ids[k] == cfg.scrRoleId)
              || (FindTeamRoleByCategory(g.roles, selected).Some?
                  && ids[k] == FindTeamRoleByCategory(g.roles, selected).value.id)
    {
      assert ids[k] in a + b + c;
    }
  }

  /** The id of a role that may be missing, as a list of zero or one ids. */
  function IdOf(r: Option<Role>): (ids: seq<string>)
    ensures r.None? ==> ids == []
    ensures r.Some? ==> ids == [r.value.id]
  {
    if r.Some? then [r.value.id] else []
  }

  /** The text of the DM a declined requester receives. */
  function DeclineText(heading: string, deciderTag: string): string {
    "Your broadcast request \"" + heading + "\" was declined by " + deciderTag + "."
  }

  class Engine {
    const cfg: Config
    var openTickets: map<string, TicketRecord>
    var approvalRequests: map<string, ApprovalRequest>
    var sessionVotes: map<string, VoteEntry>

    /** Every record was chosen by its opener, and every vote's counters are a recount
        of its ballots. */
    ghost predicate Valid()
      reads this
    {
      && (forall ch :: ch in openTickets ==> openTickets[ch].optionClickedBy == openTickets[ch].openerId)
      && (forall id :: id in sessionVotes ==> sessionVotes[id].counts == Recount(sessionVotes[id].votes))
    }

    constructor(cfg: Config)
      ensures this.cfg == cfg
      ensures openTickets == map[] && approvalRequests == map[] && sessionVotes == map[]
      ensures Valid()
    {
      this.cfg := cfg;
      openTickets := map[];
      approvalRequests := map[];
      sessionVotes := map[];
    }

    /** The assistance menu: open a ticket in category `selected`. */
    method OpenTicket(actor: Actor, username: string, selected: string, suffix: string,
                      newChannelId: string, now: int, guild: Guild)
      returns (outcome: Outcome, effects: seq<Effect>)
      modifies this
      requires Valid()
      ensures Valid()
      ensures approvalRequests == old(approvalRequests) && sessionVotes == old(sessionVotes)
      ensures var parentOk := cfg.ticketCategoryId in guild.channels
                              && guild.channels[cfg.ticketCategoryId] == GuildCategory;
              && (!parentOk ==> outcome == Misconfigured && effects == [] && openTickets == old(openTickets))
              && (parentOk ==>
                    && outcome == Ok
                    && openTickets == old(openTickets)[newChannelId := NewRecord(actor.userId, selected, now)]
                    && effects ==
                         [CreateChannel(newChannelId, SafeName(username, suffix), cfg.ticketCategoryId,
                                        VisibleTo(cfg, guild, actor.userId, selected),
                                        "Ticket for " + actor.tag + " | Category: " + CategoryLabel(selected)),
                          Send(newChannelId, ClaimPanel(CategoryLabel(selected), actor.userId))]
                         + (match FindTeamRoleByCategory(guild.roles, selected)
                            case Some(team) => [Send(newChannelId, RolePing(team.id))]
                            case None => []))
    {
      var categoryLabel := CategoryLabel(selected);
      if cfg.ticketCategoryId !in guild.channels || guild.channels[cfg.ticketCategoryId] != GuildCategory {
        return Misconfigured, [];
      }
      var safeName := SafeName(username, suffix);
      var teamRole := FindTeamRoleByCategory(guild.roles, selected);
      effects := [CreateChannel(newChannelId, safeName, cfg.ticketCategoryId,
                                VisibleTo(cfg, guild, actor.userId, selected),
                                "Ticket for " + actor.tag + " | Category: " + categoryLabel)];
      effects := effects + [Send(newChannelId, ClaimPanel(categoryLabel, actor.userId))];
      if teamRole.Some? {
        effects := effects + [Send(newChannelId, RolePing(teamRole.value.id))];
      }
      openTickets := openTickets[newChannelId := NewRecord(actor.userId, selected, now)];
      outcome := Ok;
    }

    /** The ticket menu in channel `channelId`; `history` is the channel's messages,
        oldest first, which a close turns into the transcript. `logDelivered` says
        whether the log channel accepts the close log with its attachment: the send
        has no `catch`, so a refused send ends the handler before the record is
        removed. */
    method TicketMenu(channelId: string, actor: Actor, action: TicketAction, guild: Guild,
                      history: seq<Message>, logDelivered: bool)
      returns (outcome: Outcome, effects: seq<Effect>)
      modifies this
      requires Valid() && Chronological(history)
      ensures Valid()
      ensures approvalRequests == old(approvalRequests) && sessionVotes == old(sessionVotes)
      ensures channelId !in old(openTickets) ==>
                outcome == NotTracked && effects == [] && openTickets == old(openTickets)
      ensures channelId in old(openTickets) && !IsStaff(cfg, actor) ==>
                outcome == NotStaff && effects == [] && openTickets == old(openTickets)
      ensures channelId in old(openTickets) && IsStaff(cfg, actor) && action == Claim ==>
                var rec := old(openTickets)[channelId];
                && (Truthy(rec.claimedBy) ==>
                      outcome == AlreadyClaimed(rec.claimedBy.value) && effects == []
                      && openTickets == old(openTickets))
                && (!Truthy(rec.claimedBy) ==>
                      && outcome == Ok
                      && openTickets == old(openTickets)[channelId := rec.(claimedBy := Some(actor.userId))]
                      && effects ==
                           [Send(channelId, ClaimNotice(actor.userId))]
                           + (if TextChannel(guild, cfg.logChannelId)
                              then [Send(cfg.logChannelId,
                                         ClaimLog(channelId, actor.userId, rec.openerId, rec.categoryLabel))]
                              else []))
      ensures channelId in old(openTickets) && IsStaff(cfg, actor) && action == Release ==>
                var rec := old(openTickets)[channelId];
                && (!MayRelease(rec, actor) ==>
                      outcome == ReleaseDenied && effects == [] && openTickets == old(openTickets))
                && (MayRelease(rec, actor) ==>
                      && outcome == Ok
                      && openTickets == old(openTickets)[channelId := rec.(claimedBy := None)]
                      && effects == [Send(channelId, ReleaseNotice(actor.userId))])
      ensures channelId in old(openTickets) && IsStaff(cfg, actor) && action == Close ==>
                var rec := old(openTickets)[channelId];
                var log := CloseLog(channelId, rec.openerId, rec.claimedBy, rec.categoryLabel,
                                    rec.optionClickedBy, rec.createdAt,
                                    Attachment(Join(PagedLines(history), "\n")));
                && (TextChannel(guild, cfg.logChannelId) && !logDelivered ==>
                      outcome == Failed && effects == [] && openTickets == old(openTickets))
                && (!TextChannel(guild, cfg.logChannelId) || logDelivered ==>
                      && outcome == Ok
                      && openTickets == old(openTickets) - {channelId}
                      && effects ==
                           (if TextChannel(guild, cfg.logChannelId) then [Send(cfg.logChannelId, log)] else [])
                           + [Untracked(channelId), DeleteChannel(channelId)])
    {
      if channelId !in openTickets {
        return NotTracked, [];
      }
      var state := openTickets[channelId];
      if !IsStaff(cfg, actor) {
        return NotStaff, [];
      }
      match action
      case Claim =>
        if Truthy(state.claimedBy) {
          return AlreadyClaimed(state.claimedBy.value), [];
        }
        openTickets := openTickets[channelId := state.(claimedBy := Some(actor.userId))];
        effects := [Send(channelId, ClaimNotice(actor.userId))];
        if TextChannel(guild, cfg.logChannelId) {
          effects := effects + [Send(cfg.logChannelId,
                                     ClaimLog(channelId, actor.userId, state.openerId, state.categoryLabel))];
        }
        outcome := Ok;
      case Release =>
        if state.claimedBy != Some(actor.userId) && !actor.manageChannels {
          return ReleaseDenied, [];
        }
        openTickets := openTickets[channelId := state.(claimedBy := None)];
        effects := [Send(channelId, ReleaseNotice(actor.userId))];
        outcome := Ok;
      case Close =>
        var transcriptText := BuildTranscript(history);
        var file := Attachment(transcriptText);
        effects := [];
        if TextChannel(guild, cfg.logChannelId) {
          if !logDelivered {
            return Failed, [];
          }
          effects := [Send(cfg.logChannelId,
                           CloseLog(channelId, state.openerId, state.claimedBy, state.categoryLabel,
                                    state.optionClickedBy, state.createdAt, file))];
        }
        openTickets := openTickets - {channelId};
        effects := effects + [Untracked(channelId), DeleteChannel(channelId)];
        outcome := Ok;
    }

    /** `/requestmsg`: post a broadcast request to the approval channel and remember it
        under the id of the posted message. The channel is fetched without a `catch`, so
        a missing channel is an exception. */
    method RequestMessage(actor: Actor, heading: string, message: string, teamRole: Role,
                          channelId: string, newMessageId: string, guild: Guild)
      returns (outcome: Outcome, effects: seq<Effect>)
      modifies this
      requires Valid()
      ensures Valid()
      ensures openTickets == old(openTickets) && sessionVotes == old(sessionVotes)
      ensures cfg.approvalChannelId !in guild.channels ==>
                outcome == Failed && effects == [] && approvalRequests == old(approvalRequests)
      ensures cfg.approvalChannelId in guild.channels && guild.channels[cfg.approvalChannelId] != GuildText ==>
                outcome == Misconfigured && effects == [] && approvalRequests == old(approvalRequests)
      ensures cfg.approvalChannelId in guild.channels && guild.channels[cfg.approvalChannelId] == GuildText ==>
                && outcome == Ok
                && effects == [Send(cfg.approvalChannelId,
                                    ApprovalPost(heading, message, teamRole.name, actor.tag, actor.userId,
                                                 teamRole.id in actor.roleIds, channelId))]
                && approvalRequests == old(approvalRequests)[newMessageId :=
                     ApprovalRequest(channelId, Payload(heading, message, teamRole.id, teamRole.name, actor.userId))]
    {
      var post := ApprovalPost(heading, message, teamRole.name, actor.tag, actor.userId,
                               teamRole.id in actor.roleIds, channelId);
      if cfg.approvalChannelId !in guild.channels {
        return Failed, [];
      }
      if guild.channels[cfg.approvalChannelId] != GuildText {
        return Misconfigured, [];
      }
      effects := [Send(cfg.approvalChannelId, post)];
      approvalRequests := approvalRequests[newMessageId :=
        ApprovalRequest(channelId, Payload(heading, message, teamRole.id, teamRole.name, actor.userId))];
      outcome := Ok;
    }

    /** The approval menu on message `messageId`. It only reads `approvalRequests`:
        neither decision removes the request, only the menu is cleared. */
    method ApprovalMenu(messageId: string, actor: Actor, decision: Decision, guild: Guild)
      returns (outcome: Outcome, effects: seq<Effect>)
      ensures !IsApprover(cfg, actor) ==> outcome == NotApprover && effects == []
      ensures IsApprover(cfg, actor) && messageId !in approvalRequests ==> outcome == Expired && effects == []
      ensures IsApprover(cfg, actor) && messageId in approvalRequests ==>
                var req := approvalRequests[messageId];
                var p := req.payload;
                && outcome == Ok
                && (decision == Approve ==>
                      effects ==
                        (if TextChannel(guild, req.targetChannelId)
                         then [Send(req.targetChannelId, Broadcast(p.heading, p.message, p.teamRoleName))]
                              + (if RoleById(guild.roles, p.teamRoleId).Some?
                                 then [Send(req.targetChannelId, RolePing(p.teamRoleId))] else [])
                         else [])
                        + [ClearMenu(messageId)])
                && (decision == Decline ==>
                      effects == [ClearMenu(messageId), DirectMessage(p.requesterId, DeclineText(p.heading, actor.tag))])
    {
      if !HasAnyRole(actor, [cfg.ccrRoleId, cfg.scrRoleId]) {
        return NotApprover, [];
      }
      if messageId !in approvalRequests {
        return Expired, [];
      }
      var req := approvalRequests[messageId];
      var payload := req.payload;
      var teamRole := RoleById(guild.roles, payload.teamRoleId);
      effects := [];
      match decision {
        case Approve =>
          if TextChannel(guild, req.targetChannelId) {
            effects := effects + [Send(req.targetChannelId, Broadcast(payload.heading, payload.message, payload.teamRoleName))];
            if teamRole.Some? {
              effects := effects + [Send(req.targetChannelId, RolePing(teamRole.value.id))];
            }
          }
          effects := effects + [ClearMenu(messageId)];
        case Decline =>
          effects := effects + [ClearMenu(messageId)];
          effects := effects + [DirectMessage(payload.requesterId, DeclineText(payload.heading, actor.tag))];
      }
      outcome := Ok;
    }

    /** `/session`: start a vote (remembered under the id of the posted message) or
        post one of the status announcements. */
    method Session(command: SessionCommand, newMessageId: string, guild: Guild)
      returns (outcome: Outcome, effects: seq<Effect>)
      modifies this
      requires Valid()
      ensures Valid()
      ensures openTickets == old(openTickets) && approvalRequests == old(approvalRequests)
      ensures !TextChannel(guild, cfg.sessionChannelId) ==>
                outcome == Misconfigured && effects == [] && sessionVotes == old(sessionVotes)
      ensures TextChannel(guild, cfg.sessionChannelId) ==>
                && outcome == Ok
                && (command.StartVote? ==>
                      && effects == [Send(cfg.sessionChannelId, VotePanel(command.question))]
                      && sessionVotes == old(sessionVotes)[newMessageId := VoteEntry(map[], Zero, command.question)])
                && (command.Announce? ==>
                      && effects == [Send(cfg.sessionChannelId, StatusPost(AnnouncementFor(command.status)))]
                      && sessionVotes == old(sessionVotes))
    {
      if !TextChannel(guild, cfg.sessionChannelId) {
        return Misconfigured, [];
      }
      match command {
        case StartVote(q) =>
          effects := [Send(cfg.sessionChannelId, VotePanel(q))];
          assert Recount(map[]) == Zero by {
            assert VotersFor(map[], Yes) == {} && VotersFor(map[], No) == {} && VotersFor(map[], Abstain) == {};
          }
          sessionVotes := sessionVotes[newMessageId := VoteEntry(map[], Zero, q)];
        case Announce(s) =>
          effects := [Send(cfg.sessionChannelId, StatusPost(AnnouncementFor(s)))];
      }
      outcome := Ok;
    }

    /** The session vote menu on message `messageId`: record `voter`'s ballot and
        update the counters one step. The new counters are a recount of the ballots,
        and their total is the number of voters. */
    method SessionVoteMenu(messageId: string, voter: string, value: Choice)
      returns (outcome: Outcome, effects: seq<Effect>)
      modifies this
      requires Valid()
      ensures Valid()
      ensures openTickets == old(openTickets) && approvalRequests == old(approvalRequests)
      ensures messageId !in old(sessionVotes) ==>
                outcome == Expired && effects == [] && sessionVotes == old(sessionVotes)
      ensures messageId in old(sessionVotes) ==>
                var entry := old(sessionVotes)[messageId];
                var votes := entry.votes[voter := value];
                && outcome == Ok
                && sessionVotes == old(sessionVotes)[messageId := VoteEntry(votes, Recount(votes), entry.question)]
                && effects == [UpdateMessage(messageId, VoteResults(entry.question, Recount(votes), |votes|))]
    {
      if messageId !in sessionVotes {
        return Expired, [];
      }
      var entry := sessionVotes[messageId];
      var prev := Previous(entry.votes, voter);
      var counts := entry.counts;
      if prev.Some? {
        counts := SetCount(counts, prev.value, if Get(counts, prev.value) >= 1 then Get(counts, prev.value) - 1 else 0);
      }
      var votes := entry.votes[voter := value];
      counts := SetCount(counts, value, Get(counts, value) + 1);
      assert counts == Cast(entry.counts, prev, value);
      CastMatchesRecount(entry.votes, voter, value);
      RecountTotal(votes);
      var total := Total(counts);
      sessionVotes := sessionVotes[messageId := VoteEntry(votes, counts, entry.question)];
      effects := [UpdateMessage(messageId, VoteResults(entry.question, counts, total))];
      outcome := Ok;
    }
  }
}
