/** Event sequences on a fresh engine, for any ids and members that meet the stated
    conditions: the life of a ticket, the life of an approval request, and a vote
    with a changed ballot. */
module Scenarios {
  import opened Common
  import opened Roles
  import opened Sessions
  import opened Transcript
  import opened Workflow

  /** A ticket is opened; staff member `a` claims it; `b` then cannot, and is told
      that `a` holds it; `a` releases it; `b` claims it and closes it; after that any
      action on the channel finds it not tracked. */
  method TicketLifecycle(cfg: Config, guild: Guild, opener: Actor, a: Actor, b: Actor,
                         selected: string, channelId: string, later: TicketAction,
                         history: seq<Message>)
    returns (outcomes: seq<Outcome>)
    requires cfg.ticketCategoryId in guild.channels && guild.channels[cfg.ticketCategoryId] == GuildCategory
    requires IsStaff(cfg, a) && IsStaff(cfg, b)
    requires a.userId != "" && a.userId != b.userId
    requires Chronological(history)
    ensures outcomes == [Ok, Ok, AlreadyClaimed(a.userId), Ok, Ok, Ok, NotTracked]
  {
    var e := new Engine(cfg);
    var o0, _ := e.OpenTicket(opener, "user", selected, "abcde", channelId, 0, guild);
    var o1, _ := e.TicketMenu(channelId, a, Claim, guild, history, true);
    var o2, _ := e.TicketMenu(channelId, b, Claim, guild, history, true);
    var o3, _ := e.TicketMenu(channelId, a, Release, guild, history, true);
    var o4, _ := e.TicketMenu(channelId, b, Claim, guild, history, true);
    var o5, _ := e.TicketMenu(channelId, b, Close, guild, history, true);
    var o6, _ := e.TicketMenu(channelId, a, later, guild, history, true);
    outcomes := [o0, o1, o2, o3, o4, o5, o6];
  }

  /** When the logs channel refuses the close log, the close fails and the ticket is
      still tracked, so a second close with the log accepted goes through. */
  method CloseLogRefused(cfg: Config, guild: Guild, opener: Actor, a: Actor,
                         selected: string, channelId: string)
    returns (outcomes: seq<Outcome>)
    requires cfg.ticketCategoryId in guild.channels && guild.channels[cfg.ticketCategoryId] == GuildCategory
    requires TextChannel(guild, cfg.logChannelId)
    requires IsStaff(cfg, a)
    ensures outcomes == [Ok, Failed, Ok, NotTracked]
  {
    var e := new Engine(cfg);
    var o0, _ := e.OpenTicket(opener, "user", selected, "abcde", channelId, 0, guild);
    var o1, _ := e.TicketMenu(channelId, a, Close, guild, [], false);
    var o2, _ := e.TicketMenu(channelId, a, Close, guild, [], true);
    var o3, _ := e.TicketMenu(channelId, a, Close, guild, [], true);
    outcomes := [o0, o1, o2, o3];
  }

  /** Releasing a ticket nobody has claimed is refused to staff without
      ManageChannels, and leaves the ticket open. */
  method ReleaseUnclaimed(cfg: Config, guild: Guild, opener: Actor, a: Actor,
                          selected: string, channelId: string)
    returns (outcomes: seq<Outcome>)
    requires cfg.ticketCategoryId in guild.channels && guild.channels[cfg.ticketCategoryId] == GuildCategory
    requires IsStaff(cfg, a) && !a.manageChannels && a.userId != ""
    ensures outcomes == [Ok, ReleaseDenied, Ok]
  {
    var e := new Engine(cfg);
    var o0, _ := e.OpenTicket(opener, "user", selected, "abcde", channelId, 0, guild);
    var o1, _ := e.TicketMenu(channelId, a, Release, guild, [], true);
    var o2, _ := e.TicketMenu(channelId, a, Claim, guild, [], true);
    outcomes := [o0, o1, o2];
  }

  /** A member outside the staff roles is refused before anything else happens to
      a tracked ticket, and a member inside them then can claim it. */
  method NonStaffRefused(cfg: Config, guild: Guild, opener: Actor, outsider: Actor, a: Actor,
                         selected: string, channelId: string, action: TicketAction)
    returns (outcomes: seq<Outcome>)
    requires cfg.ticketCategoryId in guild.channels && guild.channels[cfg.ticketCategoryId] == GuildCategory
    requires !IsStaff(cfg, outsider) && IsStaff(cfg, a)
    ensures outcomes == [Ok, NotStaff, Ok]
  {
    var e := new Engine(cfg);
    var o0, _ := e.OpenTicket(opener, "user", selected, "abcde", channelId, 0, guild);
    var o1, _ := e.TicketMenu(channelId, outsider, action, guild, [], true);
    var o2, _ := e.TicketMenu(channelId, a, Claim, guild, [], true);
    outcomes := [o0, o1, o2];
  }

  /** A broadcast request is declined and then approved: the decline does not remove
      the request, so the later approval still finds it. */
  method DeclineKeepsRequest(cfg: Config, guild: Guild, requester: Actor, approver: Actor,
                             heading: string, message: string, team: Role,
                             channelId: string, messageId: string)
    returns (outcomes: seq<Outcome>)
    requires cfg.approvalChannelId in guild.channels && guild.channels[cfg.approvalChannelId] == GuildText
    requires IsApprover(cfg, approver)
    ensures outcomes == [Ok, Ok, Ok]
  {
    var e := new Engine(cfg);
    var o0, _ := e.RequestMessage(requester, heading, message, team, channelId, messageId, guild);
    var o1, _ := e.ApprovalMenu(messageId, approver, Decline, guild);
    var o2, _ := e.ApprovalMenu(messageId, approver, Approve, guild);
    outcomes := [o0, o1, o2];
  }

  /** A vote: `u` votes yes, changes to no, and `v` votes yes. The last results show
      one yes and one no out of two voters. */
  method Revote(cfg: Config, guild: Guild, messageId: string, question: string, u: string, v: string)
    returns (results: Effect)
    requires TextChannel(guild, cfg.sessionChannelId)
    requires u != v
    ensures results.UpdateMessage? && results.body.VoteResults?
    ensures results.body.total == 2
    ensures results.body.counts.yes == 1 && results.body.counts.no == 1
  {
    var e := new Engine(cfg);
    var _, _ := e.Session(StartVote(question), messageId, guild);
    var _, _ := e.SessionVoteMenu(messageId, u, Yes);
    var _, _ := e.SessionVoteMenu(messageId, u, No);
    var votes: map<string, Choice> := map[u := No];
    assert e.sessionVotes[messageId].votes == votes;
    var _, effects := e.SessionVoteMenu(messageId, v, Yes);
    votes := votes[v := Yes];
    results := effects[0];
    assert results == UpdateMessage(messageId, VoteResults(question, Recount(votes), |votes|));
    assert VotersFor(votes, Yes) == {v};
    assert VotersFor(votes, No) == {u};
  }
}
