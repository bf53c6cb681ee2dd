/** The ticket rules of the Python bot (bot.py): who may claim a ticket through
    `/claim` or through the public claim menu, who may close it with `/close_ticket`,
    and what happens to the ticket table. The sqlite table of utils.py is a map from
    channel id to row with its three writes: insert-or-replace, update-if-present and
    delete. Role, user and channel ids are Python integers. */
module SupportDesk {
  import opened Common

  /** One row of the `tickets` table. */
  datatype TicketRow = TicketRow(authorId: int, ttype: string, description: string,
                                 claimedBy: Option<int>, createdAt: int)

  /** The stored configuration the handlers read (the parts they use). */
  datatype Setup = Setup(gsaccess: seq<int>, csaccess: seq<int>, loaRoleId: Option<int>,
                         ticketLogsChannelId: Option<int>)

  /** Python truthiness of an optional integer: `None` and `0` are false. */
  predicate TruthyId(x: Option<int>) {
    x.Some? && x.value != 0
  }

  /** The role list a claim is checked against: gsaccess for general tickets,
      csaccess for every other type. */
  function AllowedClaimRoles(setup: Setup, ttype: string): seq<int> {
    if ttype == "general" then setup.gsaccess else setup.csaccess
  }

  /** The LOA role is configured (truthy) and the member holds it. */
  predicate OnLoa(setup: Setup, memberRoles: seq<int>) {
    TruthyId(setup.loaRoleId) && setup.loaRoleId.value in memberRoles
  }

  /** Some role of the allowed list is held by the member. */
  function AnyHeld(allowed: seq<int>, memberRoles: seq<int>): (b: bool)
    ensures b <==> exists i :: 0 <= i < |allowed| && allowed[i] in memberRoles
  {
    if allowed == [] then false
    else allowed[0] in memberRoles || AnyHeld(allowed[1..], memberRoles)
  }

  /** How a handler of the desk ends. */
  datatype DeskOutcome =
    | NotATicket
    | OnLeave
    | NoPermission
    | AlreadyClaimedBy(claimer: int)
    | Done
    /** A platform call raised: the handler stops where it is, with the table as the
        steps before the call left it. */
    | Failed

  /** The two role checks a claim passes first, in their order: the LOA role, then
      the allowed role list. */
  function ClaimRefusal(setup: Setup, ttype: string, memberRoles: seq<int>): (r: Option<DeskOutcome>)
    ensures r.None? <==> !OnLoa(setup, memberRoles) && AnyHeld(AllowedClaimRoles(setup, ttype), memberRoles)
    ensures r.Some? ==> r.value == OnLeave || r.value == NoPermission
  {
    if OnLoa(setup, memberRoles) then Some(OnLeave)
    else if !AnyHeld(AllowedClaimRoles(setup, ttype), memberRoles) then Some(NoPermission)
    else None
  }

  /** A member holding the LOA role is refused as on leave, whatever other roles it
      holds. */
  lemma LoaRefusedWithAnyRoles(setup: Setup, ttype: string, memberRoles: seq<int>, extra: seq<int>)
    requires OnLoa(setup, memberRoles)
    ensures ClaimRefusal(setup, ttype, memberRoles + extra) == Some(OnLeave)
  {
    var loa := setup.loaRoleId.value;
    var i :| 0 <= i < |memberRoles| && memberRoles[i] == loa;
    assert (memberRoles + extra)[i] == loa;
  }

  /** Some role of gsaccess or csaccess is held by the member. */
  predicate CloseAllowed(setup: Setup, memberRoles: seq<int>) {
    exists r :: r in setup.gsaccess + setup.csaccess && r in memberRoles
  }

  /** Closing is allowed exactly to holders of a gsaccess or a csaccess role; the LOA
      role plays no part in it. */
  lemma CloseAllowedIff(setup: Setup, memberRoles: seq<int>)
    ensures CloseAllowed(setup, memberRoles) <==>
              AnyHeld(setup.gsaccess, memberRoles) || AnyHeld(setup.csaccess, memberRoles)
  {
    var all := setup.gsaccess + setup.csaccess;
    if AnyHeld(setup.gsaccess, memberRoles) {
      var i :| 0 <= i < |setup.gsaccess| && setup.gsaccess[i] in memberRoles;
      assert all[i] == setup.gsaccess[i];
    }
    if AnyHeld(setup.csaccess, memberRoles) {
      var i :| 0 <= i < |setup.csaccess| && setup.csaccess[i] in memberRoles;
      assert all[|setup.gsaccess| + i] == setup.csaccess[i];
    }
    if CloseAllowed(setup, memberRoles) {
      var r :| r in all && r in memberRoles;
      var k :| 0 <= k < |all| && all[k] == r;
      if k < |setup.gsaccess| {
        assert setup.gsaccess[k] == r;
      } else {
        assert setup.csaccess[k - |setup.gsaccess|] == r;
      }
    }
  }

  /** Whoever passes the role checks of a claim may also close the ticket. */
  lemma ClaimerMayClose(setup: Setup, ttype: string, memberRoles: seq<int>)
    requires ClaimRefusal(setup, ttype, memberRoles).None?
    ensures CloseAllowed(setup, memberRoles)
  {
    CloseAllowedIff(setup, memberRoles);
  }

  /** The platform actions of the desk. `RecordCleared` marks the point at which the
      row leaves the table. */
  datatype DeskEffect =
    | GrantAccess(channel: int, user: int)
    | ClaimedNotice(channel: int, user: int)
    | ClaimLog(logs: int, channel: int, user: int)
    | CloseLog(logs: int, channel: int, closer: int, authorId: int, ttype: string,
               claimedBy: Option<int>, description: Option<string>)
    | RecordCleared(channel: int)
    | DeleteChannel(channel: int)

  /** The claimer a close log names: the stored claimer when it is truthy, none
      ("Unclaimed") otherwise. */
  function ShownClaimer(claimedBy: Option<int>): (r: Option<int>)
    ensures r.Some? <==> TruthyId(claimedBy)
    ensures r.Some? ==> r == claimedBy
  {
    if TruthyId(claimedBy) then claimedBy else None
  }

  /** The logs channel, when it is configured (truthy) and present among the guild's
      channels. */
  function LogsChannel(setup: Setup, channels: set<int>): (r: Option<int>)
    ensures r.Some? <==> TruthyId(setup.ticketLogsChannelId) && setup.ticketLogsChannelId.value in channels
    ensures r.Some? ==> r.value == setup.ticketLogsChannelId.value
  {
    if TruthyId(setup.ticketLogsChannelId) && setup.ticketLogsChannelId.value in channels
    then Some(setup.ticketLogsChannelId.value) else None
  }

  class TicketDesk {
    const setup: Setup
    var tickets: map<int, TicketRow>

    constructor(setup: Setup)
      ensures this.setup == setup && tickets == map[]
    {
      this.setup := setup;
      tickets := map[];
    }

    /** `get_ticket`. */
    function GetTicket(channelId: int): (r: Option<TicketRow>)
      reads this
      ensures r.Some? <==> channelId in tickets
      ensures r.Some? ==> r.value == tickets[channelId]
    {
      if channelId in tickets then Some(tickets[channelId]) else None
    }

    /** `create_ticket_record`: INSERT OR REPLACE, unclaimed. */
    method CreateTicketRecord(channelId: int, authorId: int, ttype: string, description: string, createdAt: int)
      modifies this
      ensures tickets == old(tickets)[channelId := TicketRow(authorId, ttype, description, None, createdAt)]
    {
      tickets := tickets[channelId := TicketRow(authorId, ttype, description, None, createdAt)];
    }

    /** `set_ticket_claim`: an UPDATE, which touches no row when there is none. */
    method SetTicketClaim(channelId: int, claimerId: int)
      modifies this
      ensures channelId in old(tickets) ==>
                tickets == old(tickets)[channelId := old(tickets)[channelId].(claimedBy := Some(claimerId))]
      ensures channelId !in old(tickets) ==> tickets == old(tickets)
    {
      if channelId in tickets {
        tickets := tickets[channelId := tickets[channelId].(claimedBy := Some(claimerId))];
      }
    }

    /** `clear_ticket`: a DELETE. */
    method ClearTicket(channelId: int)
      modifies this
      ensures tickets == old(tickets) - {channelId}
    {
      tickets := tickets - {channelId};
    }

    /** `/claim` in channel `channelId`. */
    method Claim(channelId: int, userId: int, memberRoles: seq<int>)
      returns (outcome: DeskOutcome, effects: seq<DeskEffect>)
      modifies this
      ensures channelId !in old(tickets) ==> outcome == NotATicket && effects == [] && tickets == old(tickets)
      ensures channelId in old(tickets) ==>
                var row := old(tickets)[channelId];
                var refusal := ClaimRefusal(setup, row.ttype, memberRoles);
                && (refusal.Some? ==> outcome == refusal.value && effects == [] && tickets == old(tickets))
                && (refusal.None? && TruthyId(row.claimedBy) ==>
                      outcome == AlreadyClaimedBy(row.claimedBy.value) && effects == [] && tickets == old(tickets))
                && (refusal.None? && !TruthyId(row.claimedBy) ==>
                      && outcome == Done
                      && tickets == old(tickets)[channelId := row.(claimedBy := Some(userId))]
                      && effects == [GrantAccess(channelId, userId), ClaimedNotice(channelId, userId)])
    {
      var ticket := GetTicket(channelId);
      if ticket.None? {
        return NotATicket, [];
      }
      var allowed := AllowedClaimRoles(setup, ticket.value.ttype);
      if OnLoa(setup, memberRoles) {
        return OnLeave, [];
      }
      if !AnyHeld(allowed, memberRoles) {
        return NoPermission, [];
      }
      if TruthyId(ticket.value.claimedBy) {
        return AlreadyClaimedBy(ticket.value.claimedBy.value), [];
      }
      SetTicketClaim(channelId, userId);
      effects := [GrantAccess(channelId, userId), ClaimedNotice(channelId, userId)];
      outcome := Done;
    }

    /** The public claim menu posted for the ticket in `ticketChannelId`, created as
        a ticket of type `choice`. The role list comes from the captured `choice`, not
        from the row, and a missing row does not stop the claim: the update then
        touches nothing. The menu outlives the channel; granting access in a channel
        that is no longer in `channels` raises after the table update. */
    method ClaimSelectCallback(ticketChannelId: int, choice: string, userId: int, memberRoles: seq<int>,
                               channels: set<int>)
      returns (outcome: DeskOutcome, effects: seq<DeskEffect>)
      modifies this
      ensures var refusal := ClaimRefusal(setup, choice, memberRoles);
              && (refusal.Some? ==> outcome == refusal.value && effects == [] && tickets == old(tickets))
              && (refusal.None? && ticketChannelId in old(tickets)
                  && TruthyId(old(tickets)[ticketChannelId].claimedBy) ==>
                    && outcome == AlreadyClaimedBy(old(tickets)[ticketChannelId].claimedBy.value)
                    && effects == [] && tickets == old(tickets))
              && (refusal.None? && ticketChannelId !in old(tickets) ==> tickets == old(tickets))
              && (refusal.None? && ticketChannelId in old(tickets)
                  && !TruthyId(old(tickets)[ticketChannelId].claimedBy) ==>
                    tickets == old(tickets)[ticketChannelId :=
                                 old(tickets)[ticketChannelId].(claimedBy := Some(userId))])
              && (refusal.None? && !(ticketChannelId in old(tickets)
                                     && TruthyId(old(tickets)[ticketChannelId].claimedBy)) ==>
                    && (ticketChannelId in channels ==> outcome == Done)
                    && (ticketChannelId !in channels ==> outcome == Failed && effects == []))
              && (outcome == Done ==>
                    effects == [GrantAccess(ticketChannelId, userId), ClaimedNotice(ticketChannelId, userId)]
                               + (match LogsChannel(setup, channels)
                                  case Some(logs) => [ClaimLog(logs, ticketChannelId, userId)]
                                  case None => []))
    {
      var allowed := AllowedClaimRoles(setup, choice);
      if OnLoa(setup, memberRoles) {
        return OnLeave, [];
      }
      if !AnyHeld(allowed, memberRoles) {
        return NoPermission, [];
      }
      var ticket := GetTicket(ticketChannelId);
      if ticket.Some? && TruthyId(ticket.value.claimedBy) {
        return AlreadyClaimedBy(ticket.value.claimedBy.value), [];
      }
      SetTicketClaim(ticketChannelId, userId);
      if ticketChannelId !in channels {
        return Failed, [];
      }
      effects := [GrantAccess(ticketChannelId, userId), ClaimedNotice(ticketChannelId, userId)];
      var logs := LogsChannel(setup, channels);
      if logs.Some? {
        effects := effects + [ClaimLog(logs.value, ticketChannelId, userId)];
      }
      outcome := Done;
    }

    /** `/close_ticket` in channel `channelId`: log, clear the row, delete the channel.
        `logDelivered` says whether the logs channel accepts the close log; a refused
        send raises before the row is cleared, so the ticket stays open. */
    method CloseTicket(channelId: int, userId: int, memberRoles: seq<int>, channels: set<int>,
                       logDelivered: bool)
      returns (outcome: DeskOutcome, effects: seq<DeskEffect>)
      modifies this
      ensures channelId !in old(tickets) ==> outcome == NotATicket && effects == [] && tickets == old(tickets)
      ensures channelId in old(tickets) && !CloseAllowed(setup, memberRoles) ==>
                outcome == NoPermission && effects == [] && tickets == old(tickets)
      ensures channelId in old(tickets) && CloseAllowed(setup, memberRoles)
              && LogsChannel(setup, channels).Some? && !logDelivered ==>
                outcome == Failed && effects == [] && tickets == old(tickets)
      ensures channelId in old(tickets) && CloseAllowed(setup, memberRoles)
              && (LogsChannel(setup, channels).None? || logDelivered) ==>
                var row := old(tickets)[channelId];
                && outcome == Done
                && tickets == old(tickets) - {channelId}
                && effects ==
                     (match LogsChannel(setup, channels)
                      case Some(logs) =>
                        [CloseLog(logs, channelId, userId, row.authorId, row.ttype, ShownClaimer(row.claimedBy),
                                  if row.description != "" then Some(row.description) else None)]
                      case None => [])
                     + [RecordCleared(channelId), DeleteChannel(channelId)]
    {
      var ticket := GetTicket(channelId);
      if ticket.None? {
        return NotATicket, [];
      }
      if !CloseAllowed(setup, memberRoles) {
        return NoPermission, [];
      }
      var row := ticket.value;
      effects := [];
      var logs := LogsChannel(setup, channels);
      if logs.Some? {
        if !logDelivered {
          return Failed, [];
        }
        effects := [CloseLog(logs.value, channelId, userId, row.authorId, row.ttype, ShownClaimer(row.claimedBy),
                             if row.description != "" then Some(row.description) else None)];
      }
      ClearTicket(channelId);
      effects := effects + [RecordCleared(channelId), DeleteChannel(channelId)];
      outcome := Done;
    }
  }

  /** A ticket is created, claimed by `a`, refused to `b` naming `a`, and closed by
      `b`. The public claim menu of another channel that has no row still reports
      success and adds nothing; once the ticket's own channel is gone, its claim menu
      fails, and neither leaves a row behind. */
  method DeskLifecycle(setup: Setup, channelId: int, other: int, author: int, a: int, b: int,
                       roles: seq<int>, channels: set<int>)
    returns (outcomes: seq<DeskOutcome>, remaining: map<int, TicketRow>)
    requires ClaimRefusal(setup, "general", roles).None?
    requires a != 0
    requires other != channelId && other in channels
    ensures outcomes == [Done, AlreadyClaimedBy(a), Done, Done, NotATicket, Failed]
    ensures remaining == map[]
  {
    var desk := new TicketDesk(setup);
    desk.CreateTicketRecord(channelId, author, "general", "help", 0);
    var o0, _ := desk.Claim(channelId, a, roles);
    var o1, _ := desk.Claim(channelId, b, roles);
    var o2, _ := desk.ClaimSelectCallback(other, "general", b, roles, channels);
    ClaimerMayClose(setup, "general", roles);
    var o3, _ := desk.CloseTicket(channelId, b, roles, channels, true);
    var o4, _ := desk.Claim(channelId, a, roles);
    var o5, _ := desk.ClaimSelectCallback(channelId, "general", a, roles, channels - {channelId});
    outcomes := [o0, o1, o2, o3, o4, o5];
    remaining := desk.tickets;
  }
}
