# Discord support bot: workflow engine and ticket rules in Dafny

This project models the core of a Discord utility bot. The bot has a JavaScript
front end (index.js) and a Python support-desk variant (bot.py).

**index.js.** An in-memory engine keeps three keyed stores:

- open tickets by channel id;
- pending broadcast approval requests by message id;
- session votes by message id.

Handlers update these stores in response to menus and slash commands. They are:

- the assistance menu, which opens a ticket;
- the ticket menu: claim, release and close;
- `/requestmsg` and the approval menu, which approves or declines;
- `/session` and the session vote menu.

The pure helpers around them are also modelled:

- the duration parser behind `/timeout`, and that command's duration gate;
- the role rules: `hasAnyRole`, `isStaff` and the approver gate;
- the category table and team-role lookup;
- the channel-name sanitiser;
- the transcript builder that runs when a ticket closes.

**bot.py.** The model covers:

- the role-list parser of the setup command;
- the ticket table. It is an abstract map with three writes: insert-or-replace, update-if-present, and delete;
- the three guard chains: `/claim`, the public claim menu and `/close_ticket`.

Module layout (one file per module):

- `common`: option type, first-match search, concatenation regrouping.
- `text`: ASCII digits and decimal spelling; the JavaScript and Python white-space sets; strip; Python `split` and `join`.
- `duration`: `parseDuration`.
- `moderation`: the `/timeout` and `/mute` check order.
- `roles`: actors, configuration, `hasAnyRole`, `isStaff`, the approver gate, the category and team tables, role lookup.
- `channel_name`: the ticket channel name.
- `transcript`: the paged history, fetch, sort, line rendering and the transcript loop.
- `sessions`: vote counters, the incremental cast, recount and the `/session` announcement table.
- `workflow`: the `Engine` class with the three stores and the index.js handlers.
- `scenarios`: event sequences on a fresh engine.
- `role_list`: `parse_role_list`.
- `support_desk`: the bot.py ticket table (`TicketDesk`) and its handlers.

Handlers take platform inputs as parameters and return a result tag and a list of effects:

- The inputs are the acting member (an `Actor`: user id, tag, role ids, role names and
  the ManageChannels flag), the guild's channels and roles, new ids, the clock and the
  random channel-name suffix.
- The result tag is an `Outcome`.
- The effects are the platform actions in order: messages sent, channel deletion, direct messages.

Behaviour of the code that is easy to misread, and that the model follows as written:

- Deciding an approval request, either way, does not remove it from the pending store.
  Only the menu is cleared, so a later decision on the same message still finds it
  (`Scenarios.DeclineKeepsRequest`).
- The transcript is not in global chronological order. Each page is sorted in place, so
  the next cursor is the oldest message of the page. Pages come out newest page
  first, with each page in ascending order (`Transcript.OldestOfTwoPagesComesLast`).
- A missing approval channel in `/requestmsg` is fetched without a `catch`. It therefore
  surfaces as the top-level error reply (`Failed`), not as "misconfigured".
- In bot.py, the public claim menu checks the roles of the ticket type captured when
  the menu was posted, not the stored row's type. A missing row does not stop it. It
  reports success and the update touches nothing, as long as the channel still exists.
  Once the channel is deleted, granting access in it raises (`SupportDesk.DeskLifecycle`).

## Model

| member | source | states |
|---|---|---|
| Duration.UnitMillis | index.js:93-94 | the multiplier of a unit letter in either case: s 1000, m 60000, h 3600000, d 86400000 milliseconds |
| Duration.ParseDuration | index.js:89-96 | `parseDuration`: null or a number of milliseconds; what it accepts and what it returns are stated by the lemmas below |
| Duration.ParseDurationSound | index.js:89-96 | an accepted string is, once trimmed, digits, white space and one unit letter, and its value is the number times that unit's multiplier |
| Duration.ParseDurationComplete | index.js:89-96 | every trimmed string of that shape is accepted with exactly that value (the converse of soundness) |
| Duration.ParseDurationTrimInvariant | index.js:90 | parsing ignores surrounding white space: trimmed and untrimmed input parse alike |
| Duration.ParseDurationNeedsUnit | index.js:90-91 | a string whose trimmed form is empty or does not end in s/m/h/d (either case) is rejected |
| Duration.ParseDurationOfNumberAndUnit | index.js:89-96 | a decimal number followed by a unit letter ("15m", "2h") gives n × 1000, 60000, 3600000 or 86400000 |
| Moderation.Timeout | index.js:684-699 | a missing moderator or bot permission is reported first with no effects. With both permissions, the duration is rejected with no effects exactly when it parses to null or 0, and otherwise the outcome is a timeout of exactly the parsed length. A timeout starts with the member fetch, the DM and the timeout call, and ends with the log entry exactly when the log channel is text-based |
| Roles.HasAnyRole | index.js:103-108 | true iff some list entry matches: an all-digit entry against the role ids, any other entry against the role names |
| Roles.IsStaff | index.js:109-111 | `isStaff`: the member matches the CCR entry, the SCR entry or one of the team role names (characterised below) |
| Roles.IsApprover | index.js:935-937 | the approval gate: the member matches the CCR or the SCR entry and nothing else (characterised below) |
| Roles.TeamNamesAreNames | index.js:74-76 | no team role name is all digits, so team entries are always matched by name |
| Roles.IsStaffCharacterised | index.js:109-111 | with the CCR and SCR roles configured as ids, a member is staff iff it has one of those ids or a role named after one of the six teams |
| Roles.IsApproverCharacterised | index.js:935-937 | the approval gate admits exactly the holders of the CCR or SCR role id; role names, team names included, do not count |
| Roles.ApproverIsStaff | index.js:935-937 | every member admitted by the approval gate is staff |
| Common.Find | index.js:781 | `Array.prototype.find` and `Collection.find` (also index.js:134): the first element that satisfies the test, and none exactly when no element does |
| Roles.FindCategory | index.js:781 | the result is a category option with the selected value, and none exactly when no option has that value |
| Roles.CategoryLabel | index.js:782-783 | the label of the matching category option, or the selected value itself when no option matches (spelled out below) |
| Roles.CategoryLabelTable | index.js:781-783 | the three known values map to their labels; any other value is its own label |
| Roles.RoleById | index.js:794-795 | the result is a guild role with that id, and none exactly when the guild has none |
| Roles.FindTeamRoleByCategory | index.js:133-137 | the result is a guild role named after the category's role name; none iff the category is unknown or no guild role has that name |
| ChannelName.KeptOf | index.js:792 | each character gives at most one character, from a-z and 0-9. An ASCII capital gives its lower-case letter, and a character of a-z or 0-9 gives itself |
| ChannelName.Kept | index.js:792 | the filtered name is no longer than the input and contains only a-z and 0-9 |
| ChannelName.SafeName | index.js:792 | "ticket-", the filtered user name cut to 12 characters, "-" and the random suffix (shape proved by `ChannelName.SafeNameShape`) |
| ChannelName.Prefix12 | index.js:792 | the cut is a prefix of exactly 12 characters for a longer name, and the whole name when it is no longer than that |
| ChannelName.KeptAppend | index.js:792 | the filter works character by character: filtering a concatenation concatenates the filtered parts |
| ChannelName.KeptOfNameChars | index.js:792 | a name already made of a-z and 0-9 is unchanged by the filter |
| ChannelName.KeptOfAsciiName | index.js:792 | a user name of ASCII letters and digits filters to its ASCII lower case, character for character ("Bob" gives "bob") |
| ChannelName.KeptIdempotent | index.js:792 | filtering twice is filtering once |
| ChannelName.SafeNameShape | index.js:792 | every channel name is "ticket-", the first 12 characters of the filtered user name (all of it when shorter), "-" and the suffix; the middle part is made of a-z and 0-9 |
| ChannelName.SafeNameOfPlainName | index.js:792 | a short plain name appears in the channel name unchanged |
| ChannelName.KeptIgnoresDropped | index.js:792 | a character the filter drops can be removed anywhere without changing the result |
| ChannelName.SafeNameIgnoresDropped | index.js:792 | user names differing only in dropped characters give the same channel name |
| Transcript.InsertByTime | index.js:120 | insertion adds exactly one element: a permutation of the page plus the new message |
| Transcript.InsertKeepsSorted | index.js:120 | inserting into a page sorted by creation time keeps it sorted |
| Transcript.SortByTime | index.js:120 | the sorted page is a permutation of the fetched page, in ascending creation time |
| Transcript.InsertAfterOlder | index.js:120 | a message newer than every message of a page is inserted at its end |
| Transcript.SortOfReversed | index.js:120 | a page fetched newest first sorts back into channel order |
| Transcript.Fetch | index.js:118 | one page fetch: the up to 100 newest messages below the cursor, newest first, as the platform returns them |
| Transcript.OlderThanMessage | index.js:118 | the messages before the cursor message are exactly those earlier in the channel |
| Transcript.RenderLine | index.js:121-125 | one transcript line: ISO time, author tag and id, content, and an attachment list only when the message has attachments |
| Transcript.RenderAll | index.js:121-125 | one line per message of the page |
| Transcript.PagedLines | index.js:117-127 | the lines of the whole history, page by page from the newest page; the loop of `Transcript.BuildTranscript` is proved to produce them |
| Transcript.PageStep | index.js:117-127 | the fetch is empty iff no message lies below the cursor; otherwise the sorted page is the newest 100 (or fewer) of those messages in ascending order, and the next cursor (the oldest of the page) leaves exactly the older ones |
| Transcript.AppendLines | index.js:120-126 | the inner loop appends the rendering of each message of the page, in page order |
| Transcript.BuildTranscript | index.js:114-130 | the loop ends, and returns the newline join of the paged lines: newest page first, each page ascending |
| Transcript.LineCount | index.js:114-130 | there is exactly one line per message of the history |
| Transcript.LineOfMessage | index.js:114-130 | the line at each message's position is that message's rendering |
| Transcript.LinePositionOrder | index.js:114-130 | messages of one page are listed in channel order; a message of a newer page comes before every message of an older page |
| Transcript.OldestOfTwoPagesComesLast | index.js:127 | with 101 messages, the first line is the second message and the last line the first: the transcript is not chronological overall |
| Transcript.NoMessagesIffEmpty | index.js:904 | the attachment reads "(no messages)" exactly when the channel has no messages |
| Sessions.Cast | index.js:976-979 | one ballot on the counters: the old choice (if any) drops by one, floored at 0, then the new choice rises by one; related to a recount by the lemmas below |
| Sessions.SetCount | index.js:978-980 | setting a counter changes that counter alone |
| Sessions.Previous | index.js:976 | the previous ballot is present iff the voter has voted, and is that ballot |
| Sessions.VotersAfterCast | index.js:978 | after a ballot the voter leaves every choice's voter set and joins only the set of the new choice |
| Sessions.CountAfterCast | index.js:976-979 | each choice's voter count drops by one when it held the voter's old ballot and rises by one when it is the new ballot |
| Sessions.CastMatchesRecount | index.js:976-979 | the incremental update applied to a recount gives the recount after the ballot; the clamp at 0 never takes effect |
| Sessions.ReplayIsRecount | index.js:976-979 | starting from zero counts, after any sequence of casts each counter is the number of voters whose ballot is that choice |
| Sessions.RecountTotal | index.js:981 | the three counts of a recount add up to the number of voters |
| Sessions.ReplayTotal | index.js:981 | after any sequence of casts, yes + no + abstain equals the number of voters |
| Sessions.CastTotal | index.js:976-981 | re-voting, for the same choice or another, keeps the total; a first vote raises it by one |
| Sessions.AnnouncementFor | index.js:754-760 | the title, text and colour of each of the four `/session` announcements |
| Sessions.AnnouncementsDistinct | index.js:754-760 | the four announcements of `/session` differ, each with a colour of its own |
| Workflow.NewRecord | index.js:840-847 | a new record is unclaimed, opened and chosen by the actor, with the selected value and its label, or the raw value for an unknown one |
| Workflow.ReleaseRule | index.js:891-895 | the claimant may always release; anyone else, and everyone for an unclaimed ticket, needs ManageChannels |
| Workflow.VisibleTo | index.js:798-804 | the opener is the first id the new channel is visible to |
| Workflow.VisibleToRoles | index.js:794-804 | besides the opener, the channel is visible to the CCR role, the SCR role and the category's team role. Each is listed whenever it exists in the guild and only then, and no other id is listed |
| Workflow.Engine.constructor | index.js:84-86 | all three stores start empty and the engine invariant holds |
| Workflow.Engine.OpenTicket | index.js:780-850 | a missing or non-category parent gives Misconfigured and no change; otherwise exactly one record is inserted, with the channel creation, the claim panel and the optional team ping as effects, and the other stores are unchanged |
| Workflow.Engine.TicketMenu | index.js:853-931 | an untracked channel gives NotTracked, then a non-staff actor NotStaff, both with no change. A claim on a claimed ticket names the holder; otherwise it sets only claimedBy. A release follows the release rule and clears claimedBy. A close whose log the text-based log channel refuses fails with the record kept; otherwise the close logs the transcript, removes only that record, then deletes the channel |
| Workflow.Engine.RequestMessage | index.js:575-617 | a missing approval channel fails and a non-text one is misconfigured, both with no change; otherwise the request is posted and stored under the posted message's id |
| Workflow.Engine.ApprovalMenu | index.js:934-968 | a non-approver is refused before the lookup, and an unknown message is expired, both with no effects; approval broadcasts to a text target (with the team ping when the role exists) and clears the menu; decline clears the menu and DMs the requester; no store changes |
| Workflow.Engine.Session | index.js:723-770 | a missing or non-text session channel is misconfigured with no change; a vote posts its panel and starts at zero counts with no ballots; a status posts its announcement |
| Workflow.Engine.SessionVoteMenu | index.js:971-991 | an unknown vote is expired with no change; otherwise the ballot is recorded, the counters equal the recount of all ballots, and the results show a total equal to the number of voters |
| Scenarios.TicketLifecycle | index.js:853-931 | open, claim, a second claim refused naming the holder, release, claim, close, then any action is NotTracked |
| Scenarios.CloseLogRefused | index.js:901-931 | a close whose log is refused leaves the ticket tracked, so a second close succeeds and a third finds it not tracked |
| Scenarios.ReleaseUnclaimed | index.js:891-895 | releasing an unclaimed ticket without ManageChannels is refused and the ticket stays open and claimable |
| Scenarios.NonStaffRefused | index.js:856-862 | a non-staff member is refused on a tracked ticket and nothing changes for the next (staff) claim |
| Scenarios.DeclineKeepsRequest | index.js:934-968 | a declined request can still be approved afterwards |
| Scenarios.Revote | index.js:971-991 | yes by u, then no by u, then yes by v shows one yes, one no and a total of two |
| Text.IsJsSpace | index.js:90 | the ECMAScript white-space and line-terminator characters that `String.prototype.trim` removes and `\s` matches: U+0009-U+000D, space, U+00A0, U+1680, U+2000-U+200A, U+2028, U+2029, U+202F, U+205F, U+3000 and U+FEFF |
| Text.IsPySpace | bot.py:79-82 | the characters for which Python `str.isspace` holds, which `str.strip()` removes: U+0009-U+000D, U+001C-U+001F, space, U+0085, U+00A0, U+1680, U+2000-U+200A, U+2028, U+2029, U+202F, U+205F and U+3000 |
| Text.Strip | index.js:90 | the result neither starts nor ends with a space character of the dialect |
| Text.StripIsInfix | index.js:90 | the stripped string is an infix of the input with only space characters before and after it; with `Text.Strip` this is exactly the removal of the white space at both ends |
| Text.JsTrim | index.js:90 | `String.prototype.trim`: the strip with the ECMAScript white-space set |
| Text.PyStrip | bot.py:79-82 | `str.strip()` without arguments: the strip with the Python white-space set |
| Text.Split | bot.py:82 | Python `split` returns at least one piece and no piece contains the separator |
| Text.SplitJoin | bot.py:82 | splitting a join of separator-free parts gives the parts back |
| RoleList.RoleListOf | bot.py:78-89 | `parse_role_list` as a function: strip, split at commas, drop blank fragments, keep the fragments `int()` accepts; the loop of `RoleList.ParseRoleList` is proved to compute it |
| RoleList.Digits | bot.py:86 | removing the underscores leaves only digits |
| RoleList.PyInt | bot.py:86-88 | `int()` succeeds iff the fragment is an optional sign followed by digits with single underscores between digits. A leading `-` gives a value of at most 0, any other fragment a value of at least 0, and a sign only flips or keeps the value of the rest |
| RoleList.NonBlank | bot.py:82 | the kept fragments are no more than the pieces, and none is blank |
| RoleList.IntsOf | bot.py:83-88 | at most one id per fragment |
| RoleList.StripFragments | bot.py:82 | the comprehension yields the stripped non-blank fragments in order |
| RoleList.ParseInts | bot.py:83-88 | the loop keeps, in order, the value of every fragment `int()` accepts and skips the rest |
| RoleList.ParseRoleList | bot.py:78-89 | the result is the parse of the stripped input: nothing for blank input, else the ids of the non-blank integer fragments in order |
| RoleList.BlankGivesNothing | bot.py:79-81 | a blank or white-space-only input gives no ids |
| RoleList.IntsOfAppend | bot.py:84-88 | non-integer fragments are dropped without disturbing the order of the others |
| RoleList.PyIntOfDecimal | bot.py:86 | a decimal spelling of a natural number parses back to that number |
| RoleList.StripDecimal | bot.py:82 | stripping leaves a decimal spelling alone |
| RoleList.NonBlankDecimals | bot.py:82 | decimal fragments all survive the blank filter |
| RoleList.IntsOfDecimals | bot.py:84-88 | decimal fragments parse back to their numbers, in order |
| RoleList.RoundTrip | bot.py:78-89 | ids written in decimal and joined by commas parse back to the same ids |
| SupportDesk.AllowedClaimRoles | bot.py:253-254 | gsaccess for a general ticket, csaccess for every other type |
| SupportDesk.OnLoa | bot.py:257-258 | the LOA role is configured (truthy) and the member holds it |
| SupportDesk.AnyHeld | bot.py:261 | true iff some role of the allowed list is among the member's roles |
| SupportDesk.ClaimRefusal | bot.py:253-263 | the role checks pass iff the member is not on LOA and holds a role of gsaccess (general tickets) or csaccess (other types); a refusal is OnLeave or NoPermission |
| SupportDesk.LoaRefusedWithAnyRoles | bot.py:257-260 | a member holding the LOA role is refused as on leave whatever other roles it also holds |
| SupportDesk.CloseAllowed | bot.py:289-291 | some member role is in the union of gsaccess and csaccess |
| SupportDesk.CloseAllowedIff | bot.py:289-293 | closing is allowed iff some member role is in gsaccess or in csaccess; the LOA role plays no part |
| SupportDesk.ClaimerMayClose | bot.py:288-293 | whoever passes the claim role checks may also close |
| SupportDesk.ShownClaimer | bot.py:300 | the close log names the claimer only when the stored claimer is truthy |
| SupportDesk.LogsChannel | bot.py:295 | the logs channel is used iff it is configured (truthy) and exists in the guild |
| SupportDesk.TicketDesk.constructor | utils.py:33-41 | the ticket table starts empty |
| SupportDesk.TicketDesk.GetTicket | utils.py:123-139 | a row is returned iff the channel has one, and it is that row |
| SupportDesk.TicketDesk.CreateTicketRecord | utils.py:106-114 | insert-or-replace of an unclaimed row; other rows unchanged |
| SupportDesk.TicketDesk.SetTicketClaim | utils.py:116-121 | sets claimedBy of an existing row only; with no row the table is unchanged |
| SupportDesk.TicketDesk.ClearTicket | utils.py:141-146 | removes that channel's row and no other |
| SupportDesk.TicketDesk.Claim | bot.py:244-277 | a missing row is refused first with no change; then LOA, then the role list; a claimed ticket is refused naming the claimer with claimedBy unchanged; otherwise claimedBy becomes the actor, access is granted and the claim announced |
| SupportDesk.TicketDesk.ClaimSelectCallback | bot.py:164-200 | LOA, then the role list of the captured type; a truthy stored claimer is reported. Otherwise the claim updates an existing row and leaves the table unchanged when the row is missing. It then fails when the channel is gone, and otherwise succeeds and is logged when the logs channel exists |
| SupportDesk.TicketDesk.CloseTicket | bot.py:280-306 | a missing row is refused first and a member without a gsaccess or csaccess role next, both with no change. A close log the logs channel refuses fails with the row kept. Otherwise the close is logged, the row cleared, and only then the channel deleted |
| SupportDesk.DeskLifecycle | bot.py:164-306 | create, claim, a second claim refused naming the first claimer; the claim menu of a rowless channel succeeds without adding a row; close; `/claim` then finds no ticket, the claim menu of the deleted channel fails, and the table stays empty |

## Left out

- Platform I/O is reduced to effect values. This covers embeds and their colours,
  ephemeral replies, deferred replies, permission overwrites and the `.catch(() => {})`
  best-effort calls. A best-effort call that fails (a DM, a role ping, a channel delete)
  does not change any store, so the model lists it as performed.
- Awaited platform calls without a `.catch` are modelled as succeeding, except the
  close log. Workflow.Engine.TicketMenu and SupportDesk.TicketDesk.CloseTicket take
  `logDelivered`, and SupportDesk.TicketDesk.ClaimSelectCallback fails on a channel
  that is gone. A failure of any other such call aborts the handler with the error
  reply. Here is what each failure leaves behind:
  - After the store change, the store is as the model states; only the later effects
    are missing:
    - Workflow.Engine.TicketMenu: the claim notice and claim log
      (index.js:869, 873) and the release notice (index.js:896);
    - Workflow.Engine.TicketMenu, close: the final reply (index.js:928) comes after
      the record is removed (index.js:927). If it fails, the channel delete
      (index.js:929) never runs, so the channel survives untracked, although the
      model lists DeleteChannel;
    - Workflow.Engine.SessionVoteMenu: the message update (index.js:990);
    - SupportDesk.TicketDesk.Claim: the permission grant and notice
      (bot.py:274, 276);
    - SupportDesk.TicketDesk.ClaimSelectCallback: the notice and the claim log
      (bot.py:193, 200);
    - SupportDesk.TicketDesk.CloseTicket: the channel delete (bot.py:306).
  - Workflow.Engine.ApprovalMenu: a failed broadcast (index.js:956) or menu update
    (index.js:959, 962) changes no store in any case.
  - Before the store change, nothing is recorded:
    - Workflow.Engine.OpenTicket: the channel creation (index.js:806) and the panel
      post (index.js:834). After a failed panel post, the channel exists but is not
      tracked.
    - Workflow.Engine.RequestMessage: the post (index.js:610). A failed fetch of a
      missing approval channel (index.js:605) is modelled, as `Failed`.
    - Workflow.Engine.TicketMenu, close: the deferred reply (index.js:902) and the
      history fetches of the transcript (index.js:118). The record is kept.
    - Workflow.Engine.Session: the vote post (index.js:749). The announcement
      (index.js:768) changes no store in any case.
- Moderation.Timeout: models only the `/timeout` and `/mute` check order and effect
  order. An exception from the member fetch or the timeout call, and the final reply,
  are not modelled.
- Ban, kick, warn, untimeout/unmute, `staff-investigation`, `rank-change` and both
  `setup-bot` handlers are left out. They are platform calls and echoes of
  configuration with no store of their own.
- Slash-command registration, the client setup, the keep-alive web server and the
  environment-variable warnings are left out. An undefined role id
  (`CCR_ROLE_ID`, `SCR_ROLE_ID`, the staff and approver role lists) and the ticket
  category looked up in the cache (index.js:787) are represented by configured ids
  that match no role or channel.
- Unset channel variables are not modelled. Each is a configured id; the notes below
  say what would happen if one were unset:
  - An unset `LOG_CHANNEL_ID` makes the claim log and close log lookups
    (index.js:871-872, 907, 923) receive a whole channel collection, and the
    text-channel test then raises.
  - An unset `SESSION_CHANNEL_ID` does the same in `/session` (index.js:725-726).
  - An unset `APPROVAL_CHANNEL_ID` gives the misconfigured reply (index.js:605-607),
    where the model's missing channel gives `Failed`.
- commands.js is not part of this model: it only wraps platform calls and has no
  state or guard.
- Clocks and randomness are parameters: the creation time, the random channel-name
  suffix and the new channel and message ids. The random phrases of bot.py are left out.
- Transcript.Message: the ISO time text of each message is given with the message,
  because date formatting is not modelled.
- Transcript.BuildTranscript: requires a history whose ids and timestamps both grow
  along the channel, as platform ids do. Histories with equal timestamps are not modelled.
- Duration.ParseDurationSound: the number is its exact decimal value. JavaScript's
  `parseInt` loses precision above 2^53, and that loss is not modelled.
- ChannelName.KeptOf: lower-casing is modelled for ASCII capitals, for the Kelvin sign
  (U+212A) and for the capital I with dot above (U+0130). These are the characters
  whose lower case falls in a-z. Every other character is dropped, which matches the
  filter because no other lower case lands in a-z or 0-9.
- RoleList.PyInt: Python's `int()` also accepts non-ASCII Unicode digits; only ASCII
  digits are modelled. CPython 3.11 and later (and the 3.9.14 and 3.10.7 security
  releases) have a conversion limit: `int()` raises `ValueError` on a base-10 string of
  more than 4300 digits (`sys.get_int_max_str_digits()`), so `parse_role_list` skips
  such a fragment. That limit is not modelled: RoleList.PyInt accepts such a fragment,
  and RoleList.RoundTrip holds in the source only for ids of at most 4300 digits.
- The sqlite database of utils.py is replaced by an abstract map with its three writes
  and its read. The configuration load and save and the table creation are not modelled.
- The modal and select-menu plumbing of bot.py is left out: opening a ticket through
  the modal, posting the public embed, and `/add_user`. Only the guards and table
  writes of the claim and close paths are modelled.
- Interleaving of concurrent asynchronous handlers is left out: events are handled one
  at a time.
