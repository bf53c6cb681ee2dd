/** The `/timeout` and `/mute` commands of index.js, reduced to the order of their
    checks: the moderator's permission, the bot's permission, then the duration gate,
    and only then the platform actions. */
module Moderation {
  import opened Common
  import opened Duration

  /** Whose ModerateMembers permission is missing. */
  datatype Party = Moderator | Bot

  datatype ModOutcome =
    | MissingPermission(who: Party)
    | InvalidDuration
    | TimedOut(millis: nat)

  datatype ModEffect =
    | FetchMember(user: string)
    | DirectMessage(user: string, durationText: string, reason: string)
    | ApplyTimeout(user: string, millis: nat)
    | LogTimeout(user: string, moderator: string, durationText: string, reason: string)

  /** One `/timeout` (or `/mute`) invocation. `moderatorMay` and `botMay` are the two
      permission checks of `requirePerm`; `logIsText` says whether the log channel was
      found and is text based. */
  function Timeout(moderatorMay: bool, botMay: bool, moderator: string, target: string,
                   durationText: string, reason: string, logIsText: bool)
    : (r: (ModOutcome, seq<ModEffect>))
    ensures !moderatorMay ==> r == (MissingPermission(Moderator), [])
    ensures moderatorMay && !botMay ==> r == (MissingPermission(Bot), [])
    ensures moderatorMay && botMay ==>
              (r.0 == InvalidDuration <==> ParseDuration(durationText) in {None, Some(0)})
    ensures moderatorMay && botMay && ParseDuration(durationText).Some? && ParseDuration(durationText).value > 0 ==>
              r.0 == TimedOut(ParseDuration(durationText).value)
    ensures r.0.InvalidDuration? ==> r.1 == []
    ensures r.0.TimedOut? ==>
              && moderatorMay && botMay
              && r.0.millis > 0 && ParseDuration(durationText) == Some(r.0.millis)
              && |r.1| >= 3
              && r.1[..3] == [FetchMember(target), DirectMessage(target, durationText, reason),
                              ApplyTimeout(target, r.0.millis)]
              && (logIsText <==> |r.1| == 4)
              && (logIsText ==> r.1[3] == LogTimeout(target, moderator, durationText, reason))
  {
    if !moderatorMay then (MissingPermission(Moderator), [])
    else if !botMay then (MissingPermission(Bot), [])
    else
      var ms := ParseDuration(durationText);
      if ms.None? || ms.value == 0 then (InvalidDuration, [])
      else
        var log := if logIsText then [LogTimeout(target, moderator, durationText, reason)] else [];
        (TimedOut(ms.value),
         [FetchMember(target), DirectMessage(target, durationText, reason), ApplyTimeout(target, ms.value)] + log)
  }
}
