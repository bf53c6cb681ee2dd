/** The session system of index.js: the announcement table of `/session`, and the
    arithmetic of the session vote menu, which keeps one ballot per voter and three
    counters that it updates incrementally. */
module Sessions {
  import opened Common

  /** The options of the vote menu. */
  datatype Choice = Yes | No | Abstain

  datatype Counts = Counts(yes: nat, no: nat, abstain: nat)

  /** `counts[c]`. */
  function Get(k: Counts, c: Choice): nat {
    match c
    case Yes => k.yes
    case No => k.no
    case Abstain => k.abstain
  }

  /** `counts[c] = n`. */
  function SetCount(k: Counts, c: Choice, n: nat): (r: Counts)
    ensures Get(r, c) == n
    ensures forall d :: d != c ==> Get(r, d) == Get(k, d)
  {
    match c
    case Yes => k.(yes := n)
    case No => k.(no := n)
    case Abstain => k.(abstain := n)
  }

  /** `counts.yes + counts.no + counts.abstain`. */
  function Total(k: Counts): nat {
    k.yes + k.no + k.abstain
  }

  /** The counters a new vote starts from. */
  const Zero: Counts := Counts(0, 0, 0)

  /** One cast by a voter whose previous ballot was `prev`: the counter of the previous
      choice, if any, goes down by one but not below zero, then the counter of the new
      choice goes up by one. */
  function Cast(k: Counts, prev: Option<Choice>, c: Choice): Counts {
    var dropped :=
      match prev
      case None => k
      case Some(p) => SetCount(k, p, if Get(k, p) >= 1 then Get(k, p) - 1 else 0);
    SetCount(dropped, c, Get(dropped, c) + 1)
  }

  /** `entry.votes.get(user)`. */
  function Previous(votes: map<string, Choice>, voter: string): (r: Option<Choice>)
    ensures r.Some? <==> voter in votes
    ensures r.Some? ==> r.value == votes[voter]
  {
    if voter in votes then Some(votes[voter]) else None
  }

  /** The voters whose ballot is `c`. */
  function VotersFor(votes: map<string, Choice>, c: Choice): set<string> {
    set u | u in votes && votes[u] == c
  }

  /** The counters as a recount of the ballots would give them. */
  function Recount(votes: map<string, Choice>): Counts {
    Counts(|VotersFor(votes, Yes)|, |VotersFor(votes, No)|, |VotersFor(votes, Abstain)|)
  }

  /** How one ballot changes the voters of each choice. */
  lemma VotersAfterCast(votes: map<string, Choice>, voter: string, c: Choice, d: Choice)
    ensures VotersFor(votes[voter := c], d) ==
              (VotersFor(votes, d) - {voter}) + (if c == d then {voter} else {})
  {
  }

  /** How one ballot changes the number of voters of each choice. */
  lemma CountAfterCast(votes: map<string, Choice>, voter: string, c: Choice, d: Choice)
    ensures |VotersFor(votes[voter := c], d)| ==
              |VotersFor(votes, d)|
              - (if voter in votes && votes[voter] == d then 1 else 0)
              + (if c == d then 1 else 0)
  {
    var before := VotersFor(votes, d);
    VotersAfterCast(votes, voter, c, d);
    if voter in votes && votes[voter] == d {
      assert voter in before;
      assert |before - {voter}| == |before| - 1;
    } else {
      assert voter !in before;
      assert before - {voter} == before;
    }
  }

  /** The incremental update agrees with a recount: applied to the recount of the
      ballots before the cast, it gives the recount of the ballots after it. Because
      a voter's previous choice is always counted at least once, the clamp at 0
      never takes effect. */
  lemma CastMatchesRecount(votes: map<string, Choice>, voter: string, c: Choice)
    ensures Cast(Recount(votes), Previous(votes, voter), c) == Recount(votes[voter := c])
  {
    var after := votes[voter := c];
    CountAfterCast(votes, voter, c, Yes);
    CountAfterCast(votes, voter, c, No);
    CountAfterCast(votes, voter, c, Abstain);
    if voter in votes {
      assert voter in VotersFor(votes, votes[voter]);
    }
  }

  /** The ballots and counters after a sequence of casts `(voter, choice)` on a new
      vote, replayed as the menu handler does it, one cast at a time. */
  function Replay(casts: seq<(string, Choice)>): (map<string, Choice>, Counts) {
    if casts == [] then (map[], Zero)
    else
      var (votes, counts) := Replay(casts[..|casts| - 1]);
      var (voter, c) := casts[|casts| - 1];
      (votes[voter := c], Cast(counts, Previous(votes, voter), c))
  }

  /** After any sequence of casts, `counts[c]` is the number of voters whose ballot
      is `c`. */
  lemma {:induction false} ReplayIsRecount(casts: seq<(string, Choice)>)
    ensures Replay(casts).1 == Recount(Replay(casts).0)
  {
    if casts != [] {
      var earlier := casts[..|casts| - 1];
      ReplayIsRecount(earlier);
      var (voter, c) := casts[|casts| - 1];
      CastMatchesRecount(Replay(earlier).0, voter, c);
    }
  }

  /** The three counts of a recount add up to the number of voters. */
  lemma RecountTotal(votes: map<string, Choice>)
    ensures Total(Recount(votes)) == |votes|
  {
    var y, n, a := VotersFor(votes, Yes), VotersFor(votes, No), VotersFor(votes, Abstain);
    assert y * n == {} && y * a == {} && n * a == {};
    assert y + n + a == votes.Keys;
    assert |votes.Keys| == |votes|;
  }

  /** And so, after any sequence of casts, `yes + no + abstain == votes.size`. */
  lemma ReplayTotal(casts: seq<(string, Choice)>)
    ensures Total(Replay(casts).1) == |Replay(casts).0|
  {
    ReplayIsRecount(casts);
    RecountTotal(Replay(casts).0);
  }

  /** A voter who votes again, for the same choice or another, leaves the total as
      it was; a first vote raises it by one. */
  lemma CastTotal(votes: map<string, Choice>, voter: string, c: Choice)
    ensures Total(Cast(Recount(votes), Previous(votes, voter), c)) ==
              Total(Recount(votes)) + (if voter in votes then 0 else 1)
  {
    CastMatchesRecount(votes, voter, c);
    RecountTotal(votes);
    RecountTotal(votes[voter := c]);
  }

  /** The subcommands of `/session` that post an announcement. */
  datatype Status = Start | Shutdown | Low | Full

  datatype Announcement = Announcement(title: string, text: string, color: nat)

  /** The announcement table of `/session`. */
  function AnnouncementFor(s: Status): Announcement {
    match s
    case Start => Announcement("\U{1F7E2} Session Started", "The session is now active.", 0x2ecc71)
    case Shutdown => Announcement("\U{1F534} Session Shutdown", "The session has ended.", 0xe74c3c)
    case Low => Announcement("\U{1F7E1} Session Low", "The session has low activity.", 0xf1c40f)
    case Full => Announcement("\U{1F535} Session Full", "The session is full.", 0x3498db)
  }

  /** Each status has an announcement of its own colour, so no two announcements
      are alike. */
  lemma AnnouncementsDistinct(s: Status, t: Status)
    requires s != t
    ensures AnnouncementFor(s).color != AnnouncementFor(t).color
    ensures AnnouncementFor(s) != AnnouncementFor(t)
  {
  }
}
