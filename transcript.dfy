/** `buildTranscript` of index.js: page backwards through a channel's history, 100
    messages at a time, sort each page by creation time, render one line per message,
    and join the lines with newlines.

    The history is a sequence in channel order (oldest first). Because the sort is in
    place, `fetched.first()` is the oldest message of the page, so the cursor moves to
    the oldest message fetched so far: the pages come out newest page first, each page
    in ascending order. */
module Transcript {
  import opened Common
  import opened Text

  datatype Message = Message(id: nat, createdTimestamp: int, isoTime: string, authorTag: string,
                             authorId: string, content: string, attachmentUrls: seq<string>)

  /** The `limit` of every fetch. */
  const PageLimit: nat := 100

  /** Message ids and creation times grow along the channel, as the platform's ids
      (which encode the creation time) do. */
  ghost predicate Chronological(h: seq<Message>) {
    forall i, j :: 0 <= i < j < |h| ==> h[i].id < h[j].id && h[i].createdTimestamp < h[j].createdTimestamp
  }

  /** The messages whose id is below `b`, in channel order. */
  function IdsBelow(h: seq<Message>, b: nat): (r: seq<Message>)
    ensures |r| <= |h|
  {
    if h == [] then [] else (if h[0].id < b then [h[0]] else []) + IdsBelow(h[1..], b)
  }

  /** The messages older than the cursor; all of them when there is no cursor yet. */
  function OlderThan(h: seq<Message>, before: Option<nat>): seq<Message> {
    match before
    case None => h
    case Some(b) => IdsBelow(h, b)
  }

  function Reverse<T>(s: seq<T>): (r: seq<T>)
    ensures |r| == |s|
    ensures forall i :: 0 <= i < |s| ==> r[i] == s[|s| - 1 - i]
  {
    if s == [] then [] else Reverse(s[1..]) + [s[0]]
  }

  /** Start of the newest page of a history of `n` messages. */
  function PageStart(n: nat): (lo: nat)
    ensures lo <= n
    ensures n > 0 ==> lo < n
  {
    if n > PageLimit then n - PageLimit else 0
  }

  /** One fetch of at most 100 messages before the cursor: the newest (at most) 100
      messages older than the cursor, newest first. */
  function Fetch(h: seq<Message>, before: Option<nat>): seq<Message> {
    var older := OlderThan(h, before);
    Reverse(older[PageStart(|older|)..])
  }

  predicate SortedByTime(s: seq<Message>) {
    forall i, j :: 0 <= i < j < |s| ==> s[i].createdTimestamp <= s[j].createdTimestamp
  }

  /** Place `m` before the first element that is not older than it (a stable insert). */
  function InsertByTime(m: Message, s: seq<Message>): (r: seq<Message>)
    ensures |r| == |s| + 1
    ensures multiset(r) == multiset(s) + multiset{m}
  {
    if s == [] then [m]
    else if m.createdTimestamp <= s[0].createdTimestamp then [m] + s
    else
      assert s == [s[0]] + s[1..];
      [s[0]] + InsertByTime(m, s[1..])
  }

  lemma {:induction false} InsertKeepsSorted(m: Message, s: seq<Message>)
    requires SortedByTime(s)
    ensures SortedByTime(InsertByTime(m, s))
  {
    if s != [] && m.createdTimestamp > s[0].createdTimestamp {
      var t := InsertByTime(m, s[1..]);
      InsertKeepsSorted(m, s[1..]);
      assert s == [s[0]] + s[1..];
      forall k | 0 <= k < |t|
        ensures s[0].createdTimestamp <= t[k].createdTimestamp
      {
        assert t[k] in multiset(t);
        if t[k] != m {
          assert t[k] in multiset(s[1..]);
          var idx :| 0 <= idx < |s[1..]| && s[1..][idx] == t[k];
          assert s[idx + 1] == t[k];
        }
      }
    }
  }

  /** The page sorted by creation time, ascending. */
  function SortByTime(s: seq<Message>): (r: seq<Message>)
    ensures |r| == |s|
    ensures multiset(r) == multiset(s)
    ensures SortedByTime(r)
  {
    if s == [] then []
    else
      assert s == [s[0]] + s[1..];
      InsertKeepsSorted(s[0], SortByTime(s[1..]));
      InsertByTime(s[0], SortByTime(s[1..]))
  }

  lemma {:induction false} InsertAfterOlder(m: Message, s: seq<Message>)
    requires forall k :: 0 <= k < |s| ==> s[k].createdTimestamp < m.createdTimestamp
    ensures InsertByTime(m, s) == s + [m]
  {
    if s != [] {
      InsertAfterOlder(m, s[1..]);
      assert [s[0]] + (s[1..] + [m]) == s + [m];
    }
  }

  /** A page that arrives newest first is sorted back into channel order. */
  lemma {:induction false} SortOfReversed(s: seq<Message>)
    requires Chronological(s)
    ensures SortByTime(Reverse(s)) == s
  {
    if s != [] {
      var last := |s| - 1;
      var r := Reverse(s);
      assert r[1..] == Reverse(s[..last]);
      SortOfReversed(s[..last]);
      InsertAfterOlder(s[last], s[..last]);
      assert s[..last] + [s[last]] == s;
    }
  }

  lemma {:induction false} IdsBelowSplit(h: seq<Message>, b: nat, k: nat)
    requires k <= |h|
    requires forall i :: 0 <= i < k ==> h[i].id < b
    requires forall i :: k <= i < |h| ==> h[i].id >= b
    ensures IdsBelow(h, b) == h[..k]
  {
    if h != [] {
      IdsBelowSplit(h[1..], b, if k == 0 then 0 else k - 1);
      if k > 0 {
        assert [h[0]] + h[1..][..k - 1] == h[..k];
      }
    }
  }

  /** In a chronological history, the messages older than message `lo` are exactly
      the ones before it. */
  lemma OlderThanMessage(h: seq<Message>, lo: nat)
    requires Chronological(h) && lo < |h|
    ensures OlderThan(h, Some(h[lo].id)) == h[..lo]
  {
    IdsBelowSplit(h, h[lo].id, lo);
  }

  /** `[iso] tag (id): content`, then the attachment urls when there are any. */
  function RenderLine(m: Message): string {
    "[" + m.isoTime + "] " + m.authorTag + " (" + m.authorId + "): " + m.content
      + (if |m.attachmentUrls| > 0 then " [attachments: " + Join(m.attachmentUrls, ", ") + "]" else "")
  }

  function RenderAll(s: seq<Message>): (r: seq<string>)
    ensures |r| == |s|
  {
    seq(|s|, i requires 0 <= i < |s| => RenderLine(s[i]))
  }

  /** The lines the loop emits: the newest page of (at most) 100 messages first, in
      ascending order, then the lines of the older messages in the same way. */
  function PagedLines(h: seq<Message>): seq<string>
    decreases |h|
  {
    if h == [] then []
    else
      var lo := PageStart(|h|);
      RenderAll(h[lo..]) + PagedLines(h[..lo])
  }

  /** One turn of the loop, from a cursor below which exactly the first `k` messages
      lie: the page fetched is empty only when `k` is 0; otherwise it sorts back into
      `h[lo..k]`, the next cursor leaves `h[..lo]`, and the page's lines come first
      among those still to be emitted. */
  lemma PageStep(h: seq<Message>, before: Option<nat>, k: nat)
    requires Chronological(h) && k <= |h| && OlderThan(h, before) == h[..k]
    ensures |Fetch(h, before)| == 0 <==> k == 0
    ensures k > 0 ==>
              var lo := PageStart(k);
              && SortByTime(Fetch(h, before)) == h[lo..k]
              && OlderThan(h, Some(h[lo].id)) == h[..lo]
              && PagedLines(h[..k]) == RenderAll(h[lo..k]) + PagedLines(h[..lo])
  {
    var lo := PageStart(k);
    var older := h[..k];
    assert |older| == k;
    assert older[lo..] == h[lo..k];
    if k > 0 {
      assert older[..lo] == h[..lo];
      SortOfReversed(h[lo..k]);
      OlderThanMessage(h, lo);
    }
  }

  /** The inner loop: `lines` followed by one rendered line per message of `page`. */
  method AppendLines(lines: seq<string>, page: seq<Message>) returns (out: seq<string>)
    ensures out == lines + RenderAll(page)
  {
    out := lines;
    var i := 0;
    while i < |page|
      invariant 0 <= i <= |page|
      invariant out == lines + RenderAll(page[..i])
    {
      assert RenderAll(page[..i + 1]) == RenderAll(page[..i]) + [RenderLine(page[i])];
      out := out + [RenderLine(page[i])];
      i := i + 1;
    }
    assert page[..i] == page;
  }

  /** The transcript text, built by the loop of index.js. */
  method BuildTranscript(h: seq<Message>) returns (text: string)
    requires Chronological(h)
    ensures text == Join(PagedLines(h), "\n")
  {
    var lastId: Option<nat> := None;
    var lines: seq<string> := [];
    ghost var k: nat := |h|;
    assert h[..k] == h;
    while true
      invariant k <= |h|
      invariant OlderThan(h, lastId) == h[..k]
      invariant lines + PagedLines(h[..k]) == PagedLines(h)
      decreases k
    {
      var fetched := Fetch(h, lastId);
      PageStep(h, lastId, k);
      if |fetched| == 0 {
        assert h[..k] == [] && PagedLines(h[..k]) == [];
        assert lines + [] == lines;
        break;
      }
      ghost var lo := PageStart(k);
      var page := SortByTime(fetched);
      assert page == h[lo..k];
      assert page[0] == h[lo];
      ghost var before, pageLines, rest := lines, RenderAll(page), PagedLines(h[..lo]);
      assert PagedLines(h[..k]) == pageLines + rest;
      lines := AppendLines(lines, page);
      ConcatAssoc(before, pageLines, rest);
      lastId := Some(page[0].id);
      k := lo;
    }
    text := Join(lines, "\n");
  }

  /** What is attached on close: the transcript, or "(no messages)" when it is empty. */
  function Attachment(text: string): string {
    if text == "" then "(no messages)" else text
  }

  /** Every message gives exactly one line. */
  lemma {:induction false} LineCount(h: seq<Message>)
    ensures |PagedLines(h)| == |h|
    decreases |h|
  {
    if h != [] {
      LineCount(h[..PageStart(|h|)]);
    }
  }

  /** Where message `i` of a history of `n` messages appears among the lines. */
  function LinePosition(n: nat, i: nat): nat
    requires i < n
    decreases n
  {
    var lo := PageStart(n);
    if i >= lo then i - lo else (n - lo) + LinePosition(lo, i)
  }

  /** The line at `LinePosition(|h|, i)` is the rendering of message `i`. */
  lemma {:induction false} LineOfMessage(h: seq<Message>, i: nat)
    requires i < |h|
    ensures LinePosition(|h|, i) < |PagedLines(h)|
    ensures PagedLines(h)[LinePosition(|h|, i)] == RenderLine(h[i])
    decreases |h|
  {
    var lo := PageStart(|h|);
    LineCount(h);
    if i < lo {
      LineOfMessage(h[..lo], i);
      LineCount(h[..lo]);
    }
  }

  /** Inside a page the lines are in channel order; a message of a newer page is
      listed before every message of an older page. */
  lemma LinePositionOrder(n: nat, i: nat, j: nat)
    requires i < j < n
    ensures PageStart(n) <= i ==> LinePosition(n, i) < LinePosition(n, j)
    ensures i < PageStart(n) <= j ==> LinePosition(n, j) < LinePosition(n, i)
  {
  }

  /** With 101 messages the oldest one comes last: the transcript is not in global
      chronological order once the history spans two pages. */
  lemma OldestOfTwoPagesComesLast(h: seq<Message>)
    requires |h| == 101
    ensures |PagedLines(h)| == 101
    ensures PagedLines(h)[0] == RenderLine(h[1])
    ensures PagedLines(h)[100] == RenderLine(h[0])
  {
    LineCount(h);
    LineOfMessage(h, 1);
    LineOfMessage(h, 0);
  }

  lemma {:induction false} JoinHead(parts: seq<string>, sep: string)
    requires |parts| > 0 && |parts[0]| > 0
    ensures |Join(parts, sep)| > 0 && Join(parts, sep)[0] == parts[0][0]
  {
  }

  /** The attachment reads "(no messages)" exactly when the history is empty. */
  lemma NoMessagesIffEmpty(h: seq<Message>)
    ensures Attachment(Join(PagedLines(h), "\n")) == "(no messages)" <==> h == []
  {
    if h != [] {
      LineOfMessage(h, PageStart(|h|));
      assert PagedLines(h)[0] == RenderLine(h[PageStart(|h|)]);
      JoinHead(PagedLines(h), "\n");
    }
  }
}
