/** Channel names: printed by the worker, split and joined again by the subscriber. */
module Channels {
  import opened Wrappers
  import opened Messages

  function IndexOf(s: string, c: char): (i: nat)
    requires c in s
    ensures i < |s| && s[i] == c && c !in s[..i]
  {
    if s[0] == c then 0 else 1 + IndexOf(s[1..], c)
  }

  /** `s.split(c)`. */
  function Split(s: string, c: char): seq<string>
    decreases |s|
  {
    if c in s then [s[..IndexOf(s, c)]] + Split(s[IndexOf(s, c) + 1..], c) else [s]
  }

  /** `parts.join(c)`. */
  function Join(parts: seq<string>, c: char): string {
    if parts == [] then "" else if |parts| == 1 then parts[0] else parts[0] + [c] + Join(parts[1..], c)
  }

  predicate Apart(parts: seq<string>, c: char) {
    forall i | 0 <= i < |parts| :: c !in parts[i]
  }

  lemma {:induction false} SplitSeparates(s: string, c: char)
    ensures Split(s, c) != [] && Apart(Split(s, c), c)
    decreases |s|
  {
    if c in s {
      SplitSeparates(s[IndexOf(s, c) + 1..], c);
    }
  }

  lemma {:induction false} JoinUndoesSplit(s: string, c: char)
    ensures Join(Split(s, c), c) == s
    decreases |s|
  {
    if c in s {
      var i := IndexOf(s, c);
      SplitSeparates(s[i + 1..], c);
      JoinUndoesSplit(s[i + 1..], c);
      JoinCons(s[..i], Split(s[i + 1..], c), c);
      CutAt(s, i);
    }
  }

  lemma JoinCons(head: string, parts: seq<string>, c: char)
    requires parts != []
    ensures Join([head] + parts, c) == head + [c] + Join(parts, c)
  {
    assert ([head] + parts)[1..] == parts;
  }

  lemma CutAt(s: string, i: nat)
    requires i < |s|
    ensures s[..i] + [s[i]] + s[i + 1..] == s
  {}

  lemma {:induction false} FirstIndex(s: string, c: char, n: nat)
    requires n < |s| && s[n] == c && c !in s[..n]
    ensures IndexOf(s, c) == n
  {
    if n > 0 {
      assert s[0] == s[..n][0] && s[1..][..n - 1] == s[..n][1..];
      FirstIndex(s[1..], c, n - 1);
    }
  }

  lemma SplitPrefix(head: string, tail: string, c: char)
    requires c !in head
    ensures Split(head + [c] + tail, c) == [head] + Split(tail, c)
  {
    var s := head + [c] + tail;
    assert s[..|head|] == head && s[|head|] == c && s[|head| + 1..] == tail;
    FirstIndex(s, c, |head|);
  }

  lemma {:induction false} SplitUndoesJoin(parts: seq<string>, c: char)
    requires parts != [] && Apart(parts, c)
    ensures Split(Join(parts, c), c) == parts
  {
    if |parts| == 1 {
    } else {
      assert Apart(parts[1..], c) by {
        forall i | 0 <= i < |parts[1..]| ensures c !in parts[1..][i] { assert parts[1..][i] == parts[i + 1]; }
      }
      SplitUndoesJoin(parts[1..], c);
      SplitPrefix(parts[0], Join(parts[1..], c), c);
    }
  }

  datatype JobChannel = JobChannel(event: string, jobId: string)

  /** The subscriber's reading of a channel name. */
  function ParseChannel(channel: string): Option<JobChannel> {
    var parts := Split(channel, ':');
    if |parts| < 3 then None else Some(JobChannel(parts[1], Join(parts[2..], ':')))
  }

  lemma ThreePartsParse(head: string, event: string, jobId: string)
    requires ':' !in head && ':' !in event
    ensures ParseChannel(head + ":" + event + ":" + jobId) == Some(JobChannel(event, jobId))
  {
    var tail := event + ":" + jobId;
    assert head + ":" + event + ":" + jobId == head + [':'] + tail && tail == event + [':'] + jobId;
    SplitPrefix(head, tail, ':');
    SplitPrefix(event, jobId, ':');
    SplitSeparates(jobId, ':');
    JoinUndoesSplit(jobId, ':');
    DropTwo(head, event, Split(jobId, ':'));
  }

  lemma DropTwo(a: string, b: string, rest: seq<string>)
    ensures ([a] + ([b] + rest))[1] == b && ([a] + ([b] + rest))[2..] == rest
  {}

  /** What the worker prints the subscriber reads back, even for ids with colons. */
  lemma ChannelRoundTrip(event: string, jobId: string)
    requires ':' !in event
    ensures ParseChannel(Channel(event, jobId)) == Some(JobChannel(event, jobId))
  {
    ThreePartsParse("job", event, jobId);
    assert Channel(event, jobId) == "job" + ":" + event + ":" + jobId;
  }

  ghost predicate Spells(channel: string, c: JobChannel) {
    ':' !in c.event && exists head: string :: ':' !in head && channel == head + ":" + c.event + ":" + c.jobId
  }

  lemma JoinThree(parts: seq<string>, c: char)
    requires |parts| >= 3
    ensures Join(parts, c) == parts[0] + [c] + parts[1] + [c] + Join(parts[2..], c)
  {
    assert parts[1..][1..] == parts[2..];
    assert Join(parts[1..], c) == parts[1] + [c] + Join(parts[2..], c);
  }

  lemma ParsedSpells(channel: string, c: JobChannel)
    requires ParseChannel(channel) == Some(c)
    ensures Spells(channel, c)
  {
    var parts := Split(channel, ':');
    SplitSeparates(channel, ':');
    JoinUndoesSplit(channel, ':');
    JoinThree(parts, ':');
    var head := parts[0];
    assert ':' !in head && channel == head + ":" + c.event + ":" + c.jobId;
  }

  /** A channel is read as an event and a job exactly if it has that form. */
  lemma ParsesExactly(channel: string, c: JobChannel)
    ensures ParseChannel(channel) == Some(c) <==> Spells(channel, c)
  {
    if ParseChannel(channel) == Some(c) {
      ParsedSpells(channel, c);
    } else if Spells(channel, c) {
      var head: string :| ':' !in head && channel == head + ":" + c.event + ":" + c.jobId;
      ThreePartsParse(head, c.event, c.jobId);
    }
  }
}
