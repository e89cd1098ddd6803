/**
 What a session stores between turns (packages/core/src/utils/session-history.ts): the transcript
 without its system messages, cut to a bounded suffix that never splits a tool group.
 */
module SessionHistory {
  import opened Base
  import opened Transcript

  predicate OpensCleanly(m: Message) {
    !m.Tool? && (m.Assistant? ==> m.calls == [])
  }

  function WithoutSystem(ms: seq<Message>): seq<Message> {
    if ms == [] then []
    else if ms[0].System? then WithoutSystem(ms[1..])
    else [ms[0]] + WithoutSystem(ms[1..])
  }

  /** What trimming keeps. */
  function Trimmed(ms: seq<Message>, max: int): seq<Message> {
    if max <= 0 || ms == [] then []
    else if |ms| <= max && OpensCleanly(ms[0]) then ms
    else Trimmed(ms[1..], max)
  }

  /** `trimHistory`. */
  method TrimHistory(ms: seq<Message>, max: int) returns (r: seq<Message>)
    ensures r == Trimmed(ms, max)
  {
    if max <= 0 { return []; }
    var from := if |ms| > max then |ms| - max else 0;
    TooLong(ms, max, from);
    var recent := ms[from..];
    var start := 0;
    assert recent[0..] == recent;
    while start < |recent| && !OpensCleanly(recent[start])
      invariant start <= |recent| && Trimmed(recent[start..], max) == Trimmed(ms, max)
    {
      assert recent[start..][1..] == recent[start + 1..];
      start := start + 1;
    }
    r := if start == 0 then recent else recent[start..];
    assert r == recent[start..];
  }

  lemma {:induction false} TooLong(ms: seq<Message>, max: int, from: nat)
    requires max > 0 && from <= |ms| && (from == 0 || from == |ms| - max)
    ensures Trimmed(ms[from..], max) == Trimmed(ms, max)
  {
    if from == 0 {
      assert ms[0..] == ms;
    } else {
      TooLong(ms[1..], max, from - 1);
      assert ms[1..][from - 1..] == ms[from..];
    }
  }

  /** `cut` is where the longest bounded suffix that opens cleanly starts. */
  ghost predicate CutAt(ms: seq<Message>, max: int, cut: nat) {
    && cut <= |ms| && |ms| - cut <= (if max <= 0 then 0 else max)
    && (cut < |ms| ==> OpensCleanly(ms[cut]))
    && forall j :: 0 <= j < cut && |ms| - j <= max ==> !OpensCleanly(ms[j])
  }

  /** Trimming keeps the longest suffix that is short enough and opens cleanly. */
  lemma {:induction false} TrimmedIsLongest(ms: seq<Message>, max: int) returns (cut: nat)
    ensures CutAt(ms, max, cut) && Trimmed(ms, max) == ms[cut..]
    decreases |ms|
  {
    if max <= 0 || ms == [] {
      cut := |ms|;
    } else if |ms| <= max && OpensCleanly(ms[0]) {
      cut := 0;
    } else {
      var rest := TrimmedIsLongest(ms[1..], max);
      cut := rest + 1;
      forall j | 0 <= j < cut && |ms| - j <= max ensures !OpensCleanly(ms[j]) {
        if j > 0 { assert ms[1..][j - 1] == ms[j]; }
      }
    }
  }

  /** Dropping a protocol transcript's front up to a message that is no result leaves whole groups. */
  lemma {:induction false} SuffixProtocol(ms: seq<Message>, cut: nat, seen: set<string>, kept: set<string>)
    requires Protocol(ms, seen, None) && kept <= seen && cut <= |ms| && (cut < |ms| ==> !ms[cut].Tool?)
    ensures Protocol(ms[cut..], kept, None)
    decreases |ms|
  {
    if cut == 0 {
      assert ms[0..] == ms;
      FewerSeen(ms, seen, kept);
    } else if Opens(ms[0]) {
      var results, rest := Split(ms);
      ProtocolGroup(ms[0], results, rest, seen, None);
      var left := CutBehind(ms[0], results, rest, cut);
      SuffixProtocol(rest, left, seen + IdSet(Ids(ms[0].calls)), kept);
    } else {
      SuffixProtocol(ms[1..], cut - 1, seen, kept);
      assert ms[1..][cut - 1..] == ms[cut..];
    }
  }

  /** A cut that does not open on a result lies behind the whole group. */
  lemma CutBehind(head: Message, results: seq<Message>, rest: seq<Message>, cut: nat) returns (left: nat)
    requires ToolsOnly(results)
    requires var ms := [head] + (results + rest); 0 < cut <= |ms| && (cut < |ms| ==> !ms[cut].Tool?)
    ensures left <= |rest| && ([head] + (results + rest))[cut..] == rest[left..]
    ensures left < |rest| ==> !rest[left].Tool?
  {
    var ms := [head] + (results + rest);
    assert forall j :: 0 < j < 1 + |results| ==> ms[j] == results[j - 1];
    left := cut - (1 + |results|);
  }

  lemma {:induction false} FewerSeen(ms: seq<Message>, seen: set<string>, kept: set<string>)
    requires Protocol(ms, seen, None) && kept <= seen
    ensures Protocol(ms, kept, None)
    decreases |ms|
  {
    if ms != [] {
      if Opens(ms[0]) {
        var n, ids := Results(ms[1..]), Ids(ms[0].calls);
        FewerSeen(ms[1 + n..], seen + IdSet(ids), kept + IdSet(ids));
      } else {
        FewerSeen(ms[1..], seen, kept);
      }
    }
  }

  /** Trimming leaves a bounded suffix, and whole groups of whole groups. */
  lemma TrimKeepsProtocol(ms: seq<Message>, max: int)
    requires Protocol(ms, {}, None)
    ensures Protocol(Trimmed(ms, max), {}, None) && |Trimmed(ms, max)| <= if max <= 0 then 0 else max
    ensures Trimmed(ms, max) != [] ==> OpensCleanly(Trimmed(ms, max)[0])
  {
    var cut := TrimmedIsLongest(ms, max);
    SuffixProtocol(ms, cut, {}, {});
  }

  lemma {:induction false} WithoutSystemResults(ms: seq<Message>)
    ensures WithoutSystem(ms) == ms[..Results(ms)] + WithoutSystem(ms[Results(ms)..])
    ensures var r := WithoutSystem(ms[Results(ms)..]); r != [] ==> !r[0].Tool? || ms[Results(ms)..][0].System?
  {
    if ms != [] && ms[0].Tool? {
      WithoutSystemResults(ms[1..]);
      assert ms[1..][Results(ms[1..])..] == ms[Results(ms)..];
      assert [ms[0]] + ms[1..][..Results(ms[1..])] == ms[..Results(ms)];
    } else {
      assert ms[0..] == ms && ms[..0] == [];
    }
  }

  /** No result stands after a system message, so taking those out splices no group. */
  lemma {:induction false} WithoutSystemProtocol(ms: seq<Message>, seen: set<string>)
    requires Protocol(ms, seen, None) && (ms != [] ==> !ms[0].Tool?)
    ensures Protocol(WithoutSystem(ms), seen, None)
    ensures WithoutSystem(ms) != [] ==> !WithoutSystem(ms)[0].Tool?
    decreases |ms|
  {
    if ms != [] {
      if Opens(ms[0]) {
        var n, ids := Results(ms[1..]), Ids(ms[0].calls);
        var rest := ms[1 + n..];
        WithoutSystemProtocol(rest, seen + IdSet(ids));
        WithoutSystemResults(ms[1..]);
        assert ms[1..][n..] == rest;
        ProtocolGroup(ms[0], ms[1..][..n], WithoutSystem(rest), seen, None);
      } else if ms[1..] == [] || !ms[1].Tool? {
        WithoutSystemProtocol(ms[1..], seen);
        if !ms[0].System? { assert ([ms[0]] + WithoutSystem(ms[1..]))[1..] == WithoutSystem(ms[1..]); }
      }
    }
  }
}
