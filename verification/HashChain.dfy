/**
 The tamper-evident audit chain (packages/core/src/audit/hash-chain-audit.sink.ts): the sink that
 builds it, the verifier, and what an accepted chain proves when the hash has no collisions.
 */
module HashChain {
  import opened Base
  import opened JsonText
  import opened Canonical

  datatype Entry = Entry(sequence: int, event: Json, previousHash: string, hash: string)

  datatype Hasher = Hasher(digest: string -> string, nm: Numerals)

  ghost predicate Injective(h: Hasher) {
    forall a, b {:trigger h.digest(a), h.digest(b)} :: h.digest(a) == h.digest(b) ==> a == b
  }

  const NUL: char := 0 as char

  /** The text one link is the hash of. */
  function LinkText(previousHash: string, event: Json, h: Hasher): string {
    previousHash + [NUL] + Serialize(event, h.nm)
  }

  function EntryHash(previousHash: string, event: Json, h: Hasher): string {
    h.digest(LinkText(previousHash, event, h))
  }

  /* ---------------------------------------------------------------- a link binds its parts */

  lemma SeparatorBehind(p: string, a: string, q: string, b: string, sep: char)
    requires p + [sep] + a == q + [sep] + b && |p| < |q|
    ensures sep in a
  {
    var t := p + [sep] + a;
    assert t[|q|] == sep && t[|q|] == a[|q| - |p| - 1];
  }

  /** Text is split in one way at a separator that does not occur behind it. */
  lemma SplitAtLast(p: string, a: string, q: string, b: string, sep: char)
    requires p + [sep] + a == q + [sep] + b && sep !in a && sep !in b
    ensures p == q && a == b
  {
    if |p| < |q| {
      SeparatorBehind(p, a, q, b, sep);
    } else if |q| < |p| {
      SeparatorBehind(q, b, p, a, sep);
    } else {
      var t, u := p + [sep] + a, q + [sep] + b;
      assert t[..|p|] == p && u[..|q|] == q && t[|p| + 1..] == a && u[|q| + 1..] == b;
    }
  }

  lemma LinkBinds(p: string, e: Json, q: string, f: Json, h: Hasher)
    requires Injective(h) && Faithful(h.nm) && WellFormed(e, h.nm) && WellFormed(f, h.nm)
    requires EntryHash(p, e, h) == EntryHash(q, f, h)
    ensures p == q && DeepEqual(e, f)
  {
    SerializeClean(e, h.nm); SerializeClean(f, h.nm);
    SplitAtLast(p, Serialize(e, h.nm), q, Serialize(f, h.nm), NUL);
    SameTextIffEqual(e, f, h.nm);
  }

  /* --------------------------------------------------------------------- the verifier */

  function ExpectedHash(entries: seq<Entry>, start: string, i: nat): string
    requires i <= |entries|
  {
    if i == 0 then start else entries[i - 1].hash
  }

  /** The entry at `i` continues the chain before it. */
  predicate LinkOk(entries: seq<Entry>, start: string, startSequence: int, i: nat, h: Hasher)
    requires i < |entries|
  {
    var e := entries[i];
    && e.sequence == startSequence + 1 + i
    && e.previousHash == ExpectedHash(entries, start, i)
    && e.hash == EntryHash(e.previousHash, e.event, h)
  }

  ghost predicate Intact(entries: seq<Entry>, start: string, startSequence: int, n: nat, h: Hasher) {
    n <= |entries| && forall i: nat | i < n :: LinkOk(entries, start, startSequence, i, h)
  }

  ghost predicate Accepted(entries: seq<Entry>, start: string, startSequence: int, h: Hasher) {
    Intact(entries, start, startSequence, |entries|, h)
  }

  datatype Reason = SequenceGap | Relinked | Altered

  datatype Verification = Valid(verified: nat) | Broken(at: int, reason: Reason, verified: nat)

  /** `verified` is the longest intact prefix, and the entry behind it is the one reported. */
  method VerifyAuditChain(entries: seq<Entry>, start: string, startSequence: int, h: Hasher) returns (r: Verification)
    ensures Intact(entries, start, startSequence, r.verified, h)
    ensures r.Valid? <==> r.verified == |entries|
    ensures r.Broken? ==> r.verified < |entries| && !LinkOk(entries, start, startSequence, r.verified, h)
    ensures r.Broken? ==> var e := entries[r.verified];
      && r.at == e.sequence
      && (r.reason.SequenceGap? <==> e.sequence != startSequence + 1 + r.verified)
      && (r.reason.Relinked? ==> e.previousHash != ExpectedHash(entries, start, r.verified))
      && (r.reason.Altered? ==> e.hash != EntryHash(e.previousHash, e.event, h))
  {
    var expectedPrevious, expectedSequence := start, startSequence + 1;
    for verified := 0 to |entries|
      invariant Intact(entries, start, startSequence, verified, h)
      invariant expectedPrevious == ExpectedHash(entries, start, verified)
      invariant expectedSequence == startSequence + 1 + verified
    {
      var entry := entries[verified];
      if entry.sequence != expectedSequence { return Broken(entry.sequence, SequenceGap, verified); }
      if entry.previousHash != expectedPrevious { return Broken(entry.sequence, Relinked, verified); }
      if EntryHash(entry.previousHash, entry.event, h) != entry.hash {
        return Broken(entry.sequence, Altered, verified);
      }
      expectedPrevious, expectedSequence := entry.hash, expectedSequence + 1;
    }
    r := Valid(|entries|);
  }

  /* -------------------------------------------------------------------- the chain built */

  /** The chain over a list of events. */
  function Chained(events: seq<Json>, start: string, startSequence: int, h: Hasher): (r: seq<Entry>)
    ensures |r| == |events| && forall i :: 0 <= i < |r| ==> r[i].event == events[i]
  {
    if events == [] then []
    else
      var before := Chained(events[..|events| - 1], start, startSequence, h);
      var previous := ExpectedHash(before, start, |before|);
      var event := events[|events| - 1];
      before + [Entry(startSequence + |events|, event, previous, EntryHash(previous, event, h))]
  }

  /** What the sink builds is accepted. */
  lemma {:induction false} ChainedIsAccepted(events: seq<Json>, start: string, startSequence: int, h: Hasher)
    ensures Accepted(Chained(events, start, startSequence, h), start, startSequence, h)
  {
    if events != [] {
      var before := Chained(events[..|events| - 1], start, startSequence, h);
      var all := Chained(events, start, startSequence, h);
      ChainedIsAccepted(events[..|events| - 1], start, startSequence, h);
      forall i: nat | i < |all| ensures LinkOk(all, start, startSequence, i, h) {
        if i < |before| { assert LinkOk(before, start, startSequence, i, h) && all[i] == before[i]; }
      }
    }
  }

  /** Where entries are kept; a write may fail. */
  class Destination {
    var entries: seq<Entry>

    constructor ()
      ensures entries == []
    {
      entries := [];
    }

    method Record(entry: Entry, fails: bool) returns (ok: bool)
      modifies this
      ensures ok == !fails && entries == if fails then old(entries) else old(entries) + [entry]
    {
      if !fails { entries := entries + [entry]; }
      ok := !fails;
    }
  }

  /** The sink: calls queue up behind one another and are chained one at a time, in arrival order. */
  class HashChainAuditSink {
    const destination: Destination
    const h: Hasher
    var previousHash: string
    var sequence: int
    var tail: seq<Json>                 // recorded, not yet chained

    ghost const start: string
    ghost const startSequence: int
    ghost const stored: seq<Entry>      // held by the destination before
    ghost var written: seq<Json>        // events whose write succeeded, in order

    constructor (destination: Destination, h: Hasher, previousHash: string, startSequence: int)
      requires startSequence >= 0
      ensures this.destination == destination && this.h == h && this.start == previousHash
      ensures this.startSequence == startSequence && this.stored == destination.entries
      ensures Valid() && tail == [] && written == []
    {
      this.destination, this.h, this.previousHash, this.sequence := destination, h, previousHash, startSequence;
      this.start, this.startSequence, this.stored := previousHash, startSequence, destination.entries;
      tail, written := [], [];
      new;
      assert destination.entries + [] == destination.entries;
    }

    ghost predicate Valid()
      reads this, destination
    {
      var chain := Chained(written, start, startSequence, h);
      && destination.entries == stored + chain
      && sequence == startSequence + |written|
      && previousHash == ExpectedHash(chain, start, |chain|)
    }

    /** `record`: joins the queue. */
    method Record(event: Json)
      requires Valid()
      modifies `tail
      ensures Valid() && tail == old(tail) + [event]
    {
      tail := tail + [event];
    }

    /** The next queued event is chained; a failed write leaves the chain where it was. */
    method ChainNext(fails: bool) returns (ok: bool)
      requires Valid() && tail != []
      modifies this, destination
      ensures Valid() && tail == old(tail)[1..] && ok == !fails
      ensures written == if fails then old(written) else old(written) + [old(tail)[0]]
    {
      var event := tail[0];
      tail := tail[1..];
      var hash := EntryHash(previousHash, event, h);
      ok := destination.Record(Entry(sequence + 1, event, previousHash, hash), fails);
      if ok {
        ghost var before := written;
        sequence, previousHash := sequence + 1, hash;
        written := written + [event];
        assert written[..|written| - 1] == before;
      }
    }

    /** What was stored by this sink is accepted, and its head is where a later sink resumes. */
    lemma StoredIsAccepted()
      requires Valid()
      ensures Accepted(destination.entries[|stored|..], start, startSequence, h)
      ensures var mine := destination.entries[|stored|..];
        mine == Chained(written, start, startSequence, h) && previousHash == ExpectedHash(mine, start, |mine|)
    {
      ChainedIsAccepted(written, start, startSequence, h);
      assert destination.entries[|stored|..] == Chained(written, start, startSequence, h);
    }
  }

  /** The events whose write succeeded, of all that were recorded. */
  function Surviving(events: seq<Json>, fails: seq<bool>): seq<Json>
    requires |events| == |fails|
  {
    if events == [] then []
    else
      var n := |events| - 1;
      Surviving(events[..n], fails[..n]) + if fails[n] then [] else [events[n]]
  }

  lemma SurvivingNext(events: seq<Json>, fails: seq<bool>, event: Json, failed: bool)
    requires |events| == |fails|
    ensures Surviving(events + [event], fails + [failed]) == Surviving(events, fails) + if failed then [] else [event]
  {
    assert (events + [event])[..|events|] == events && (fails + [failed])[..|fails|] == fails;
  }

  /** What happens to a sink: a call arrives, or the link of the oldest waiting event settles. */
  datatype Move = Arrives(event: Json) | Settles(fails: bool)

  function Arrived(moves: seq<Move>): seq<Json> {
    if moves == [] then []
    else Arrived(moves[..|moves| - 1]) + match moves[|moves| - 1] case Arrives(event) => [event] case _ => []
  }

  function Outcomes(moves: seq<Move>): seq<bool> {
    if moves == [] then []
    else Outcomes(moves[..|moves| - 1]) + match moves[|moves| - 1] case Settles(fails) => [fails] case _ => []
  }

  /** No link settles before its event has arrived; `waiting` events had before. */
  predicate Schedule(waiting: nat, moves: seq<Move>) {
    moves == [] ||
    var before := moves[..|moves| - 1];
    Schedule(waiting, before)
    && (moves[|moves| - 1].Settles? ==> |Outcomes(before)| < waiting + |Arrived(before)|)
  }

  /** The events written and the events still waiting. */
  datatype Line = Line(written: seq<Json>, tail: seq<Json>)

  function Moved(l: Line, m: Move): Line {
    match m
    case Arrives(event) => l.(tail := l.tail + [event])
    case Settles(fails) =>
      if l.tail == [] then l else Line(l.written + if fails then [] else [l.tail[0]], l.tail[1..])
  }

  function Played(l: Line, moves: seq<Move>): Line {
    if moves == [] then l else Moved(Played(l, moves[..|moves| - 1]), moves[|moves| - 1])
  }

  lemma {:induction false} SettledHaveArrived(waiting: nat, moves: seq<Move>)
    requires Schedule(waiting, moves)
    ensures |Outcomes(moves)| <= waiting + |Arrived(moves)|
  {
    if moves != [] { SettledHaveArrived(waiting, moves[..|moves| - 1]); }
  }

  /** The events that survive of the first |settled| are written; the rest wait, in arrival order. */
  function Due(l: Line, arrived: seq<Json>, settled: seq<bool>): Line
    requires |settled| <= |l.tail| + |arrived|
  {
    var all := l.tail + arrived;
    Line(l.written + Surviving(all[..|settled|], settled), all[|settled|..])
  }

  lemma DueAfterArrival(l: Line, arrived: seq<Json>, settled: seq<bool>, event: Json)
    requires |settled| <= |l.tail| + |arrived|
    ensures Due(l, arrived + [event], settled) == Moved(Due(l, arrived, settled), Arrives(event))
  {
    var all, n := l.tail + arrived, |settled|;
    Assoc(l.tail, arrived, [event]);
    assert (all + [event])[..n] == all[..n] && (all + [event])[n..] == all[n..] + [event];
  }

  lemma DueAfterSettling(l: Line, arrived: seq<Json>, settled: seq<bool>, fails: bool)
    requires |settled| < |l.tail| + |arrived|
    ensures Due(l, arrived, settled + [fails]) == Moved(Due(l, arrived, settled), Settles(fails))
  {
    var all, n := l.tail + arrived, |settled|;
    var due := all[..n];
    assert all[..n + 1] == due + [all[n]] && all[n..][0] == all[n] && all[n..][1..] == all[n + 1..];
    SurvivingNext(due, settled, all[n], fails);
    Assoc(l.written, Surviving(due, settled), if fails then [] else [all[n]]);
  }

  /** However arrivals and settling links interleave, nothing is lost, repeated or taken out of turn. */
  lemma {:induction false} EveryScheduleKeepsOrder(l: Line, moves: seq<Move>)
    requires Schedule(|l.tail|, moves)
    ensures |Outcomes(moves)| <= |l.tail| + |Arrived(moves)|
    ensures Played(l, moves) == Due(l, Arrived(moves), Outcomes(moves))
    decreases |moves|
  {
    SettledHaveArrived(|l.tail|, moves);
    if moves == [] {
      assert l.tail + [] == l.tail && l.written + [] == l.written && l.tail[0..] == l.tail;
    } else {
      var before := moves[..|moves| - 1];
      var arrived, settled := Arrived(before), Outcomes(before);
      EveryScheduleKeepsOrder(l, before);
      match moves[|moves| - 1]
      case Arrives(event) =>
        assert settled + [] == settled;
        DueAfterArrival(l, arrived, settled, event);
      case Settles(fails) =>
        assert arrived + [] == arrived;
        DueAfterSettling(l, arrived, settled, fails);
    }
  }

  /** The sink under any schedule, with any failures. */
  method RunSchedule(sink: HashChainAuditSink, moves: seq<Move>)
    requires sink.Valid() && Schedule(|sink.tail|, moves)
    modifies sink, sink.destination
    ensures sink.Valid() && Line(sink.written, sink.tail) == Played(old(Line(sink.written, sink.tail)), moves)
  {
    ghost var start := Line(sink.written, sink.tail);
    assert moves[..|moves|] == moves;
    for i := 0 to |moves|
      invariant sink.Valid() && Line(sink.written, sink.tail) == Played(start, moves[..i])
    {
      ScheduledSoFar(start, moves, i);
      assert moves[..i + 1][..i] == moves[..i];
      match moves[i] {
        case Arrives(event) => sink.Record(event);
        case Settles(fails) => var ok := sink.ChainNext(fails);
      }
    }
  }

  /** At each move of a schedule, the part before is one, and a link that settles has its event waiting. */
  lemma {:induction false} ScheduledSoFar(l: Line, moves: seq<Move>, i: nat)
    requires Schedule(|l.tail|, moves) && i < |moves|
    ensures Schedule(|l.tail|, moves[..i]) && (moves[i].Settles? ==> Played(l, moves[..i]).tail != [])
    decreases |moves|
  {
    var before := moves[..|moves| - 1];
    if i < |before| {
      ScheduledSoFar(l, before, i);
      assert before[..i] == moves[..i];
    } else {
      EveryScheduleKeepsOrder(l, before);
    }
  }

  /* ------------------------------------------------------------------ what it proves */

  ghost predicate EventsWellFormed(entries: seq<Entry>, h: Hasher) {
    forall e | e in entries :: WellFormed(e.event, h.nm)
  }

  lemma AcceptedPrefix(entries: seq<Entry>, start: string, startSequence: int, n: nat, h: Hasher)
    requires Intact(entries, start, startSequence, n, h)
    ensures Accepted(entries[..n], start, startSequence, h)
  {
    forall i: nat | i < n ensures LinkOk(entries[..n], start, startSequence, i, h) {
      assert LinkOk(entries, start, startSequence, i, h);
    }
  }

  predicate SameRecord(x: Entry, y: Entry) { DeepEqual(x.event, y.event) && x.hash == y.hash }

  /**
   Two accepted chains from the same start that end in the same sequence number and hash record
   the same events, position by position.
   */
  lemma {:induction false} SameHeadSameHistory(a: seq<Entry>, b: seq<Entry>, start: string, startSequence: int,
      h: Hasher)
    requires Injective(h) && Faithful(h.nm) && EventsWellFormed(a, h) && EventsWellFormed(b, h)
    requires Accepted(a, start, startSequence, h) && Accepted(b, start, startSequence, h)
    requires a != [] && b != [] && a[|a| - 1].sequence == b[|b| - 1].sequence && a[|a| - 1].hash == b[|b| - 1].hash
    ensures |a| == |b| && forall i: nat | i < |a| :: SameRecord(a[i], b[i])
    decreases |a|
  {
    var n := |a| - 1;
    SameLastLink(a, b, start, startSequence, h);
    if n > 0 {
      AcceptedPrefix(a, start, startSequence, n, h);
      AcceptedPrefix(b, start, startSequence, n, h);
      SameHeadSameHistory(a[..n], b[..n], start, startSequence, h);
      forall i: nat | i < n ensures SameRecord(a[i], b[i]) {
        assert a[..n][i] == a[i] && b[..n][i] == b[i];
      }
    }
  }

  lemma SameLastLink(a: seq<Entry>, b: seq<Entry>, start: string, startSequence: int, h: Hasher)
    requires Injective(h) && Faithful(h.nm) && EventsWellFormed(a, h) && EventsWellFormed(b, h)
    requires Accepted(a, start, startSequence, h) && Accepted(b, start, startSequence, h)
    requires a != [] && b != [] && a[|a| - 1].sequence == b[|b| - 1].sequence && a[|a| - 1].hash == b[|b| - 1].hash
    ensures |a| == |b| && DeepEqual(a[|a| - 1].event, b[|a| - 1].event)
    ensures |a| > 1 ==> a[|a| - 2].sequence == b[|a| - 2].sequence && a[|a| - 2].hash == b[|a| - 2].hash
  {
    var x, y := a[|a| - 1], b[|b| - 1];
    assert LinkOk(a, start, startSequence, |a| - 1, h) && LinkOk(b, start, startSequence, |b| - 1, h);
    assert x in a && y in b;
    LinkBinds(x.previousHash, x.event, y.previousHash, y.event, h);
    if |a| > 1 {
      assert LinkOk(a, start, startSequence, |a| - 2, h) && LinkOk(b, start, startSequence, |a| - 2, h);
    }
  }

  /** A chain goes on as another: one accepted after the head of an accepted one. */
  lemma ResumedChain(a: seq<Entry>, b: seq<Entry>, start: string, startSequence: int, h: Hasher)
    requires Accepted(a, start, startSequence, h)
    ensures Accepted(a + b, start, startSequence, h)
      <==> Accepted(b, ExpectedHash(a, start, |a|), startSequence + |a|, h)
  {
    var all, head, next := a + b, ExpectedHash(a, start, |a|), startSequence + |a|;
    forall i: nat | i < |b|
      ensures LinkOk(b, head, next, i, h) <==> LinkOk(all, start, startSequence, |a| + i, h)
    {
      assert all[|a| + i] == b[i];
      assert ExpectedHash(all, start, |a| + i) == ExpectedHash(b, head, i);
    }
    forall i: nat | i < |a| ensures LinkOk(all, start, startSequence, i, h) {
      assert LinkOk(a, start, startSequence, i, h) && all[i] == a[i];
    }
    if Accepted(all, start, startSequence, h) {
      forall i: nat | i < |b| ensures LinkOk(b, head, next, i, h) {
        assert LinkOk(all, start, startSequence, |a| + i, h);
      }
    } else if Accepted(b, head, next, h) {
      forall i: nat | i < |all| ensures LinkOk(all, start, startSequence, i, h) {
        if i >= |a| { assert LinkOk(b, head, next, i - |a|, h); }
      }
    }
  }

  /** Changing what an entry records, in place, breaks the chain exactly there. */
  lemma AlteredEventIsFound(entries: seq<Entry>, start: string, startSequence: int, k: nat, event: Json, h: Hasher)
    requires Injective(h) && Faithful(h.nm) && Accepted(entries, start, startSequence, h) && k < |entries|
    requires WellFormed(event, h.nm) && WellFormed(entries[k].event, h.nm) && !DeepEqual(entries[k].event, event)
    ensures var changed := entries[k := entries[k].(event := event)];
      Intact(changed, start, startSequence, k, h) && !LinkOk(changed, start, startSequence, k, h)
  {
    var changed := entries[k := entries[k].(event := event)];
    assert LinkOk(entries, start, startSequence, k, h);
    forall i: nat | i < k ensures LinkOk(changed, start, startSequence, i, h) {
      assert LinkOk(entries, start, startSequence, i, h);
    }
    if LinkOk(changed, start, startSequence, k, h) {
      LinkBinds(entries[k].previousHash, entries[k].event, entries[k].previousHash, event, h);
    }
  }

  /** Taking an entry out breaks the chain exactly there, unless it was the last. */
  lemma DeletedEntryIsFound(entries: seq<Entry>, start: string, startSequence: int, k: nat, h: Hasher)
    requires Accepted(entries, start, startSequence, h) && k < |entries|
    ensures var left := entries[..k] + entries[k + 1..];
      && Intact(left, start, startSequence, k, h)
      && (if k + 1 < |entries| then !LinkOk(left, start, startSequence, k, h)
        else Accepted(left, start, startSequence, h))
  {
    var left := entries[..k] + entries[k + 1..];
    forall i: nat | i < k ensures LinkOk(left, start, startSequence, i, h) {
      assert LinkOk(entries, start, startSequence, i, h) && left[i] == entries[i];
    }
    if k + 1 < |entries| { assert LinkOk(entries, start, startSequence, k + 1, h) && left[k] == entries[k + 1]; }
  }
}
