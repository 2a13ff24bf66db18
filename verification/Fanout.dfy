/** The fanout's ingest loop: one LISTEN channel, one read per notified row, one broadcast feed for
    all status streams. Unlike the gRPC loop it does not re-read anything after a lost session. */
module Fanout {
  import opened Primitives
  import opened Outbox
  import opened Delivery
  import opened Statuses
  import opened StatusStream

  /** What one signal puts on the broadcast. */
  function Emitted(s: Signal): seq<Row> {
    if !s.Notified? || s.found.ReadError? then [] else
      match FindBySequence(s.found.t, s.sequence)
      case None => []
      case Some(row) => [row]
  }

  function Ingested(signals: seq<Signal>): seq<Row> {
    if signals == [] then [] else Ingested(signals[..|signals| - 1]) + Emitted(signals[|signals| - 1])
  }

  /** `ingest_loop`: every row that is notified and read is broadcast; a miss, a failed read and a
      disconnect are only logged. */
  method IngestLoop(signals: seq<Signal>) returns (sent: seq<Row>)
    ensures sent == Ingested(signals)
  {
    sent := [];
    for i := 0 to |signals|
      invariant sent == Ingested(signals[..i])
    {
      assert signals[..i + 1][..i] == signals[..i];
      match signals[i] {
        case Disconnected(_, _) =>
        case OtherError =>
        case Notified(q, found) =>
          if found.Rows? {
            var row := FindBySequence(found.t, q);
            if row.Some? {
              sent := sent + [row.value];
            }
          }
      }
    }
    assert signals[..|signals|] == signals;
  }

  predicate Notifies(s: Signal, r: Row) {
    s.Notified? && s.found.Rows? && FindBySequence(s.found.t, s.sequence) == Some(r)
  }

  ghost predicate IsBroadcast(signals: seq<Signal>, r: Row) {
    exists k :: 0 <= k < |signals| && Notifies(signals[k], r)
  }

  lemma {:induction false} IngestedMembers(signals: seq<Signal>, r: Row)
    ensures r in Ingested(signals) <==> IsBroadcast(signals, r)
  {
    if signals != [] {
      var front, last := signals[..|signals| - 1], signals[|signals| - 1];
      IngestedMembers(front, r);
      assert forall k :: 0 <= k < |front| ==> front[k] == signals[k];
      assert r in Emitted(last) <==> Notifies(last, r);
    }
  }

  /** The channel's promise: notifications come in sequence order, and reads see a prefix. */
  predicate InOrder(full: Table, after: int, signals: seq<Signal>) {
    && (forall k :: 0 <= k < |signals| && signals[k].Notified? ==>
          signals[k].sequence > after && (signals[k].found.Rows? ==> signals[k].found.t <= full))
    && (forall j, k :: 0 <= j < k < |signals| && signals[j].Notified? && signals[k].Notified? ==>
          signals[j].sequence < signals[k].sequence)
  }

  lemma {:induction false} IngestedAscends(full: Table, after: int, signals: seq<Signal>)
    requires InOrder(full, after, signals)
    ensures Ascending(Ingested(signals))
    ensures forall r :: r in Ingested(signals) ==> r in full && r.sequence > after
  {
    if signals != [] {
      var front, last := signals[..|signals| - 1], signals[|signals| - 1];
      IngestedAscends(full, after, front);
      var sent := Ingested(front);
      if Emitted(last) != [] {
        FoundIsThere(last.found.t, last.sequence);
        PrefixHas(last.found.t, full, Emitted(last)[0]);
        forall i | 0 <= i < |sent|
          ensures sent[i].sequence < last.sequence
        {
          BroadcastSequence(front, sent[i]);
        }
      }
    }
  }

  lemma BroadcastSequence(signals: seq<Signal>, r: Row)
    requires r in Ingested(signals)
    ensures exists k :: 0 <= k < |signals| && signals[k].Notified? && signals[k].sequence == r.sequence
  {
    IngestedMembers(signals, r);
    var k :| 0 <= k < |signals| && Notifies(signals[k], r);
    FoundHasSequence(signals[k].found.t, signals[k].sequence);
  }

  lemma PrefixHas(t: seq<Row>, full: seq<Row>, r: Row)
    requires t <= full && r in t
    ensures r in full
  {
  }

  /** The broadcast is the table above the point where the channel came up if and only if each of
      those rows is both notified and read. */
  lemma BroadcastCompleteIff(full: Table, after: int, signals: seq<Signal>)
    requires InOrder(full, after, signals)
    ensures Ingested(signals) == Scan(full, after) <==> forall r :: r in Scan(full, after) ==> IsBroadcast(signals, r)
  {
    hide Scan, Ingested, IsBroadcast;
    IngestedAscends(full, after, signals);
    forall r: Row
      ensures r in Ingested(signals) <==> IsBroadcast(signals, r)
      ensures r in Scan(full, after) <==> r in full && r.sequence > after
    {
      IngestedMembers(signals, r);
      ScanMembers(full, after, r);
    }
    var k := ScanSplits(full, after);
    if forall r :: r in Scan(full, after) ==> IsBroadcast(signals, r) {
      AscendingUnique(Ingested(signals), Scan(full, after));
    }
  }

  /** A lost session leaves no mark on the feed: subscribers are told nothing that would make them
      re-read. */
  lemma DisconnectIsSilent(before: seq<Signal>, gap: Signal, later: seq<Signal>)
    requires gap.Disconnected?
    ensures Ingested(before + [gap] + later) == Ingested(before + later)
    decreases |later|
  {
    if later == [] {
      assert before + [gap] + later == before + [gap] && before + later == before;
      assert (before + [gap])[..|before|] == before;
    } else {
      var front, last := later[..|later| - 1], later[|later| - 1];
      assert (before + [gap] + later)[..|before| + |later|] == before + [gap] + front;
      assert (before + later)[..|before| + |later| - 1] == before + front;
      DisconnectIsSilent(before, gap, front);
    }
  }

  // ---- The broadcast buffer ----

  /** One receive of a subscriber: how many rows have been broadcast by then, and what the recovery
      reads see if it finds itself overrun. */
  datatype Poll = Poll(tail: nat, count: Read, pages: seq<Read>)

  function Sent(sent: seq<Row>, p: Poll): nat {
    if p.tail <= |sent| then p.tail else |sent|
  }

  /** What a receiver at `pos` gets from a buffer that keeps the last `capacity` rows: the next row,
      nothing yet, or a lag mark that moves it to the oldest row kept. */
  function Receive(capacity: nat, sent: seq<Row>, pos: nat, polls: seq<Poll>): seq<Recv>
    decreases |polls|
  {
    if polls == [] then [] else
      var tail := Sent(sent, polls[0]);
      if pos + capacity < tail then
        [Lagged(polls[0].count, polls[0].pages)] + Receive(capacity, sent, tail - capacity, polls[1..])
      else if pos < tail then [Event(sent[pos])] + Receive(capacity, sent, pos + 1, polls[1..])
      else Receive(capacity, sent, pos, polls[1..])
  }

  /** Where the receiver stands after these receives. */
  function PositionAfter(capacity: nat, sent: seq<Row>, pos: nat, polls: seq<Poll>): nat
    decreases |polls|
  {
    if polls == [] then pos else
      var tail := Sent(sent, polls[0]);
      var next := if pos + capacity < tail then tail - capacity else if pos < tail then pos + 1 else pos;
      PositionAfter(capacity, sent, next, polls[1..])
  }

  /** A receiver that the buffer never overruns hears every row it has not heard, in order, and nothing
      else; one that it overruns is moved to the oldest row kept, and no further. */
  lemma {:induction false} ReceivesInOrder(capacity: nat, sent: seq<Row>, pos: nat, polls: seq<Poll>)
    requires pos <= |sent| && |sent| <= pos + capacity
    ensures var end := PositionAfter(capacity, sent, pos, polls);
            pos <= end <= |sent| && Receive(capacity, sent, pos, polls) == Events(sent[pos..end])
    decreases |polls|
  {
    if polls != [] {
      var tail, rest := Sent(sent, polls[0]), polls[1..];
      if pos < tail {
        ReceivesInOrder(capacity, sent, pos + 1, rest);
        var end := PositionAfter(capacity, sent, pos + 1, rest);
        assert sent[pos..end] == [sent[pos]] + sent[pos + 1..end];
      } else {
        ReceivesInOrder(capacity, sent, pos, rest);
      }
    } else {
      assert sent[pos..pos] == [];
    }
  }

  lemma OverrunMovesToOldestKept(capacity: nat, sent: seq<Row>, pos: nat, p: Poll)
    requires pos + capacity < p.tail <= |sent|
    ensures Receive(capacity, sent, pos, [p]) == [Lagged(p.count, p.pages)]
    ensures PositionAfter(capacity, sent, pos, [p]) == p.tail - capacity
  {
    assert [p][1..] == [];
  }

  function Events(rows: seq<Row>): seq<Recv> {
    if rows == [] then [] else [Event(rows[0])] + Events(rows[1..])
  }

  /** Where the receiver lags, its recovery reads, made from the cursor it has then, succeed within the
      cap and see what had been broadcast. */
  ghost predicate LagsRecover(full: Table, b0: nat, capacity: nat, pos: nat, cursor: int, polls: seq<Poll>)
    requires b0 <= |full|
    decreases |polls|
  {
    polls == [] ||
    var Poll(_, count, pages) := polls[0];
    var tail := Sent(full[b0..], polls[0]);
    if pos + capacity < tail then
      && Recovers(full, cursor, count, pages) && b0 + tail <= Drain(cursor, pages).value.visible
      && LagsRecover(full, b0, capacity, tail - capacity, Drain(cursor, pages).value.cursor, polls[1..])
    else if pos < tail then
      LagsRecover(full, b0, capacity, pos + 1, Max(cursor, full[b0 + pos].sequence), polls[1..])
    else LagsRecover(full, b0, capacity, pos, cursor, polls[1..])
  }

  /** Any receiver schedule on any buffer over a complete broadcast is a feed on which the streams are
      exact, once everything broadcast has been received or jumped over. */
  lemma {:induction false} BufferedBroadcastFeeds(
      full: Table, b0: nat, capacity: nat, pos: nat, cursor: int, polls: seq<Poll>)
    requires b0 + pos <= |full| && LagsRecover(full, b0, capacity, pos, cursor, polls)
    requires PositionAfter(capacity, full[b0..], pos, polls) >= |full| - b0
    ensures Fed(full, b0 + pos, cursor, Receive(capacity, full[b0..], pos, polls))
    decreases |polls|
  {
    hide Drain, Scan, Ascending, CountAfter, Visible;
    if polls != [] {
      var sent, p, rest := full[b0..], polls[0], polls[1..];
      var tail := Sent(sent, p);
      var feed := Receive(capacity, sent, pos, polls);
      if pos + capacity < tail {
        var d := Drain(cursor, p.pages).value;
        BufferedBroadcastFeeds(full, b0, capacity, tail - capacity, d.cursor, rest);
        assert feed[1..] == Receive(capacity, sent, tail - capacity, rest);
        assert b0 + pos <= b0 + (tail - capacity) <= d.visible;
      } else if pos < tail {
        BufferedBroadcastFeeds(full, b0, capacity, pos + 1, Max(cursor, sent[pos].sequence), rest);
        assert feed[1..] == Receive(capacity, sent, pos + 1, rest);
      } else {
        BufferedBroadcastFeeds(full, b0, capacity, pos, cursor, rest);
      }
    }
  }

  /** The same, from the signals of the ingest loop: `b0` is where the table stood when the receiver was
      attached. */
  lemma IngestedBroadcastFeeds(full: Table, after: int, b0: nat, signals: seq<Signal>, capacity: nat, cursor: int,
                               polls: seq<Poll>)
    requires InOrder(full, after, signals)
    requires b0 <= |full| && Scan(full, after) == full[b0..]
    requires forall r :: r in Scan(full, after) ==> IsBroadcast(signals, r)
    requires LagsRecover(full, b0, capacity, 0, cursor, polls)
    requires PositionAfter(capacity, Ingested(signals), 0, polls) >= |Ingested(signals)|
    ensures Fed(full, b0, cursor, Receive(capacity, Ingested(signals), 0, polls))
  {
    hide Fed, LagsRecover, IsBroadcast, InOrder, Scan, Ingested;
    BroadcastCompleteIff(full, after, signals);
    BufferedBroadcastFeeds(full, b0, capacity, 0, cursor, polls);
  }

  // ---- A lost session and a status ----

  /** The recovery that the ingest loop counts on does not happen. The session is lost, the row that ends
      the story of an invoice is committed in the gap, and a later row is broadcast: the subscriber
      hears PENDING only, and so it stays even if the buffer overruns it afterwards, because the
      later row has moved its cursor. Only a lag before that row would have helped. */
  lemma GapLosesStatus(ends: Row, next: Row, gap: Signal)
    requires EndsStory(ends) && 0 < ends.sequence < next.sequence && next.hash != ends.hash && gap.Disconnected?
    ensures var h, table := ends.hash, [ends, next];
            var lag := Lagged(Rows(table), [Rows(table), Rows(table)]);
            var heard := [Status(Pending)];
            && Ingested([gap, Notified(next.sequence, Rows(table))]) == [next]
            && FeedStory(heard, h, 0, [Event(next)]) == heard
            && FeedStory(heard, h, 0, [Event(next), lag]) == heard
            && FeedStory(heard, h, 0, [lag, Event(next)]) == heard + [Status(StatusFromBody(ends.body).value)]
            && TellRows(heard, h, Scan(table, 0)) == heard + [Status(StatusFromBody(ends.body).value)]
  {
    hide Scan, Ingested, FeedStory, DrainStory, TellRows, TellRow, StatusFromBody;
    var h, table: Table, heard := ends.hash, [ends, next], [Status(Pending)];
    var lag := Lagged(Rows(table), [Rows(table), Rows(table)]);
    var told := heard + [Status(StatusFromBody(ends.body).value)];
    GapIngests(ends, next, gap);
    GapScans(ends, next);
    GapTells(ends, next);
    GapLater(heard, h, 0, next, lag);
    FeedStoryLagged(heard, h, 0, [lag, Event(next)]);
    assert [lag, Event(next)][1..] == [Event(next)] && [Event(next)][1..] == [];
    FeedStoryEvent(told, h, next.sequence, [Event(next)]);
    FeedStoryEnds(told, h, next.sequence);
  }

  /** What the rows say to a client that heard PENDING, and what the recovery reads say from each end. */
  lemma GapTells(ends: Row, next: Row)
    requires EndsStory(ends) && 0 < ends.sequence < next.sequence && next.hash != ends.hash
    ensures var table: Table := [ends, next];
            var heard := [Status(Pending)];
            var told := heard + [Status(StatusFromBody(ends.body).value)];
            && TellRow(heard, ends.hash, next) == heard && TellRows(heard, ends.hash, table) == told
            && DrainStory(heard, ends.hash, 0, Rows(table), [Rows(table), Rows(table)]) == told
            && DrainStory(heard, ends.hash, next.sequence, Rows(table), [Rows(table), Rows(table)]) == heard
  {
    hide Scan, Paged, TellRows;
    GapScans(ends, next);
    TellTwo([Status(Pending)], ends.hash, ends, next);
    TellRowsNone([Status(Pending)], ends.hash);
  }

  /** A row of another hash, and a lag after it whose reads from there say nothing. */
  lemma GapLater(heard: seq<Payload>, h: Hash, cursor: int, next: Row, lag: Recv)
    requires next.sequence > cursor && TellRow(heard, h, next) == heard && !Done(heard)
    requires lag.Lagged? && DrainStory(heard, h, next.sequence, lag.count, lag.pages) == heard
    ensures FeedStory(heard, h, cursor, [Event(next)]) == heard
    ensures FeedStory(heard, h, cursor, [Event(next), lag]) == heard
  {
    hide FeedStory, DrainStory, TellRow;
    FeedStoryEvent(heard, h, cursor, [Event(next)]);
    assert [Event(next)][1..] == [] && [lag][1..] == [];
    FeedStoryEnds(heard, h, next.sequence);
    FeedStoryEvent(heard, h, cursor, [Event(next), lag]);
    assert [Event(next), lag][1..] == [lag];
    FeedStoryLagged(heard, h, next.sequence, [lag]);
    if Drains(next.sequence, lag.count, lag.pages) {
      FeedStoryEnds(heard, h, Drain(next.sequence, lag.pages).value.cursor);
    }
  }

  lemma GapIngests(ends: Row, next: Row, gap: Signal)
    requires ends.sequence < next.sequence && gap.Disconnected?
    ensures Ingested([gap, Notified(next.sequence, Rows([ends, next]))]) == [next]
  {
    FindAt([ends, next], next.sequence, 1);
    var signals := [gap, Notified(next.sequence, Rows([ends, next]))];
    assert signals[..1] == [gap] && [gap][..0] == [];
    assert Ingested([gap]) == [];
  }

  /** The reads of that table from the start and from its end. */
  lemma GapScans(ends: Row, next: Row)
    requires 0 < ends.sequence < next.sequence
    ensures var table: Table := [ends, next];
            var pages := [Rows(table), Rows(table)];
            && Scan(table, 0) == table && Scan(table, next.sequence) == []
            && Paged(0, pages) == table && Drain(0, pages) == Some(Drained(2, next.sequence))
            && Paged(next.sequence, pages) == [] && Drain(next.sequence, pages) == Some(Drained(2, next.sequence))
  {
    var table: Table := [ends, next];
    var pages := [Rows(table), Rows(table)];
    ScanAt(table, 0, 0);
    ScanAt(table, next.sequence, 2);
    assert pages[1..] == [Rows(table)];
    assert Paged(next.sequence, pages[1..]) == [];
    assert Drain(next.sequence, pages[1..]) == Some(Drained(2, next.sequence));
  }

  lemma TellTwo(out: seq<Payload>, h: Hash, ends: Row, next: Row)
    ensures TellRows(out, h, [ends, next]) == TellRow(TellRow(out, h, ends), h, next)
  {
    assert [ends, next][..1] == [ends] && [ends][..0] == [];
    assert TellRows(out, h, [ends]) == TellRow(TellRows(out, h, []), h, ends);
  }
}
