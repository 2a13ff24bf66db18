/** What status subscribers hear in runs of the whole gateway: the aggregate read that opens a
    stream and the outbox rows that continue it tell one story. */
module Subscribers {
  import opened Primitives
  import opened Outbox
  import opened Invariant
  import opened Statuses
  import opened Theorems
  import opened World
  import opened Delivery
  import opened StatusStream
  import opened Tickets
  import opened Fanout
  import I = Invoices

  // ---- The rows that matter for one hash ----

  function Relevant(rows: seq<Row>, h: Hash): seq<Row> {
    RecvRows(OfHash(rows, h))
  }

  lemma RelevantOfAppend(rows: seq<Row>, r: Row, h: Hash)
    ensures Relevant(rows + [r], h) ==
              if r.hash == h && !IsPaymentSide(r.body) then Relevant(rows, h) + [r] else Relevant(rows, h)
  {
    assert (rows + [r])[..|rows|] == rows;
    SidesOfAppend(OfHash(rows, h), r);
  }

  /** A pass over the table tells what a pass over the relevant rows tells. */
  lemma {:induction false} TellsRelevant(out: seq<Payload>, h: Hash, rows: seq<Row>)
    ensures TellRows(out, h, rows) == TellRows(out, h, Relevant(rows, h))
  {
    if rows != [] {
      var front, r := rows[..|rows| - 1], rows[|rows| - 1];
      assert rows == front + [r];
      RelevantOfAppend(front, r, h);
      TellsRelevant(out, h, front);
      TellRowsOne(out, h, Relevant(front, h), r);
    }
  }

  lemma {:induction false} RelevantMembers(rows: seq<Row>, h: Hash, r: Row)
    ensures r in Relevant(rows, h) <==> r in rows && r.hash == h && !IsPaymentSide(r.body)
  {
    if rows != [] {
      var front, last := rows[..|rows| - 1], rows[|rows| - 1];
      assert rows == front + [last];
      RelevantOfAppend(front, last, h);
      RelevantMembers(front, h, r);
    }
  }

  lemma {:induction false} RelevantAscends(rows: seq<Row>, h: Hash)
    requires Ascending(rows)
    ensures Ascending(Relevant(rows, h))
  {
    if rows != [] {
      var front, last := rows[..|rows| - 1], rows[|rows| - 1];
      assert rows == front + [last];
      RelevantOfAppend(front, last, h);
      RelevantAscends(front, h);
      var rest := Relevant(front, h);
      forall i | 0 <= i < |rest|
        ensures rest[i].sequence < last.sequence
      {
        RelevantMembers(front, h, rest[i]);
        assert rest[i] in front;
      }
    }
  }

  // ---- The table of a run ----

  function Stored(w: World, h: Hash): Option<I.InvoiceView> {
    I.Hydrate(CellOf(w, h).s.inv)
  }

  /** `full` holds, for this hash, what the gateway has committed. */
  ghost predicate Holds(full: Table, w: World, h: Hash) {
    forall r: Row :: r.hash == h ==> (r in full <==> r in w.outbox)
  }

  lemma TableOfHash(steps: seq<WorldStep>, h: Hash, full: Table)
    requires Holds(full, Play(START, steps), h)
    ensures Relevant(full, h) == RecvRows(CellOf(Play(START, steps), h).s.rows)
  {
    var w := Play(START, steps);
    EveryHashIsReachable(steps, h);
    ReceiveRowsHaveSixForms(CellOf(w, h).s);
    hide Reachable, Play, CellOf;
    RelevantAscends(full, h);
    forall r
      ensures r in Relevant(full, h) <==> r in Relevant(w.outbox, h)
    {
      RelevantMembers(full, h, r);
      RelevantMembers(w.outbox, h, r);
    }
    AscendingUnique(Relevant(full, h), Relevant(w.outbox, h));
  }

  lemma TellShort(out: seq<Payload>, h: Hash, rows: seq<Row>)
    requires |rows| <= 2
    ensures TellRows(out, h, rows) ==
              if |rows| == 0 then out
              else if |rows| == 1 then TellRow(out, h, rows[0])
              else TellRow(TellRow(out, h, rows[0]), h, rows[1])
  {
    if |rows| == 2 {
      assert rows[..1] == [rows[0]];
      assert rows[..1][..0] == [];
    }
  }

  /** The sorted table of a run. */
  ghost function RunTable(steps: seq<WorldStep>): Table {
    RunHasTable(steps);
    TableOf(Play(START, steps))
  }

  lemma RunTableHolds(steps: seq<WorldStep>, r: Row)
    ensures r in RunTable(steps) <==> r in Play(START, steps).outbox
    ensures r in RunTable(steps) ==> r.sequence > 0
  {
    hide Play, TableOf;
    RunHasTable(steps);
    if r in Play(START, steps).outbox {
      CursorZeroIsTheStart(steps, r);
    }
  }

  /** Replaying the table of any run and asking the aggregate give the same answer. A pass over the
      table tells nothing of an open invoice and otherwise ends on the aggregate's status; told to
      someone who has heard PENDING, it adds exactly the aggregate's terminal status, if any. */
  lemma ReplayAgreesWithAggregate(steps: seq<WorldStep>, h: Hash, now: Timestamp)
    ensures var v := Stored(Play(START, steps), h);
            var out := TellRows([], h, RunTable(steps));
            var again := TellRows([Status(Pending)], h, RunTable(steps));
            var status := InitialStatus(v, now);
            if v.None? || v.value.state == I.Open then out == [] && again == [Status(Pending)]
            else
              && WellShaped(out) && out != [] && out[|out| - 1] == Status(status)
              && again == (if IsTerminal(status) then [Status(Pending), Status(status)] else [Status(Pending)])
  {
    hide Reachable, Play, CellOf, I.Hydrate, TellRows, RecvRows, InitialStatus, OfHash, Relevant, Ascending, Holds,
      RunTable;
    var s := CellOf(Play(START, steps), h).s;
    var full := RunTable(steps);
    EveryHashIsReachable(steps, h);
    RunTableIsHeld(steps, h);
    TableOfHash(steps, h, full);
    StatusAgreesWithOutbox(s, now);
    ReceiveRowsHaveSixForms(s);
    TellsRelevant([], h, full);
    TellsRelevant([Status(Pending)], h, full);
    RowsOfThisHash(full, h);
    if RecvRows(s.rows) != [] {
      PassEndsOnLast(h, RecvRows(s.rows), InitialStatus(I.Hydrate(s.inv), now));
    } else {
      TellShort([], h, []);
      TellShort([Status(Pending)], h, []);
    }
  }

  lemma RunTableIsHeld(steps: seq<WorldStep>, h: Hash)
    ensures Holds(RunTable(steps), Play(START, steps), h)
  {
    hide Play, RunTable;
    forall r: Row
      ensures r in RunTable(steps) <==> r in Play(START, steps).outbox
    {
      RunTableHolds(steps, r);
    }
  }

  lemma PassEndsOnLast(h: Hash, rows: seq<Row>, status: PaymentStatus)
    requires 1 <= |rows| <= 2 && forall k :: 0 <= k < |rows| ==> rows[k].hash == h
    requires StatusFromBody(Last(rows).body) == Some(status)
    requires forall k :: 0 <= k < |rows| - 1 ==> StatusFromBody(rows[k].body) == Some(Pending)
    ensures var out := TellRows([], h, rows); WellShaped(out) && out != [] && out[|out| - 1] == Status(status)
    ensures TellRows([Status(Pending)], h, rows) ==
              if IsTerminal(status) then [Status(Pending), Status(status)] else [Status(Pending)]
  {
    hide TellRows, StatusFromBody;
    TellShort([], h, rows);
    TellShort([Status(Pending)], h, rows);
  }

  lemma RowsOfThisHash(full: Table, h: Hash)
    ensures forall k :: 0 <= k < |Relevant(full, h)| ==> Relevant(full, h)[k].hash == h
  {
    forall k | 0 <= k < |Relevant(full, h)|
      ensures Relevant(full, h)[k].hash == h
    {
      RelevantMembers(full, h, Relevant(full, h)[k]);
    }
  }

  /** What a fresh subscriber's stream needs of the table holds in every run: if the aggregate read
      says PENDING, the rows committed before it tell a client that heard PENDING nothing new. */
  lemma WaitingInvoiceIsSilent(steps: seq<WorldStep>, h: Hash, now: Timestamp, full: Table, b: nat)
    requires InitialStatus(Stored(Play(START, steps), h), now) == Pending
    requires forall i :: 0 <= i < b && i < |full| && full[i].hash == h ==> full[i] in Play(START, steps).outbox
    ensures SilentAbove([Status(Pending)], h, full, b, 0)
  {
    hide Reachable, Play, CellOf, I.Hydrate, RecvRows, InitialStatus, OfHash, Ascending;
    var w := Play(START, steps);
    var s := CellOf(w, h).s;
    EveryHashIsReachable(steps, h);
    StatusAgreesWithOutbox(s, now);
    forall i | 0 <= i < b && i < |full| && full[i].hash == h && StatusFromBody(full[i].body).Some?
      ensures StatusFromBody(full[i].body) == Some(Pending)
    {
      RelevantMembers(w.outbox, h, full[i]);
      assert full[i] in RecvRows(s.rows);
    }
  }

  /** Sequences start at 1, so cursor 0 is the start of the table. */
  lemma CursorZeroIsTheStart(steps: seq<WorldStep>, r: Row)
    requires r in Play(START, steps).outbox
    ensures r.sequence > 0
  {
    var w := Play(START, steps);
    EveryHashIsReachable(steps, r.hash);
    var s := CellOf(w, r.hash).s;
    ReachableIsCore(s);
    hide Reachable, Play, CellOf;
    OfHashMembers(w.outbox, r);
  }

  lemma {:induction false} OfHashMembers(rows: seq<Row>, r: Row)
    requires r in rows
    ensures r in OfHash(rows, r.hash)
  {
    if rows[|rows| - 1] != r {
      OfHashMembers(rows[..|rows| - 1], r);
    }
  }

  /** What a subscriber who found the invoice waiting should have heard when it stands at `v`. */
  function Story(v: Option<I.InvoiceView>): seq<Payload> {
    if v.None? || v.value.state == I.Open || v.value.state == I.Held then [Status(Pending)]
    else [Status(Pending), Status(if v.value.state == I.Settled then Paid else Expired)]
  }

  lemma PassTellsTheStory(late: seq<WorldStep>, h: Hash)
    ensures TellRows([Status(Pending)], h, Scan(RunTable(late), 0)) == Story(Stored(Play(START, late), h))
  {
    hide Play, CellOf, I.Hydrate, TellRows, Ascending, RunTable;
    ReplayAgreesWithAggregate(late, h, 0);
    var full := RunTable(late);
    forall i | 0 <= i < |full|
      ensures full[i].sequence > 0
    {
      RunTableHolds(late, full[i]);
    }
    ScanAt(full, 0, 0);
  }

  /** What the fanout and the database must do for a subscriber: the receiver is attached when the table
      stands at `b0`, every row above is notified in order and read, its recovery reads succeed where
      it lags, it goes on receiving until it has caught up, and stays connected. */
  ghost predicate Attended(full: Table, after: int, b0: nat, signals: seq<Signal>, capacity: nat, polls: seq<Poll>,
                           accepts: nat)
  {
    && accepts >= 2
    && InOrder(full, after, signals) && b0 <= |full| && Scan(full, after) == full[b0..]
    && (forall r :: r in Scan(full, after) ==> IsBroadcast(signals, r))
    && LagsRecover(full, b0, capacity, 0, 0, polls)
    && PositionAfter(capacity, Ingested(signals), 0, polls) >= |Ingested(signals)|
  }

  /** The receiver is attached before the aggregate is read: what the table held then had been committed
      when it was read. */
  ghost predicate AttachedBefore(full: Table, b0: nat, h: Hash, early: seq<WorldStep>) {
    forall i :: 0 <= i < b0 && i < |full| && full[i].hash == h ==> full[i] in Play(START, early).outbox
  }

  /** End to end, from the gateway's commits through ingest, broadcast buffer and status stream: a fresh
      subscriber whose aggregate read happens at `early` hears, when it has caught up with `late`,
      the terminal status at once if there was one, and otherwise PENDING and then exactly the
      terminal status the aggregate has reached, for any buffer, lag and schedule. */
  method ServeFresh(h: Hash, invoice: Option<I.InvoiceView>, now: Timestamp, signals: seq<Signal>, capacity: nat,
                    polls: seq<Poll>, accepts: nat, ghost early: seq<WorldStep>, ghost late: seq<WorldStep>,
                    ghost after: int, ghost b0: nat)
    returns (out: seq<Payload>)
    ensures WellShaped(out)
    ensures var feed := Receive(capacity, Ingested(signals), 0, polls);
            out == Kept(StreamStory(h, None, ReadError, [], invoice, now, feed), accepts)
    ensures var log := CellOf(Play(START, early), h).s.inv;
            accepts >= 1 && (log == [] || I.Grammar(log)) && invoice == I.Hydrate(log) ==> FreshAnswer(log, now, out)
    ensures accepts >= 2 && IsTerminal(InitialStatus(invoice, now)) ==> out == [Status(InitialStatus(invoice, now))]
    ensures invoice == Stored(Play(START, early), h) && !IsTerminal(InitialStatus(invoice, now))
            && Attended(RunTable(late), after, b0, signals, capacity, polls, accepts)
            && AttachedBefore(RunTable(late), b0, h, early)
            ==> out == Story(Stored(Play(START, late), h))
  {
    hide Play, CellOf, I.Hydrate, I.Grammar, FreshAnswer, TellRows, Ascending, RunTable, Scan, Fed, LagsRecover,
      InOrder, IsBroadcast, InitialStatus, WellShaped, Ingested, Receive, PositionAfter, Between, SilentAbove;
    ghost var full := RunTable(late);
    var sent := IngestLoop(signals);
    var feed := Receive(capacity, sent, 0, polls);
    if invoice == Stored(Play(START, early), h) && !IsTerminal(InitialStatus(invoice, now))
       && Attended(full, after, b0, signals, capacity, polls, accepts) && AttachedBefore(full, b0, h, early)
    {
      IngestedBroadcastFeeds(full, after, b0, signals, capacity, 0, polls);
      WaitingInvoiceIsSilent(early, h, now, full, b0);
      FreshStoryIsPlainPass(h, ReadError, [], invoice, now, feed, full, b0);
      PassTellsTheStory(late, h);
    }
    out := RunStatusStream(h, None, ReadError, [], invoice, now, feed, accepts,
                           CellOf(Play(START, early), h).s.inv);
  }

  // ---- Exactly when the outcome is heard ----

  /** The row that ends the story of a hash is the last of its receive-side rows, and the only one. */
  lemma RunHasOneEnd(steps: seq<WorldStep>, t: Row, r: Row)
    requires t in RunTable(steps) && r in RunTable(steps) && r.hash == t.hash && EndsStory(t) && EndsStory(r)
    ensures r == t
    ensures Story(Stored(Play(START, steps), t.hash)) == [Status(Pending), Status(StatusFromBody(t.body).value)]
  {
    hide Reachable, Play, CellOf, I.Hydrate, RecvRows, OfHash, Ascending, Holds, RunTable;
    var h, full := t.hash, RunTable(steps);
    var s := CellOf(Play(START, steps), h).s;
    EveryHashIsReachable(steps, h);
    RunTableIsHeld(steps, h);
    TableOfHash(steps, h, full);
    StatusAgreesWithOutbox(s, 0);
    RelevantMembers(full, h, t);
    RelevantMembers(full, h, r);
    var rows := RecvRows(s.rows);
    assert t == Last(rows) && r == Last(rows);
  }

  /** Everything the feed and its recovery reads give is a row of the table. */
  predicate Offering(full: Table, item: Recv) {
    match item
    case Event(r) => r in full
    case Lagged(_, pages) => PagesWithin(full, pages)
  }

  lemma {:induction false} OfferingIsWithin(full: Table, feed: seq<Recv>)
    requires forall i :: 0 <= i < |feed| ==> Offering(full, feed[i])
    ensures forall i :: 0 <= i < |AsSignals(feed)| ==> Within(full, AsSignals(feed)[i])
  {
    if feed != [] {
      OfferingIsWithin(full, feed[1..]);
      assert Offering(full, feed[0]);
    }
  }

  /** Which fresh subscribers hear the outcome, exactly: when the gateway has committed the row that ends
      an invoice, a client that heard PENDING hears that status if and only if the first receive or
      page that offers anything at or above the row offers it; and unless the cap refuses a
      recovery, it has then heard the whole story. */
  lemma OutcomeHeardIff(steps: seq<WorldStep>, t: Row, feed: seq<Recv>)
    requires t in RunTable(steps) && EndsStory(t)
    requires forall i :: 0 <= i < |feed| ==> Offering(RunTable(steps), feed[i])
    ensures var heard := FeedStory([Status(Pending)], t.hash, 0, feed);
            var story := Story(Stored(Play(START, steps), t.hash));
            && (Status(StatusFromBody(t.body).value) in heard <==> OfferedFirst(FeedOffers(0, feed), t))
            && (!MeetsCap(0, feed) ==> (heard == story <==> OfferedFirst(FeedOffers(0, feed), t)))
  {
    hide Play, RunTable, Story, Stored, Live, OfferedFirst, TellRows, StatusFromBody, LiveOffers;
    var full, passed := RunTable(steps), Passed(0, feed);
    RunTableHolds(steps, t);
    RunHasOneEnd(steps, t, t);
    OfferingIsWithin(full, feed);
    forall r | r in passed && r.hash == t.hash && EndsStory(r)
      ensures r == t
    {
      LiveWithin(full, 0, AsSignals(feed), r);
      RunHasOneEnd(steps, t, r);
    }
    StatusHeardIffOfferedFirst([Status(Pending)], 0, feed, t);
    TerminalToldIffPassed([Status(Pending)], passed, t);
    TellRowsGrows([Status(Pending)], t.hash, passed);
    PassedIffOfferedFirst(0, feed, t);
  }

  // ---- A resumed subscriber ----

  /** The rows at or below a resume point. */
  function UpTo(full: Table, c: int): seq<Row> {
    var above := Scan(full, c);
    if |above| <= |full| then full[..|full| - |above|] else []
  }

  lemma {:induction false} RelevantConcat(a: seq<Row>, b: seq<Row>, h: Hash)
    ensures Relevant(a + b, h) == Relevant(a, h) + Relevant(b, h)
    decreases |b|
  {
    if b == [] {
      assert a + b == a;
    } else {
      var front, last := b[..|b| - 1], b[|b| - 1];
      assert a + b == (a + front) + [last] && b == front + [last];
      RelevantConcat(a, front, h);
      RelevantOfAppend(a + front, last, h);
      RelevantOfAppend(front, last, h);
    }
  }

  lemma UpToAndAbove(full: Table, c: int)
    ensures full == UpTo(full, c) + Scan(full, c)
  {
    var k := ScanSplits(full, c);
    hide Scan;
  }

  /** The statuses the rows of a hash can tell: PENDING, and that of the aggregate. */
  lemma StatusesOfRun(steps: seq<WorldStep>, h: Hash, now: Timestamp, r: Row)
    requires r in RunTable(steps) && r.hash == h && StatusFromBody(r.body).Some?
    ensures StatusFromBody(r.body).value in {Pending, InitialStatus(Stored(Play(START, steps), h), now)}
  {
    hide Reachable, Play, CellOf, I.Hydrate, RecvRows, OfHash, Ascending, Holds, RunTable, InitialStatus;
    var full := RunTable(steps);
    var s := CellOf(Play(START, steps), h).s;
    EveryHashIsReachable(steps, h);
    RunTableIsHeld(steps, h);
    TableOfHash(steps, h, full);
    StatusAgreesWithOutbox(s, now);
    RelevantMembers(full, h, r);
  }

  lemma {:induction false} TellsOnly(h: Hash, rows: seq<Row>, st: PaymentStatus)
    requires forall r :: r in rows && r.hash == h && StatusFromBody(r.body).Some? ==>
               StatusFromBody(r.body).value in {Pending, st}
    ensures forall p :: p in TellRows([], h, rows) ==> p in {Status(Pending), Status(st)}
  {
    if rows != [] {
      LastAndFront(rows);
      TellsOnly(h, rows[..|rows| - 1], st);
    }
  }

  /** With a terminal aggregate after the gap-fill, a resumed stream ends on its status. */
  lemma ResumedEndsOnAggregate(mid: seq<WorldStep>, h: Hash, r: int, c: int, now: Timestamp)
    requires IsTerminal(InitialStatus(Stored(Play(START, mid), h), now)) && r <= c
    ensures var st := InitialStatus(Stored(Play(START, mid), h), now);
            var out := Tell(TellRows([], h, Between(RunTable(mid), r, c)), st);
            WellShaped(out) && out != [] && out[|out| - 1] == Status(st)
  {
    hide Play, RunTable, Stored, InitialStatus, TellRows, StatusFromBody, Scan, Between;
    var full, st := RunTable(mid), InitialStatus(Stored(Play(START, mid), h), now);
    var rows := Between(full, r, c);
    UpToAndAbove(full, r);
    BetweenSplits(full, r, c);
    forall x | x in rows && x.hash == h && StatusFromBody(x.body).Some?
      ensures StatusFromBody(x.body).value in {Pending, st}
    {
      assert x in full;
      StatusesOfRun(mid, h, now, x);
    }
    TellsOnly(h, rows, st);
    TellRowsShaped([], h, rows);
    var told := TellRows([], h, rows);
    assert told != [] ==> told[|told| - 1] in told;
  }

  /** What was told up to the resume point, and the plain pass above it, end together on the status. */
  lemma JoinedPassEnds(late: seq<WorldStep>, h: Hash, r: int, now: Timestamp)
    ensures var v := Stored(Play(START, late), h);
            var joined := TellRows([], h, UpTo(RunTable(late), r)) + TellRows([], h, Scan(RunTable(late), r));
            if v.None? || v.value.state == I.Open then joined == []
            else joined != [] && joined[|joined| - 1] == Status(InitialStatus(v, now))
  {
    hide Reachable, Play, CellOf, I.Hydrate, TellRows, RecvRows, InitialStatus, OfHash, Relevant, Ascending, Holds,
      RunTable, Scan, UpTo, StatusFromBody;
    var full := RunTable(late);
    var s := CellOf(Play(START, late), h).s;
    EveryHashIsReachable(late, h);
    RunTableIsHeld(late, h);
    TableOfHash(late, h, full);
    StatusAgreesWithOutbox(s, now);
    ReceiveRowsHaveSixForms(s);
    RowsOfThisHash(full, h);
    UpToAndAbove(full, r);
    RelevantConcat(UpTo(full, r), Scan(full, r), h);
    TellsRelevant([], h, UpTo(full, r));
    TellsRelevant([], h, Scan(full, r));
    var below, above := Relevant(UpTo(full, r), h), Relevant(Scan(full, r), h);
    JoinedEnds(h, below, above, InitialStatus(I.Hydrate(s.inv), now));
  }

  lemma JoinedEnds(h: Hash, below: seq<Row>, above: seq<Row>, st: PaymentStatus)
    requires below + above != [] ==> Concludes(h, below + above, st)
    ensures var joined := TellRows([], h, below) + TellRows([], h, above);
            if below + above == [] then joined == [] else joined != [] && joined[|joined| - 1] == Status(st)
  {
    TellRowsNone([], h);
    if above != [] {
      LaterRowsConclude(h, below, above, st);
      hide TellRows, Concludes;
      ConclusionIsTold(h, above, st);
    } else if below != [] {
      assert below == below + above;
      hide TellRows, Concludes;
      ConclusionIsTold(h, below, st);
    }
  }

  /** At most two rows of the hash, all PENDING but the last, which has the given status. */
  predicate Concludes(h: Hash, rows: seq<Row>, st: PaymentStatus) {
    && 1 <= |rows| <= 2 && (forall k :: 0 <= k < |rows| ==> rows[k].hash == h)
    && StatusFromBody(rows[|rows| - 1].body) == Some(st)
    && forall k :: 0 <= k < |rows| - 1 ==> StatusFromBody(rows[k].body) == Some(Pending)
  }

  lemma LaterRowsConclude(h: Hash, below: seq<Row>, above: seq<Row>, st: PaymentStatus)
    requires Concludes(h, below + above, st) && above != []
    ensures Concludes(h, above, st)
  {
    hide StatusFromBody;
    assert forall k :: 0 <= k < |above| ==> above[k] == (below + above)[|below| + k];
  }

  lemma ConclusionIsTold(h: Hash, rows: seq<Row>, st: PaymentStatus)
    requires Concludes(h, rows, st)
    ensures var out := TellRows([], h, rows); out != [] && out[|out| - 1] == Status(st)
  {
    hide StatusFromBody, TellRows;
    PassEndsOnLast(h, rows, st);
  }

  /** As for a fresh subscriber, from the cursor at which the gap-fill ended; the receiver was attached
      before its last page was read. */
  ghost predicate ResumeAttended(full: Table, r: int, count: Read, pages: seq<Read>, after: int, b0: nat,
                                 signals: seq<Signal>, capacity: nat, polls: seq<Poll>)
  {
    && Recovers(full, r, count, pages)
    && InOrder(full, after, signals) && b0 <= |full| && Scan(full, after) == full[b0..]
    && (forall x :: x in Scan(full, after) ==> IsBroadcast(signals, x))
    && b0 <= Drain(r, pages).value.visible
    && LagsRecover(full, b0, capacity, 0, Drain(r, pages).value.cursor, polls)
    && PositionAfter(capacity, Ingested(signals), 0, polls) >= |Ingested(signals)|
  }

  /** End to end for a subscriber that resumes above `r`: if the aggregate read after the gap-fill, at
      `mid`, is terminal, the stream ends on that status; otherwise, once it has caught up with
      `late`, what was told up to the resume point together with this stream ends on the
      aggregate's status, and is silent if the invoice is still open. */
  method ServeResumed(h: Hash, r: int, count: Read, pages: seq<Read>, invoice: Option<I.InvoiceView>, now: Timestamp,
                      signals: seq<Signal>, capacity: nat, polls: seq<Poll>, accepts: nat,
                      ghost mid: seq<WorldStep>, ghost late: seq<WorldStep>, ghost after: int, ghost b0: nat)
    returns (out: seq<Payload>)
    ensures WellShaped(out)
    ensures var feed := Receive(capacity, Ingested(signals), 0, polls);
            out == Kept(StreamStory(h, Some(r), count, pages, invoice, now, feed), accepts)
    ensures accepts >= 2 && invoice == Stored(Play(START, mid), h) && IsTerminal(InitialStatus(invoice, now))
            && Recovers(RunTable(mid), r, count, pages) ==>
              out != [] && out[|out| - 1] == Status(InitialStatus(invoice, now))
    ensures accepts >= 2 && !IsTerminal(InitialStatus(invoice, now))
            && ResumeAttended(RunTable(late), r, count, pages, after, b0, signals, capacity, polls) ==>
              var v := Stored(Play(START, late), h);
              var joined := TellRows([], h, UpTo(RunTable(late), r)) + out;
              if v.None? || v.value.state == I.Open then joined == []
              else joined != [] && joined[|joined| - 1] == Status(InitialStatus(v, now))
  {
    hide Play, Stored, TellRows, RunTable, Scan, Fed, LagsRecover, InOrder, IsBroadcast, InitialStatus, Ingested,
      Receive, PositionAfter, Between, StreamStory, Drain, UpTo, CountAfter, Visible;
    var sent := IngestLoop(signals);
    var feed := Receive(capacity, sent, 0, polls);
    if invoice == Stored(Play(START, mid), h) && IsTerminal(InitialStatus(invoice, now))
       && Recovers(RunTable(mid), r, count, pages)
    {
      ResumedStoryIsPlainPass(h, r, count, pages, invoice, now, feed, RunTable(mid), 0);
      DrainRises(r, pages);
      ResumedEndsOnAggregate(mid, h, r, Drain(r, pages).value.cursor, now);
    }
    if !IsTerminal(InitialStatus(invoice, now))
       && ResumeAttended(RunTable(late), r, count, pages, after, b0, signals, capacity, polls)
    {
      var full := RunTable(late);
      IngestedBroadcastFeeds(full, after, b0, signals, capacity, Drain(r, pages).value.cursor, polls);
      ResumedStoryIsPlainPass(h, r, count, pages, invoice, now, feed, full, b0);
      TellRowsShaped([], h, Scan(full, r));
      JoinedPassEnds(late, h, r, now);
    }
    out := RunStatusStream(h, Some(r), count, pages, invoice, now, feed, accepts,
                           CellOf(Play(START, mid), h).s.inv);
  }

  /** The gRPC stream in a run that commits out of order: a subscriber that backfills between the two
      commits never gets the row that was overtaken, although it is notified and can be read. */
  lemma OvertakingRunLosesRow() returns (steps: seq<WorldStep>)
    ensures var outbox := Play(START, steps).outbox;
            && |outbox| == 2 && RunTable(steps) == [outbox[1], outbox[0]]
            && Delivered(0, [Rows([outbox[0]]), Rows([outbox[0]])],
                         [Notified(outbox[1].sequence, Rows(RunTable(steps)))]) == [outbox[0]]
            && Scan(RunTable(steps), 0) == RunTable(steps)
  {
    hide Play, Delivered, Scan, RunTable;
    steps := CommitsOvertake();
    var outbox := Play(START, steps).outbox;
    var first, second := outbox[1], outbox[0];
    CursorZeroIsTheStart(steps, first);
    forall r: Row
      ensures r in RunTable(steps) <==> r in [first, second]
    {
      RunTableHolds(steps, r);
    }
    AscendingUnique(RunTable(steps), [first, second]);
    OvertakenRowIsLost(first, second);
  }
}
