/** The GraphQL invoice-status stream: initial status, resume gap-fill, live broadcast events, and
    recovery when the broadcast buffer has overrun the subscriber. */
module StatusStream {
  import opened Primitives
  import opened Outbox
  import opened Statuses
  import opened Delivery
  import I = Invoices

  const STREAM_CHANNEL_SIZE: nat := 16

  datatype Payload = Status(status: PaymentStatus) | ErrorPayload

  /** Consecutive identical statuses are suppressed. */
  class StatusEmitter {
    var last: Option<PaymentStatus>

    constructor ()
      ensures last == None
    {
      last := None;
    }

    method Next(status: PaymentStatus) returns (r: Option<PaymentStatus>)
      modifies this
      ensures last == Some(status)
      ensures r == if old(last) == Some(status) then None else Some(status)
    {
      if last == Some(status) {
        return None;
      }
      last := Some(status);
      r := Some(status);
    }
  }

  // ---- What the stream should say ----

  predicate Done(out: seq<Payload>) {
    out != [] && (out[|out| - 1].ErrorPayload? || IsTerminal(out[|out| - 1].status))
  }

  /** One status told to a client that has heard `out`: nothing after a terminal payload, no
      repetition. */
  function Tell(out: seq<Payload>, st: PaymentStatus): seq<Payload> {
    if Done(out) || (out != [] && out[|out| - 1] == Status(st)) then out else out + [Status(st)]
  }

  function TellRow(out: seq<Payload>, reference: Hash, r: Row): seq<Payload> {
    var st := StatusFromBody(r.body);
    if r.hash != reference || st.None? then out else Tell(out, st.value)
  }

  /** The reference: every row of the table told once, in order. */
  function TellRows(out: seq<Payload>, reference: Hash, rows: seq<Row>): seq<Payload> {
    if rows == [] then out
    else TellRow(TellRows(out, reference, rows[..|rows| - 1]), reference, rows[|rows| - 1])
  }

  lemma {:induction false} TellRowsConcat(out: seq<Payload>, reference: Hash, a: seq<Row>, b: seq<Row>)
    ensures TellRows(out, reference, a + b) == TellRows(TellRows(out, reference, a), reference, b)
    decreases |b|
  {
    if b == [] {
      assert a + b == a;
    } else {
      assert (a + b)[..|a + b| - 1] == a + b[..|b| - 1];
      TellRowsConcat(out, reference, a, b[..|b| - 1]);
    }
  }

  lemma TellRowsOne(out: seq<Payload>, reference: Hash, a: seq<Row>, r: Row)
    ensures TellRows(out, reference, a + [r]) == TellRow(TellRows(out, reference, a), reference, r)
  {
    assert (a + [r])[..|a|] == a;
  }

  lemma {:induction false} NothingAfterDone(out: seq<Payload>, reference: Hash, rows: seq<Row>)
    requires Done(out)
    ensures TellRows(out, reference, rows) == out
  {
    if rows != [] {
      NothingAfterDone(out, reference, rows[..|rows| - 1]);
    }
  }

  /** Rows that tell a waiting client nothing new. */
  predicate Silent(out: seq<Payload>, reference: Hash, rows: seq<Row>) {
    forall i :: 0 <= i < |rows| && rows[i].hash == reference && StatusFromBody(rows[i].body).Some? ==>
      out != [] && out[|out| - 1] == Status(StatusFromBody(rows[i].body).value)
  }

  lemma {:induction false} SilentTellsNothing(out: seq<Payload>, reference: Hash, rows: seq<Row>)
    requires Silent(out, reference, rows)
    ensures TellRows(out, reference, rows) == out
  {
    if rows != [] {
      SilentTellsNothing(out, reference, rows[..|rows| - 1]);
    }
  }

  /** At most one PENDING, then at most one of PAID, EXPIRED or an error, and nothing after. */
  predicate WellShaped(out: seq<Payload>) {
    || out == []
    || |out| == 1
    || (|out| == 2 && out[0] == Status(Pending) && Done(out))
  }

  predicate Heard(last: Option<PaymentStatus>, out: seq<Payload>) {
    && WellShaped(out) && !Done(out)
    && last == if out == [] then None else Some(out[|out| - 1].status)
  }

  // ---- What the code says, on any feed ----

  /** One receive of the broadcast: a row, or the mark that the buffer has overrun the receiver, with
      what the recovery reads then see. */
  datatype Recv = Event(row: Row) | Lagged(count: Read, pages: seq<Read>)

  /** A broadcast row is a notification with its row at hand; a lag is handled as a lost session. */
  function AsSignals(feed: seq<Recv>): seq<Signal> {
    if feed == [] then [] else
      [match feed[0]
       case Event(r) => Notified(r.sequence, Rows([r]))
       case Lagged(count, pages) => Disconnected(count, pages)] + AsSignals(feed[1..])
  }

  /** The rows that pass the cursor of the live loop. */
  function Passed(cursor: int, feed: seq<Recv>): seq<Row> {
    Live(cursor, AsSignals(feed))
  }

  /** What is offered to the live loop, receive by receive and page by page. */
  function FeedOffers(cursor: int, feed: seq<Recv>): seq<seq<Row>> {
    LiveOffers(cursor, AsSignals(feed))
  }

  predicate TooMany(cursor: int, count: Read) {
    count.Rows? && CountAfter(count.t, cursor) > MAX_BACKFILL_EVENTS
  }

  /** A backfill that is not refused and gets to its end. */
  predicate Drains(cursor: int, count: Read, pages: seq<Read>) {
    count.Rows? && CountAfter(count.t, cursor) <= MAX_BACKFILL_EVENTS && Drain(cursor, pages).Some?
  }

  /** The live loop meets a backlog above the cap. */
  predicate MeetsCap(cursor: int, feed: seq<Recv>)
    decreases |feed|
  {
    feed != [] &&
    match feed[0]
    case Event(r) => MeetsCap(Max(cursor, r.sequence), feed[1..])
    case Lagged(count, pages) =>
      || TooMany(cursor, count)
      || (Drains(cursor, count, pages) && MeetsCap(Drain(cursor, pages).value.cursor, feed[1..]))
  }

  function TellError(out: seq<Payload>): seq<Payload> {
    if Done(out) then out else out + [ErrorPayload]
  }

  /** What a backfill makes of what the client has heard. */
  function DrainStory(out: seq<Payload>, reference: Hash, cursor: int, count: Read, pages: seq<Read>): seq<Payload> {
    if count.ReadError? then out
    else if TooMany(cursor, count) then TellError(out)
    else TellRows(out, reference, Paged(cursor, pages))
  }

  /** What the live loop makes of it: the rows that pass the cursor, and the error if the cap is met. */
  function FeedStory(out: seq<Payload>, reference: Hash, cursor: int, feed: seq<Recv>): seq<Payload> {
    var told := TellRows(out, reference, Passed(cursor, feed));
    if MeetsCap(cursor, feed) then TellError(told) else told
  }

  /** What a subscriber that stays hears, on any reads and any feed. */
  function StreamStory(reference: Hash, resume: Option<int>, count: Read, pages: seq<Read>,
                       invoice: Option<I.InvoiceView>, now: Timestamp, feed: seq<Recv>): seq<Payload>
  {
    var status := InitialStatus(invoice, now);
    if resume.None? then
      if IsTerminal(status) then [Status(status)] else FeedStory([Status(status)], reference, 0, feed)
    else
      var told := DrainStory([], reference, resume.value, count, pages);
      if Done(told) || !Drains(resume.value, count, pages) then told
      else if IsTerminal(status) then Tell(told, status)
      else FeedStory(told, reference, Drain(resume.value, pages).value.cursor, feed)
  }

  /** What a subscriber hears that goes away after `n` payloads. */
  function Kept(out: seq<Payload>, n: nat): seq<Payload> {
    if |out| <= n then out else out[..n]
  }

  // ---- One receive at a time ----

  lemma {:induction false} TellRowsGrows(out: seq<Payload>, reference: Hash, rows: seq<Row>)
    ensures out <= TellRows(out, reference, rows)
  {
    if rows != [] {
      TellRowsGrows(out, reference, rows[..|rows| - 1]);
    }
  }

  /** A finished story, or one longer than the subscriber takes, stays as it is. */
  predicate Settled(story: seq<Payload>, accepts: nat) {
    Done(story) || |story| > accepts
  }

  lemma SettledStays(story: seq<Payload>, reference: Hash, rows: seq<Row>, accepts: nat)
    requires Settled(story, accepts)
    ensures var whole := TellRows(story, reference, rows);
            Settled(whole, accepts) && Kept(whole, accepts) == Kept(story, accepts)
  {
    if Done(story) {
      NothingAfterDone(story, reference, rows);
    }
    TellRowsGrows(story, reference, rows);
  }

  lemma FeedSettledStays(story: seq<Payload>, reference: Hash, cursor: int, feed: seq<Recv>, accepts: nat)
    requires Settled(story, accepts)
    ensures Kept(FeedStory(story, reference, cursor, feed), accepts) == Kept(story, accepts)
  {
    hide TellRows;
    SettledStays(story, reference, Passed(cursor, feed), accepts);
  }

  lemma PassedEvent(cursor: int, feed: seq<Recv>)
    requires feed != [] && feed[0].Event?
    ensures var r := feed[0].row;
            Passed(cursor, feed) ==
              if r.sequence <= cursor then Passed(cursor, feed[1..]) else [r] + Passed(r.sequence, feed[1..])
  {
    var r, signals := feed[0].row, AsSignals(feed);
    FindAt([r], r.sequence, 0);
    assert signals[0] == Notified(r.sequence, Rows([r])) && signals[1..] == AsSignals(feed[1..]);
  }

  lemma PassedLagged(cursor: int, feed: seq<Recv>)
    requires feed != [] && feed[0].Lagged?
    ensures var Lagged(count, pages) := feed[0];
            Passed(cursor, feed) ==
              if Drains(cursor, count, pages)
              then Paged(cursor, pages) + Passed(Drain(cursor, pages).value.cursor, feed[1..])
              else if count.ReadError? || TooMany(cursor, count) then []
              else Paged(cursor, pages)
  {
    hide Paged, Drain, CountAfter;
    var Lagged(count, pages) := feed[0];
    var signals := AsSignals(feed);
    assert signals[0] == Disconnected(count, pages) && signals[1..] == AsSignals(feed[1..]);
    if count.Rows? && !TooMany(cursor, count) {
      assert Live(cursor, signals) == Paged(cursor, pages) + LiveAfter(cursor, pages, AsSignals(feed[1..]));
      assert Paged(cursor, pages) + [] == Paged(cursor, pages);
    }
  }

  lemma FeedStoryEvent(out: seq<Payload>, reference: Hash, cursor: int, feed: seq<Recv>)
    requires feed != [] && feed[0].Event?
    ensures var r := feed[0].row;
            FeedStory(out, reference, cursor, feed) ==
              if r.sequence <= cursor then FeedStory(out, reference, cursor, feed[1..])
              else FeedStory(TellRow(out, reference, r), reference, r.sequence, feed[1..])
  {
    hide Passed, TellRows, TellRow;
    var r := feed[0].row;
    PassedEvent(cursor, feed);
    if r.sequence > cursor {
      TellFirst(out, reference, r, Passed(r.sequence, feed[1..]));
    }
  }

  lemma TellFirst(out: seq<Payload>, reference: Hash, r: Row, rows: seq<Row>)
    ensures TellRows(out, reference, [r] + rows) == TellRows(TellRow(out, reference, r), reference, rows)
  {
    TellRowsConcat(out, reference, [r], rows);
    assert [] + [r] == [r];
    TellRowsOne(out, reference, [], r);
  }

  lemma FeedStoryLagged(out: seq<Payload>, reference: Hash, cursor: int, feed: seq<Recv>)
    requires feed != [] && feed[0].Lagged? && !Done(out)
    ensures var Lagged(count, pages) := feed[0];
            var told := DrainStory(out, reference, cursor, count, pages);
            FeedStory(out, reference, cursor, feed) ==
              if Drains(cursor, count, pages)
              then FeedStory(told, reference, Drain(cursor, pages).value.cursor, feed[1..])
              else told
  {
    hide Passed, TellRows, Paged, Drain, CountAfter;
    var Lagged(count, pages) := feed[0];
    PassedLagged(cursor, feed);
    TellRowsNone(out, reference);
    if Drains(cursor, count, pages) {
      TellRowsConcat(out, reference, Paged(cursor, pages), Passed(Drain(cursor, pages).value.cursor, feed[1..]));
    }
  }

  // ---- The code ----

  method EmitForEvent(body: Body, emitter: StatusEmitter, out0: seq<Payload>, accepts: nat)
    returns (out: seq<Payload>, flow: Flow)
    requires Heard(emitter.last, out0) && |out0| <= accepts
    modifies emitter
    ensures var story := if StatusFromBody(body).None? then out0 else Tell(out0, StatusFromBody(body).value);
            && WellShaped(story) && out == Kept(story, accepts)
            && (flow == Stop <==> Settled(story, accepts))
    ensures flow == Continue ==> Heard(emitter.last, out)
  {
    out, flow := out0, Continue;
    match StatusFromBody(body) {
      case None => return;
      case Some(st) =>
        var next := emitter.Next(st);
        if next.None? {
          return;
        }
        if |out| >= accepts {
          flow := Stop;
          return;
        }
        out := out + [Status(st)];
        flow := if IsTerminal(st) then Stop else Continue;
    }
  }

  method EmitPage(batch: seq<Row>, reference: Hash, cursor0: int, emitter: StatusEmitter, out0: seq<Payload>,
                  accepts: nat)
    returns (cursor: int, out: seq<Payload>, flow: Flow)
    requires Heard(emitter.last, out0) && |out0| <= accepts
    modifies emitter
    ensures var story := TellRows(out0, reference, batch);
            out == Kept(story, accepts) && (flow == Stop <==> Settled(story, accepts))
    ensures flow == Continue ==> Heard(emitter.last, out) && cursor == CursorAt(cursor0, batch, |batch|)
    ensures WellShaped(out)
  {
    hide TellRows;
    cursor, out, flow := cursor0, out0, Continue;
    TellRowsNone(out0, reference);
    assert batch[..0] == [];
    for i := 0 to |batch|
      invariant flow == Continue && Heard(emitter.last, out) && |out| <= accepts
      invariant cursor == CursorAt(cursor0, batch, i) && out == TellRows(out0, reference, batch[..i])
    {
      TellRowsOne(out0, reference, batch[..i], batch[i]);
      assert batch[..i] + [batch[i]] == batch[..i + 1] && batch == batch[..i + 1] + batch[i + 1..];
      ghost var story := TellRow(out, reference, batch[i]);
      cursor := batch[i].sequence;
      if batch[i].hash == reference {
        out, flow := EmitForEvent(batch[i].body, emitter, out, accepts);
        if flow.Stop? {
          TellRowsConcat(out0, reference, batch[..i + 1], batch[i + 1..]);
          SettledStays(story, reference, batch[i + 1..], accepts);
          return;
        }
      }
    }
    assert batch[..|batch|] == batch;
  }

  lemma TellRowsNone(out: seq<Payload>, reference: Hash)
    ensures TellRows(out, reference, []) == out
  {
  }

  /** `drain_backfill`: refuse a backlog above the cap, otherwise page to the end. */
  method DrainBackfill(reference: Hash, cursor0: int, emitter: StatusEmitter, out0: seq<Payload>,
                       count: Read, pages: seq<Read>, accepts: nat)
    returns (cursor: int, out: seq<Payload>, flow: Flow)
    requires Heard(emitter.last, out0) && |out0| <= accepts
    modifies emitter
    ensures var story := DrainStory(out0, reference, cursor0, count, pages);
            && out == Kept(story, accepts)
            && (flow == Continue <==> Drains(cursor0, count, pages) && !Settled(story, accepts))
    ensures count.Rows? && |Scan(count.t, cursor0)| > 100_000 && |out0| < accepts ==>
              out == out0 + [ErrorPayload] && flow == Stop
    ensures flow == Continue ==> Heard(emitter.last, out) && cursor == Drain(cursor0, pages).value.cursor
    ensures WellShaped(out)
  {
    hide TellRows, Scan;
    cursor, out, flow := cursor0, out0, Continue;
    if count.ReadError? {
      flow := Stop;
      return;
    }
    if CountAfter(count.t, cursor) > MAX_BACKFILL_EVENTS {
      out, flow := if |out| < accepts then out + [ErrorPayload] else out, Stop;
      return;
    }
    ghost var whole := TellRows(out0, reference, Paged(cursor0, pages));
    for i := 0 to |pages|
      invariant flow == Continue && Heard(emitter.last, out) && |out| <= accepts
      invariant Drain(cursor0, pages) == Drain(cursor, pages[i..])
      invariant whole == TellRows(out, reference, Paged(cursor, pages[i..]))
    {
      assert pages[i..][0] == pages[i] && pages[i..][1..] == pages[i + 1..];
      if pages[i].ReadError? {
        TellRowsNone(out, reference);
        flow := Stop;
        return;
      }
      var batch := FetchAfterBatch(pages[i].t, cursor);
      if batch == [] {
        TellRowsNone(out, reference);
        return;
      }
      ghost var rest := Paged(batch[|batch| - 1].sequence, pages[i + 1..]);
      ghost var story := TellRows(out, reference, batch);
      TellRowsConcat(out, reference, batch, rest);
      cursor, out, flow := EmitPage(batch, reference, cursor, emitter, out, accepts);
      if flow.Stop? {
        SettledStays(story, reference, rest, accepts);
        return;
      }
    }
    TellRowsNone(out, reference);
    flow := Stop;
  }

  /** One broadcast row. */
  method OnEvent(r: Row, reference: Hash, cursor0: int, emitter: StatusEmitter, out0: seq<Payload>, accepts: nat)
    returns (cursor: int, out: seq<Payload>, flow: Flow)
    requires Heard(emitter.last, out0) && |out0| <= accepts
    modifies emitter
    ensures cursor == Max(cursor0, r.sequence)
    ensures var story := if r.sequence > cursor0 then TellRow(out0, reference, r) else out0;
            && WellShaped(story) && out == Kept(story, accepts)
            && (flow == Stop <==> Settled(story, accepts))
    ensures flow == Continue ==> Heard(emitter.last, out)
  {
    cursor, out, flow := cursor0, out0, Continue;
    if r.sequence <= cursor {
      return;
    }
    cursor := r.sequence;
    if r.hash == reference {
      out, flow := EmitForEvent(r.body, emitter, out, accepts);
    }
  }

  /** The live loop: exactly what `FeedStory` says, on every feed. */
  method Follow(reference: Hash, cursor0: int, emitter: StatusEmitter, out0: seq<Payload>, feed: seq<Recv>,
                accepts: nat)
    returns (out: seq<Payload>)
    requires Heard(emitter.last, out0) && |out0| <= accepts
    modifies emitter
    ensures out == Kept(FeedStory(out0, reference, cursor0, feed), accepts)
    ensures WellShaped(out)
  {
    hide FeedStory, TellRows, TellRow, DrainStory, Drains;
    var cursor, flow := cursor0, Continue;
    out := out0;
    ghost var whole := FeedStory(out0, reference, cursor0, feed);
    for i := 0 to |feed|
      invariant Heard(emitter.last, out) && |out| <= accepts
      invariant whole == FeedStory(out, reference, cursor, feed[i..])
    {
      assert feed[i..][0] == feed[i] && feed[i..][1..] == feed[i + 1..];
      match feed[i] {
        case Event(r) =>
          FeedStoryEvent(out, reference, cursor, feed[i..]);
          ghost var story := if r.sequence > cursor then TellRow(out, reference, r) else out;
          cursor, out, flow := OnEvent(r, reference, cursor, emitter, out, accepts);
          if flow.Stop? {
            FeedSettledStays(story, reference, cursor, feed[i + 1..], accepts);
            return;
          }
        case Lagged(count, pages) =>
          FeedStoryLagged(out, reference, cursor, feed[i..]);
          ghost var story := DrainStory(out, reference, cursor, count, pages);
          ghost var c1 := cursor;
          cursor, out, flow := DrainBackfill(reference, cursor, emitter, out, count, pages, accepts);
          if flow.Stop? {
            DrainedStops(story, reference, c1, count, pages, feed[i + 1..], accepts);
            return;
          }
      }
    }
    FeedStoryEnds(out, reference, cursor);
  }

  lemma DrainedStops(story: seq<Payload>, reference: Hash, cursor: int, count: Read, pages: seq<Read>, feed: seq<Recv>,
                     accepts: nat)
    ensures Drains(cursor, count, pages) && Settled(story, accepts) ==>
              var c := Drain(cursor, pages).value.cursor;
              Kept(FeedStory(story, reference, c, feed), accepts) == Kept(story, accepts)
  {
    if Drains(cursor, count, pages) && Settled(story, accepts) {
      FeedSettledStays(story, reference, Drain(cursor, pages).value.cursor, feed, accepts);
    }
  }

  lemma FeedStoryEnds(out: seq<Payload>, reference: Hash, cursor: int)
    ensures FeedStory(out, reference, cursor, []) == out
  {
  }

  /** The first thing a fresh subscriber hears, read off the stored log: EXPIRED alone for an unknown hash
      or an open invoice past its expiry, the outcome alone of a finished one, otherwise PENDING. */
  predicate FreshAnswer(log: seq<I.InvoiceEvent>, now: Timestamp, out: seq<Payload>)
    requires log == [] || I.Grammar(log)
  {
    if log == [] then out == [Status(Expired)]
    else if |log| == 1 then
      && (out == [Status(Expired)] <==> now >= log[0].expiryAt)
      && (now < log[0].expiryAt ==> out != [] && out[0] == Status(Pending))
    else
      var last := log[|log| - 1];
      && (last.WasHeld? ==> out != [] && out[0] == Status(Pending))
      && (last.WasSettled? || last.WasSettledIntraledger? ==> out == [Status(Paid)])
      && (last.WasCanceled? ==> out == [Status(Expired)])
  }

  lemma AnswersReadTheLog(reference: Hash, resume: Option<int>, count: Read, pages: seq<Read>, log: seq<I.InvoiceEvent>,
                          now: Timestamp, feed: seq<Recv>, accepts: nat)
    requires log == [] || I.Grammar(log)
    ensures var story := StreamStory(reference, resume, count, pages, I.Hydrate(log), now, feed);
            && (resume.None? && accepts >= 1 ==> FreshAnswer(log, now, Kept(story, accepts)))
            && (resume.Some? && |log| == 1 && Drains(resume.value, count, pages) ==>
                  var told := DrainStory([], reference, resume.value, count, pages);
                  !Settled(told, accepts) ==>
                    (if now >= log[0].expiryAt then story == told + [Status(Expired)]
                     else story == FeedStory(told, reference, Drain(resume.value, pages).value.cursor, feed)))
  {
    hide I.Hydrate, TellRows, Passed, Drain, CountAfter, DrainStory;
    InitialStatusReadsTheLog(log, now);
    var status := InitialStatus(I.Hydrate(log), now);
    if resume.None? {
      TellRowsGrows([Status(status)], reference, Passed(0, feed));
    } else if |log| == 1 && Drains(resume.value, count, pages) {
      ToldIsWaiting(reference, resume.value, count, pages);
    }
  }

  lemma ToldIsWaiting(reference: Hash, cursor: int, count: Read, pages: seq<Read>)
    requires Drains(cursor, count, pages)
    ensures WellShaped(DrainStory([], reference, cursor, count, pages))
  {
    TellRowsShaped([], reference, Paged(cursor, pages));
  }

  /** `run_status_stream`: exactly what `StreamStory` says, on any reads and any feed, so at most
      PENDING and then one of PAID, EXPIRED or an error. `invoice` and `now` are what the aggregate
      read and the clock give at the await where the code asks; `log` is the stored log behind them. */
  method RunStatusStream(reference: Hash, resume: Option<int>, count: Read, pages: seq<Read>,
                         invoice: Option<I.InvoiceView>, now: Timestamp, feed: seq<Recv>, accepts: nat,
                         ghost log: seq<I.InvoiceEvent>)
    returns (out: seq<Payload>)
    ensures out == Kept(StreamStory(reference, resume, count, pages, invoice, now, feed), accepts)
    ensures WellShaped(out) && |out| < STREAM_CHANNEL_SIZE
    ensures resume.None? && accepts >= 1 && (log == [] || I.Grammar(log)) && invoice == I.Hydrate(log) ==>
              FreshAnswer(log, now, out)
    ensures resume.Some? && |log| == 1 && I.Grammar(log) && invoice == I.Hydrate(log)
            && Drains(resume.value, count, pages) ==>
              var told := DrainStory([], reference, resume.value, count, pages);
              !Settled(told, accepts) ==>
                (if now >= log[0].expiryAt then out == Kept(told + [Status(Expired)], accepts)
                 else out == Kept(FeedStory(told, reference, Drain(resume.value, pages).value.cursor, feed), accepts))
  {
    hide FeedStory, DrainStory, Drain, Scan, I.Grammar, I.Hydrate, FreshAnswer, InitialStatus;
    if log == [] || I.Grammar(log) {
      AnswersReadTheLog(reference, resume, count, pages, log, now, feed, accepts);
    }
    var emitter := new StatusEmitter();
    out := [];
    var status := InitialStatus(invoice, now);
    if resume.None? {
      var first := emitter.Next(status);
      if accepts == 0 {
        FreshStoryGrows(status, reference, feed);
        return;
      }
      out := [Status(status)];
      if IsTerminal(status) {
        return;
      }
      out := Follow(reference, 0, emitter, out, feed, accepts);
    } else {
      var cursor, flow;
      cursor, out, flow := DrainBackfill(reference, resume.value, emitter, [], count, pages, accepts);
      ghost var told := DrainStory([], reference, resume.value, count, pages);
      if flow.Stop? {
        if !Done(told) && Drains(resume.value, count, pages) {
          ResumeStops(told, reference, status, Drain(resume.value, pages).value.cursor, feed, accepts);
        }
        return;
      }
      if IsTerminal(status) {
        var next := emitter.Next(status);
        if next.Some? && |out| < accepts {
          out := out + [Status(status)];
        }
        return;
      }
      out := Follow(reference, cursor, emitter, out, feed, accepts);
    }
  }

  lemma FreshStoryGrows(status: PaymentStatus, reference: Hash, feed: seq<Recv>)
    ensures Kept(FeedStory([Status(status)], reference, 0, feed), 0) == []
  {
  }

  lemma ResumeStops(told: seq<Payload>, reference: Hash, status: PaymentStatus, cursor: int, feed: seq<Recv>,
                    accepts: nat)
    requires !Done(told) && |told| > accepts
    ensures Kept(Tell(told, status), accepts) == Kept(told, accepts)
    ensures Kept(FeedStory(told, reference, cursor, feed), accepts) == Kept(told, accepts)
  {
    FeedSettledStays(told, reference, cursor, feed, accepts);
  }

  // ---- Cursors on the table ----

  /** The rows a cursor passes on its way from `c0` to `c`. */
  function Between(full: Table, c0: int, c: int): seq<Row> {
    var a, b := Scan(full, c0), Scan(full, c);
    if |b| <= |a| then a[..|a| - |b|] else []
  }

  /** A later cursor leaves a suffix; what it passed is the rest. */
  lemma BetweenSplits(full: Table, c0: int, c: int)
    requires c0 <= c
    ensures Scan(full, c0) == Between(full, c0, c) + Scan(full, c)
  {
    var j := ScanSplits(full, c0);
    var k := ScanSplits(full, c);
    hide Scan;
    assert k < |full| ==> full[k].sequence > c0;
    assert j <= k;
    assert full[j..] == full[j..k] + full[k..];
  }

  lemma BetweenNext(full: Table, c0: int, c: int, r: Row)
    requires c0 <= c && Scan(full, c) != [] && r == Scan(full, c)[0]
    ensures r.sequence > c && Scan(full, r.sequence) == Scan(full, c)[1..]
    ensures Between(full, c0, r.sequence) == Between(full, c0, c) + [r]
  {
    hide Scan;
    BetweenSplits(full, c0, c);
    var k := ScanSplits(full, c);
    assert full[k] == r;
    assert forall i :: k < i < |full| ==> full[i].sequence > r.sequence;
    ScanAt(full, r.sequence, k + 1);
    assert full[k..][1..] == full[k + 1..];
  }

  lemma BetweenJoins(full: Table, c0: int, c1: int, c2: int)
    requires c0 <= c1 <= c2
    ensures Between(full, c0, c2) == Between(full, c0, c1) + Between(full, c1, c2)
  {
    hide Scan;
    BetweenSplits(full, c0, c1);
    BetweenSplits(full, c1, c2);
  }

  /** The stream has told exactly the rows between `c0` and `c`. */
  ghost predicate Told(full: Table, reference: Hash, c0: int, out0: seq<Payload>, c: int, out: seq<Payload>) {
    c0 <= c && out == TellRows(out0, reference, Between(full, c0, c))
  }

  lemma ToldNext(full: Table, reference: Hash, c0: int, out0: seq<Payload>, c: int, out: seq<Payload>, r: Row)
    requires Told(full, reference, c0, out0, c, out) && Scan(full, c) != [] && r == Scan(full, c)[0]
    ensures Told(full, reference, c0, out0, r.sequence, TellRow(out, reference, r))
    ensures Scan(full, r.sequence) == Scan(full, c)[1..]
  {
    hide Scan;
    BetweenNext(full, c0, c, r);
    TellRowsOne(out0, reference, Between(full, c0, c), r);
  }

  lemma ToldJoins(full: Table, reference: Hash, c0: int, out0: seq<Payload>, c1: int, out1: seq<Payload>,
                  c2: int, out2: seq<Payload>)
    requires Told(full, reference, c0, out0, c1, out1) && Told(full, reference, c1, out1, c2, out2)
    ensures Told(full, reference, c0, out0, c2, out2)
  {
    BetweenJoins(full, c0, c1, c2);
    TellRowsConcat(out0, reference, Between(full, c0, c1), Between(full, c1, c2));
  }

  /** A stream that is done, or whose cursor has passed every row, has told the whole scan. */
  lemma ToldAll(full: Table, reference: Hash, c0: int, out0: seq<Payload>, c: int, out: seq<Payload>)
    requires Told(full, reference, c0, out0, c, out)
    requires Done(out) || Covered(full, |full|, c)
    ensures out == TellRows(out0, reference, Scan(full, c0))
  {
    BetweenSplits(full, c0, c);
    TellRowsConcat(out0, reference, Between(full, c0, c), Scan(full, c));
    if Done(out) {
      NothingAfterDone(out, reference, Scan(full, c));
    } else {
      ScanAt(full, c, |full|);
    }
  }

  // ---- Hypotheses on the broadcast ----

  /** A recovery whose reads succeed, see rows in sequence order, and reach the end within the cap. */
  predicate Recovers(full: Table, cursor: int, count: Read, pages: seq<Read>) {
    && count.Rows? && CountAfter(count.t, cursor) <= MAX_BACKFILL_EVENTS
    && Visible(full, pages) && Drain(cursor, pages).Some?
  }

  /** Every committed row is broadcast in order from `b` on; the buffer may overrun the receiver
      anywhere, any number of times. All rows have been broadcast when the feed ends. */
  ghost predicate Fed(full: Table, b: nat, cursor: int, feed: seq<Recv>)
    decreases |feed|
  {
    if feed == [] then b >= |full| else
      match feed[0]
      case Event(r) => b < |full| && r == full[b] && Fed(full, b + 1, Max(cursor, r.sequence), feed[1..])
      case Lagged(count, pages) =>
        && Recovers(full, cursor, count, pages)
        && exists b': nat :: b <= b' <= Drain(cursor, pages).value.visible
                             && Fed(full, b', Drain(cursor, pages).value.cursor, feed[1..])
  }

  /** Rows above the cursor that the receiver was attached too late for tell nothing new. */
  predicate SilentAbove(out: seq<Payload>, reference: Hash, full: Table, b: nat, cursor: int) {
    forall i :: 0 <= i < b && i < |full| && full[i].sequence > cursor && full[i].hash == reference
                && StatusFromBody(full[i].body).Some? ==>
      out != [] && out[|out| - 1] == Status(StatusFromBody(full[i].body).value)
  }

  lemma BetweenAt(full: Table, c0: int, z: nat, b: nat)
    requires z <= b < |full| && Scan(full, c0) == full[z..]
    ensures Between(full, c0, full[b].sequence) == full[z..b] + [full[b]]
  {
    hide Scan;
    var c := full[b].sequence;
    assert forall i :: 0 <= i < b ==> full[i].sequence < c;
    assert forall i :: b < i < |full| ==> full[i].sequence > c;
    ScanAt(full, c, b + 1);
    hide Ascending;
    assert |full[z..]| - |full[b + 1..]| == b + 1 - z;
    assert full[z..][..b + 1 - z] == full[z..b] + [full[b]];
  }

  /** The first row told to a fresh subscriber: the ones it passes over are silent. */
  lemma FirstTold(full: Table, reference: Hash, c0: int, out0: seq<Payload>, b: nat)
    requires b < |full| && full[b].sequence > c0 && SilentAbove(out0, reference, full, b, c0)
    ensures Told(full, reference, c0, out0, full[b].sequence, TellRow(out0, reference, full[b]))
  {
    hide Scan, Between, TellRows, TellRow, Ascending;
    var z := ScanSplits(full, c0);
    assert z <= b;
    BetweenAt(full, c0, z, b);
    TellRowsOne(out0, reference, full[z..b], full[b]);
    SilentTellsNothing(out0, reference, full[z..b]);
  }

  lemma AllSilent(full: Table, reference: Hash, c0: int, out0: seq<Payload>)
    requires SilentAbove(out0, reference, full, |full|, c0)
    ensures TellRows(out0, reference, Scan(full, c0)) == out0
  {
    var z := ScanSplits(full, c0);
    SilentTellsNothing(out0, reference, full[z..]);
  }

  /** Where a live stream stands once the rows before `b` have been broadcast: it has told every row
      up to its cursor and nothing before `b` is above it, or it has told nothing and nothing
      before `b` was worth telling. */
  ghost predicate Abreast(full: Table, reference: Hash, c0: int, out0: seq<Payload>, b: nat, c: int,
                          out: seq<Payload>)
  {
    || (c == c0 && out == out0 && SilentAbove(out0, reference, full, b, c0))
    || (Told(full, reference, c0, out0, c, out) && Covered(full, b, c))
  }

  lemma AbreastToldNext(full: Table, reference: Hash, c0: int, out0: seq<Payload>, b: nat, c: int, out: seq<Payload>)
    requires Abreast(full, reference, c0, out0, b, c, out) && b < |full| && full[b].sequence > c
    ensures Told(full, reference, c0, out0, full[b].sequence, TellRow(out, reference, full[b]))
    ensures Covered(full, b + 1, full[b].sequence)
  {
    hide TellRows, TellRow;
    if Told(full, reference, c0, out0, c, out) && Covered(full, b, c) {
      ScanAt(full, c, b);
      hide Scan, Between;
      ToldNext(full, reference, c0, out0, c, out, full[b]);
    } else {
      hide Scan, Between;
      FirstTold(full, reference, c0, out0, b);
    }
  }

  /** A broadcast row at or below the cursor changes nothing. */
  lemma AbreastSkips(full: Table, reference: Hash, c0: int, out0: seq<Payload>, b: nat, c: int, out: seq<Payload>)
    requires Abreast(full, reference, c0, out0, b, c, out) && b < |full| && full[b].sequence <= c
    ensures Abreast(full, reference, c0, out0, b + 1, c, out)
  {
    hide TellRows, Scan, Between;
  }

  lemma AbreastRecovers(full: Table, reference: Hash, c0: int, out0: seq<Payload>, b: nat, c: int, out: seq<Payload>,
                        c2: int, out2: seq<Payload>)
    requires Abreast(full, reference, c0, out0, b, c, out) && Told(full, reference, c, out, c2, out2)
    ensures Told(full, reference, c0, out0, c2, out2)
  {
    if Told(full, reference, c0, out0, c, out) {
      ToldJoins(full, reference, c0, out0, c, out, c2, out2);
    }
  }

  lemma AbreastEnds(full: Table, reference: Hash, c0: int, out0: seq<Payload>, b: nat, c: int, out: seq<Payload>)
    requires Abreast(full, reference, c0, out0, b, c, out) && b >= |full|
    ensures out == TellRows(out0, reference, Scan(full, c0))
  {
    hide TellRows, Scan, Between;
    if Told(full, reference, c0, out0, c, out) && Covered(full, b, c) {
      ToldAll(full, reference, c0, out0, c, out);
    } else {
      AllSilent(full, reference, c0, out0);
    }
  }

  /** Under those hypotheses the live loop says what a plain pass over the rows above its cursor says:
      whatever the lag pattern, `feed` does not occur in the result. */
  lemma {:induction false} FedPassTells(full: Table, reference: Hash, c0: int, out0: seq<Payload>, b: nat, c: int,
                                        out: seq<Payload>, feed: seq<Recv>)
    requires Fed(full, b, c, feed) && Abreast(full, reference, c0, out0, b, c, out)
    ensures TellRows(out, reference, Passed(c, feed)) == TellRows(out0, reference, Scan(full, c0)) && !MeetsCap(c, feed)
    decreases |feed|
  {
    hide Scan, Between, TellRows, TellRow, Ascending, Passed, Drain, Abreast, Told;
    if feed == [] {
      assert Passed(c, feed) == [] by {
        PassedNothing(c);
      }
      TellRowsNone(out, reference);
      AbreastEnds(full, reference, c0, out0, b, c, out);
    } else {
      match feed[0] {
        case Event(r) =>
          PassedEvent(c, feed);
          if r.sequence > c {
            AbreastToldNext(full, reference, c0, out0, b, c, out);
            ToldIsAbreast(full, reference, c0, out0, b + 1, r.sequence, TellRow(out, reference, r));
            FedPassTells(full, reference, c0, out0, b + 1, r.sequence, TellRow(out, reference, r), feed[1..]);
            TellFirst(out, reference, r, Passed(r.sequence, feed[1..]));
          } else {
            AbreastSkips(full, reference, c0, out0, b, c, out);
            FedPassTells(full, reference, c0, out0, b + 1, c, out, feed[1..]);
          }
        case Lagged(count, pages) =>
          PassedLagged(c, feed);
          var d := Drain(c, pages).value;
          var told := TellRows(out, reference, Paged(c, pages));
          var b': nat :| b <= b' <= d.visible && Fed(full, b', d.cursor, feed[1..]);
          PagedTells(full, reference, c, out, pages);
          CoveredLess(full, b', d.visible, d.cursor);
          AbreastRecovers(full, reference, c0, out0, b, c, out, d.cursor, told);
          ToldIsAbreast(full, reference, c0, out0, b', d.cursor, told);
          FedPassTells(full, reference, c0, out0, b', d.cursor, told, feed[1..]);
          TellRowsConcat(out, reference, Paged(c, pages), Passed(d.cursor, feed[1..]));
      }
    }
  }

  lemma PassedNothing(c: int)
    ensures Passed(c, []) == []
  {
  }

  lemma ToldIsAbreast(full: Table, reference: Hash, c0: int, out0: seq<Payload>, b: nat, c: int, out: seq<Payload>)
    requires Told(full, reference, c0, out0, c, out) && Covered(full, b, c)
    ensures Abreast(full, reference, c0, out0, b, c, out)
  {
    hide Told, Covered;
  }

  /** A backfill on prefixes tells exactly the rows its cursor passes. */
  lemma PagedTells(full: Table, reference: Hash, c: int, out: seq<Payload>, pages: seq<Read>)
    requires Visible(full, pages) && Drain(c, pages).Some?
    ensures var d := Drain(c, pages).value;
            && Told(full, reference, c, out, d.cursor, TellRows(out, reference, Paged(c, pages)))
            && Covered(full, d.visible, d.cursor)
  {
    hide Scan;
    PagedSplitsScan(full, c, pages);
    DrainRises(c, pages);
    assert Between(full, c, Drain(c, pages).value.cursor) == Paged(c, pages);
  }

  lemma DrainRises(cursor: int, pages: seq<Read>)
    requires Drain(cursor, pages).Some?
    ensures Drain(cursor, pages).value.cursor >= cursor
  {
    PagedRises(cursor, pages);
  }

  /** A fresh subscriber of a waiting invoice, whose receiver was attached when the table stood at `b`:
      PENDING, and then a plain pass over the whole table. */
  lemma FreshStoryIsPlainPass(reference: Hash, count: Read, pages: seq<Read>, invoice: Option<I.InvoiceView>,
                              now: Timestamp, feed: seq<Recv>, full: Table, b: nat)
    requires !IsTerminal(InitialStatus(invoice, now))
    requires Fed(full, b, 0, feed) && SilentAbove([Status(Pending)], reference, full, b, 0)
    ensures StreamStory(reference, None, count, pages, invoice, now, feed) ==
              TellRows([Status(Pending)], reference, Scan(full, 0))
  {
    hide Scan, TellRows, Fed, Passed, MeetsCap, SilentAbove;
    FedPassTells(full, reference, 0, [Status(Pending)], b, 0, [Status(Pending)], feed);
  }

  /** A resumed subscriber: a plain pass over the rows above the resume point; what the aggregate says at
      the end of the gap-fill completes the stream if it is terminal. */
  lemma ResumedStoryIsPlainPass(reference: Hash, r: int, count: Read, pages: seq<Read>, invoice: Option<I.InvoiceView>,
                                now: Timestamp, feed: seq<Recv>, full: Table, b: nat)
    requires Recovers(full, r, count, pages)
    ensures var story := StreamStory(reference, Some(r), count, pages, invoice, now, feed);
            var d := Drain(r, pages).value;
            && (IsTerminal(InitialStatus(invoice, now)) ==>
                  story == Tell(TellRows([], reference, Between(full, r, d.cursor)), InitialStatus(invoice, now)))
            && (!IsTerminal(InitialStatus(invoice, now)) && b <= d.visible && Fed(full, b, d.cursor, feed) ==>
                  story == TellRows([], reference, Scan(full, r)))
  {
    hide Scan, Between, TellRows, Fed, Passed, MeetsCap, Drain, Paged;
    var d := Drain(r, pages).value;
    var told := TellRows([], reference, Paged(r, pages));
    PagedTells(full, reference, r, [], pages);
    if Done(told) {
      ToldAll(full, reference, r, [], d.cursor, told);
    } else if !IsTerminal(InitialStatus(invoice, now)) && b <= d.visible && Fed(full, b, d.cursor, feed) {
      CoveredLess(full, b, d.visible, d.cursor);
      FedPassTells(full, reference, r, [], b, d.cursor, told, feed);
    }
  }

  lemma {:induction false} TellRowsShaped(out: seq<Payload>, reference: Hash, rows: seq<Row>)
    requires WellShaped(out)
    ensures WellShaped(TellRows(out, reference, rows))
  {
    if rows != [] {
      TellRowsShaped(out, reference, rows[..|rows| - 1]);
    }
  }

  // ---- Exactly when a status is heard ----

  predicate EndsStory(r: Row) {
    StatusFromBody(r.body).Some? && IsTerminal(StatusFromBody(r.body).value)
  }

  /** Among these rows, `t` is the only one that ends the story of its hash. */
  ghost predicate OnlyTerminal(rows: seq<Row>, t: Row) {
    && EndsStory(t)
    && forall r :: r in rows && r.hash == t.hash && EndsStory(r) ==> r == t
  }

  lemma {:induction false} TerminalToldIffPassed(out: seq<Payload>, rows: seq<Row>, t: Row)
    requires (out == [] || out == [Status(Pending)]) && OnlyTerminal(rows, t)
    ensures var told := TellRows(out, t.hash, rows);
            var st := Status(StatusFromBody(t.body).value);
            if t in rows then told == [st] || told == [Status(Pending), st] else told == [] || told == [Status(Pending)]
  {
    hide StatusFromBody;
    if rows != [] {
      var front, last := rows[..|rows| - 1], rows[|rows| - 1];
      LastAndFront(rows);
      TerminalToldIffPassed(out, front, t);
      assert last in rows;
    }
  }

  /** A terminal row above the cursor is heard if and only if the first receive or page that offers
      anything at or above it offers it. */
  lemma StatusHeardIffOfferedFirst(out: seq<Payload>, cursor: int, feed: seq<Recv>, t: Row)
    requires (out == [] || out == [Status(Pending)]) && OnlyTerminal(Passed(cursor, feed), t) && t.sequence > cursor
    ensures Status(StatusFromBody(t.body).value) in FeedStory(out, t.hash, cursor, feed) <==>
              OfferedFirst(FeedOffers(cursor, feed), t)
  {
    hide TellRows, Passed, StatusFromBody;
    TerminalToldIffPassed(out, Passed(cursor, feed), t);
    PassedIffOfferedFirst(cursor, feed, t);
  }

  lemma PassedIffOfferedFirst(cursor: int, feed: seq<Recv>, t: Row)
    requires t.sequence > cursor
    ensures t in Passed(cursor, feed) <==> OfferedFirst(FeedOffers(cursor, feed), t)
  {
    LiveIffOffered(cursor, AsSignals(feed), t);
  }
}
