/** Delivery of the outbox over gRPC: paged backfill, live notifications deduplicated by the last
    sent sequence, and re-backfill after a lost LISTEN session, against a plain scan of the table.

    The environment is a script: what each database read sees and which signals the LISTEN channel
    yields. Nothing is assumed of a script but that a read returns rows in sequence order. What
    the code does not establish itself is named as a hypothesis of the gap-freedom clauses only. */
module Delivery {
  import opened Primitives
  import opened Amounts
  import opened Outbox

  /** What one query can see, `ORDER BY sequence` on the primary key. */
  type Table = t: seq<Row> | Ascending(t)

  const BACKFILL_BATCH_SIZE: nat := 1000
  const MAX_BACKFILL_EVENTS: nat := 100_000

  // ---- Queries ----

  /** `WHERE sequence > a ORDER BY sequence`. */
  function Scan(t: seq<Row>, a: int): seq<Row> {
    if t == [] then [] else if t[0].sequence > a then [t[0]] + Scan(t[1..], a) else Scan(t[1..], a)
  }

  function FetchAfterBatch(t: Table, a: int): seq<Row> {
    var rows := Scan(t, a);
    if |rows| <= BACKFILL_BATCH_SIZE then rows else rows[..BACKFILL_BATCH_SIZE]
  }

  function CountAfter(t: Table, a: int): nat {
    |Scan(t, a)|
  }

  function FindBySequence(t: seq<Row>, q: int): Option<Row> {
    if t == [] then None else if t[0].sequence == q then Some(t[0]) else FindBySequence(t[1..], q)
  }

  /** On a table the scan is the part behind a split point. */
  lemma {:induction false} ScanAt(t: seq<Row>, a: int, k: nat)
    requires k <= |t|
    requires forall i :: 0 <= i < k ==> t[i].sequence <= a
    requires forall i :: k <= i < |t| ==> t[i].sequence > a
    ensures Scan(t, a) == t[k..]
    decreases |t|
  {
    if t != [] {
      if k == 0 {
        ScanAt(t[1..], a, 0);
      } else {
        ScanAt(t[1..], a, k - 1);
        assert t[1..][k - 1..] == t[k..];
      }
    }
  }

  lemma {:induction false} ScanSplits(t: Table, a: int) returns (k: nat)
    ensures k <= |t|
    ensures forall i :: 0 <= i < k ==> t[i].sequence <= a
    ensures forall i :: k <= i < |t| ==> t[i].sequence > a
    ensures Scan(t, a) == t[k..]
  {
    k := 0;
    while k < |t| && t[k].sequence <= a
      invariant k <= |t|
      invariant forall i :: 0 <= i < k ==> t[i].sequence <= a
    {
      k := k + 1;
    }
    ScanAt(t, a, k);
  }

  lemma {:induction false} FindAt(t: seq<Row>, q: int, i: nat)
    requires Ascending(t) && i < |t| && t[i].sequence == q
    ensures FindBySequence(t, q) == Some(t[i])
  {
    if i > 0 {
      FindAt(t[1..], q, i - 1);
    }
  }

  lemma {:induction false} FoundHasSequence(t: seq<Row>, q: int)
    ensures FindBySequence(t, q).Some? ==> FindBySequence(t, q).value.sequence == q
  {
    if t != [] {
      FoundHasSequence(t[1..], q);
    }
  }

  /** The cursor after the first `k` rows of a stream that began above `after`. */
  function CursorAt(after: int, stream: seq<Row>, k: nat): int
    requires k <= |stream|
  {
    if k == 0 then after else stream[k - 1].sequence
  }

  /** Cutting a stream anywhere and resubscribing from the last sequence seen gives the rest: no
      row is repeated and none is lost. */
  lemma CutAndResume(full: Table, after: int, k: nat)
    requires k <= |Scan(full, after)|
    ensures var stream := Scan(full, after);
            Scan(full, CursorAt(after, stream, k)) == stream[k..]
            && stream[..k] + Scan(full, CursorAt(after, stream, k)) == stream
  {
    var at := ScanSplits(full, after);
    var stream := Scan(full, after);
    hide Scan;
    assert stream == full[at..];
    var cursor := CursorAt(after, stream, k);
    assert k > 0 ==> cursor == full[at + k - 1].sequence && cursor > after;
    assert forall i :: 0 <= i < at + k ==> full[i].sequence <= cursor;
    ScanAt(full, cursor, at + k);
    assert full[at + k..] == full[at..][k..];
  }

  // ---- The scripted environment ----

  datatype Read = Rows(t: Table) | ReadError

  datatype Signal =
    | Notified(sequence: int, found: Read)
    | Disconnected(count: Read, pages: seq<Read>)
    | OtherError

  datatype Flow = Continue | Stop

  // ---- Hypotheses ----

  /** Rows become visible in sequence order: a read that succeeds sees a prefix of the table. */
  predicate Visible(full: Table, pages: seq<Read>) {
    forall i :: 0 <= i < |pages| && pages[i].Rows? ==> pages[i].t <= full
  }

  /** The visible length at the empty page that ends a backfill, and the cursor then. */
  datatype Drained = Drained(visible: nat, cursor: int)

  function Drain(cursor: int, pages: seq<Read>): Option<Drained>
    decreases |pages|
  {
    if pages == [] || pages[0].ReadError? then None
    else
      var batch := FetchAfterBatch(pages[0].t, cursor);
      if batch == [] then Some(Drained(|pages[0].t|, cursor)) else Drain(batch[|batch| - 1].sequence, pages[1..])
  }

  function Max(a: int, b: int): int {
    if a < b then b else a
  }

  /** The signals of a LISTEN channel that loses nothing: the rows from `b` on are notified in
      order, every notified row can be read, and after a disconnect the new session is active
      before the re-backfill's last page. If `complete`, everything has been notified. */
  ghost predicate Timely(full: Table, b: nat, cursor: int, signals: seq<Signal>, complete: bool)
    decreases |signals|, 1
  {
    if signals == [] then complete ==> b >= |full| else
      match signals[0]
      case Notified(q, found) =>
        && b < |full| && q == full[b].sequence
        && found.Rows? && found.t <= full && b < |found.t|
        && Timely(full, b + 1, Max(cursor, q), signals[1..], complete)
      case Disconnected(count, pages) =>
        && count.Rows? && CountAfter(count.t, cursor) <= MAX_BACKFILL_EVENTS
        && Visible(full, pages)
        && SessionActive(full, cursor, pages, signals[1..], complete)
      case OtherError => Timely(full, b, cursor, signals[1..], complete)
  }

  /** The session whose signals follow was active before the last page of this backfill. */
  ghost predicate SessionActive(full: Table, cursor: int, pages: seq<Read>, signals: seq<Signal>, complete: bool)
    decreases |signals|, 2
  {
    match Drain(cursor, pages)
    case None => !complete
    case Some(d) => exists b: nat :: b <= d.visible && Timely(full, b, d.cursor, signals, complete)
  }

  // ---- What the loop sends ----

  /** Sorted rows, all above a cursor: what every page and every stream is. */
  predicate Rising(cursor: int, rows: seq<Row>) {
    Ascending(rows) && forall i :: 0 <= i < |rows| ==> rows[i].sequence > cursor
  }

  lemma RisingJoins(cursor: int, a: seq<Row>, b: seq<Row>)
    requires Rising(cursor, a) && Rising(CursorAt(cursor, a, |a|), b)
    ensures Rising(cursor, a + b) && CursorAt(cursor, a + b, |a + b|) == CursorAt(CursorAt(cursor, a, |a|), b, |b|)
  {
  }

  lemma PageRises(t: Table, cursor: int)
    ensures Rising(cursor, FetchAfterBatch(t, cursor))
  {
    var k := ScanSplits(t, cursor);
  }

  /** All rows of a backfill. */
  function Paged(cursor: int, pages: seq<Read>): seq<Row>
    decreases |pages|
  {
    if pages == [] || pages[0].ReadError? then []
    else
      var batch := FetchAfterBatch(pages[0].t, cursor);
      if batch == [] then [] else batch + Paged(batch[|batch| - 1].sequence, pages[1..])
  }

  function FoundRow(q: int, found: Read): Option<Row> {
    if found.ReadError? then None else FindBySequence(found.t, q)
  }

  /** All rows of the live part, from a cursor. */
  function Live(cursor: int, signals: seq<Signal>): seq<Row>
    decreases |signals|, 0
  {
    if signals == [] then [] else
      match signals[0]
      case OtherError => Live(cursor, signals[1..])
      case Notified(q, found) =>
        if q <= cursor || FoundRow(q, found).None? then Live(cursor, signals[1..])
        else [FoundRow(q, found).value] + Live(q, signals[1..])
      case Disconnected(count, pages) =>
        if count.ReadError? || CountAfter(count.t, cursor) > MAX_BACKFILL_EVENTS then []
        else Paged(cursor, pages) + LiveAfter(cursor, pages, signals[1..])
  }

  /** The live part after a backfill, if that got to its end. */
  function LiveAfter(cursor: int, pages: seq<Read>, signals: seq<Signal>): seq<Row>
    decreases |signals|, 1
  {
    if Drain(cursor, pages).None? then [] else Live(Drain(cursor, pages).value.cursor, signals)
  }

  /** The stream of a subscriber that never goes away. */
  function Delivered(after: int, pages: seq<Read>, signals: seq<Signal>): seq<Row> {
    Paged(after, pages) + LiveAfter(after, pages, signals)
  }

  lemma {:induction false} PagedRises(cursor: int, pages: seq<Read>)
    ensures Rising(cursor, Paged(cursor, pages))
    ensures var d := Drain(cursor, pages);
            d.Some? ==> d.value.cursor == CursorAt(cursor, Paged(cursor, pages), |Paged(cursor, pages)|)
    decreases |pages|
  {
    if pages != [] && pages[0].Rows? {
      var batch := FetchAfterBatch(pages[0].t, cursor);
      PageRises(pages[0].t, cursor);
      if batch != [] {
        var rest := Paged(batch[|batch| - 1].sequence, pages[1..]);
        PagedRises(batch[|batch| - 1].sequence, pages[1..]);
        RisingJoins(cursor, batch, rest);
      }
    }
  }

  lemma {:induction false} LiveRises(cursor: int, signals: seq<Signal>)
    ensures Rising(cursor, Live(cursor, signals))
    decreases |signals|
  {
    hide Ascending;
    if signals != [] {
      match signals[0] {
        case OtherError => LiveRises(cursor, signals[1..]);
        case Notified(q, found) =>
          LiveRises(cursor, signals[1..]);
          if found.Rows? {
            FoundHasSequence(found.t, q);
          }
          if q > cursor && FoundRow(q, found).Some? {
            LiveRises(q, signals[1..]);
            SingleRises(cursor, FoundRow(q, found).value);
            RisingJoins(cursor, [FoundRow(q, found).value], Live(q, signals[1..]));
          }
        case Disconnected(count, pages) =>
          PagedRises(cursor, pages);
          EmptyRises(cursor);
          EmptyRises(CursorAt(cursor, Paged(cursor, pages), |Paged(cursor, pages)|));
          if Drain(cursor, pages).Some? {
            LiveRises(Drain(cursor, pages).value.cursor, signals[1..]);
          }
          RisingJoins(cursor, Paged(cursor, pages), LiveAfter(cursor, pages, signals[1..]));
      }
    } else {
      EmptyRises(cursor);
    }
  }

  lemma SingleRises(cursor: int, r: Row)
    requires r.sequence > cursor
    ensures Rising(cursor, [r])
  {
  }

  lemma EmptyRises(cursor: int)
    ensures Rising(cursor, [])
  {
  }

  /** A re-backfill of more than the cap, or whose count fails, ends the stream; one within it does not. */
  lemma CapEndsTheStream(cursor: int, count: Read, pages: seq<Read>, rest: seq<Signal>)
    ensures count.ReadError? || |Scan(count.t, cursor)| > 100_000 ==>
              Live(cursor, [Disconnected(count, pages)] + rest) == []
    ensures count.Rows? && |Scan(count.t, cursor)| <= 100_000 ==>
              Live(cursor, [Disconnected(count, pages)] + rest) == Paged(cursor, pages) + LiveAfter(cursor, pages, rest)
  {
    hide Scan, Paged;
    var signals := [Disconnected(count, pages)] + rest;
    assert signals[1..] == rest;
  }

  /** Always, whatever the reads see and the channel signals: sorted, without repetition, and above
      the requested sequence. */
  lemma DeliveredRises(after: int, pages: seq<Read>, signals: seq<Signal>)
    ensures Rising(after, Delivered(after, pages, signals))
  {
    PagedRises(after, pages);
    EmptyRises(CursorAt(after, Paged(after, pages), |Paged(after, pages)|));
    if Drain(after, pages).Some? {
      LiveRises(Drain(after, pages).value.cursor, signals);
    }
    RisingJoins(after, Paged(after, pages), LiveAfter(after, pages, signals));
  }

  // ---- Exactly when a row is sent ----

  /** What the reads of a backfill offer, page by page. */
  function PageOffers(cursor: int, pages: seq<Read>): seq<seq<Row>>
    decreases |pages|
  {
    if pages == [] || pages[0].ReadError? then []
    else
      var batch := FetchAfterBatch(pages[0].t, cursor);
      if batch == [] then [] else [batch] + PageOffers(batch[|batch| - 1].sequence, pages[1..])
  }

  /** What notifications and re-backfills offer. A notified row is offered whether or not the loop
      still wants it. */
  function LiveOffers(cursor: int, signals: seq<Signal>): seq<seq<Row>>
    decreases |signals|, 0
  {
    if signals == [] then [] else
      match signals[0]
      case OtherError => LiveOffers(cursor, signals[1..])
      case Notified(q, found) =>
        if FoundRow(q, found).None? then LiveOffers(cursor, signals[1..])
        else [[FoundRow(q, found).value]] + LiveOffers(Max(cursor, q), signals[1..])
      case Disconnected(count, pages) =>
        if count.ReadError? || CountAfter(count.t, cursor) > MAX_BACKFILL_EVENTS then []
        else PageOffers(cursor, pages) + OffersAfter(cursor, pages, signals[1..])
  }

  function OffersAfter(cursor: int, pages: seq<Read>, signals: seq<Signal>): seq<seq<Row>>
    decreases |signals|, 1
  {
    if Drain(cursor, pages).None? then [] else LiveOffers(Drain(cursor, pages).value.cursor, signals)
  }

  /** Everything that is offered to the subscription, read by read. */
  function Offers(after: int, pages: seq<Read>, signals: seq<Signal>): seq<seq<Row>> {
    PageOffers(after, pages) + OffersAfter(after, pages, signals)
  }

  predicate AllLower(rows: seq<Row>, q: int) {
    forall i :: 0 <= i < |rows| ==> rows[i].sequence < q
  }

  /** The first read that offers a row at or above `r` offers `r`. */
  predicate OfferedFirst(offers: seq<seq<Row>>, r: Row) {
    offers != [] && (r in offers[0] || (AllLower(offers[0], r.sequence) && OfferedFirst(offers[1..], r)))
  }

  predicate AllOffersLower(offers: seq<seq<Row>>, q: int) {
    offers == [] || (AllLower(offers[0], q) && AllOffersLower(offers[1..], q))
  }

  lemma {:induction false} OfferedFirstJoins(a: seq<seq<Row>>, b: seq<seq<Row>>, r: Row)
    ensures OfferedFirst(a + b, r) <==> OfferedFirst(a, r) || (AllOffersLower(a, r.sequence) && OfferedFirst(b, r))
    decreases |a|
  {
    if a == [] {
      assert a + b == b;
    } else {
      assert (a + b)[1..] == a[1..] + b;
      OfferedFirstJoins(a[1..], b, r);
    }
  }

  /** Within a backfill every offered row is sent, and the cursor is the highest offer. */
  lemma {:induction false} PagedIffOffered(cursor: int, pages: seq<Read>, r: Row)
    requires r.sequence > cursor
    ensures r in Paged(cursor, pages) <==> OfferedFirst(PageOffers(cursor, pages), r)
    ensures var d := Drain(cursor, pages);
            d.Some? ==> (AllOffersLower(PageOffers(cursor, pages), r.sequence) <==> r.sequence > d.value.cursor)
    decreases |pages|
  {
    if pages != [] && pages[0].Rows? {
      var batch := FetchAfterBatch(pages[0].t, cursor);
      PageRises(pages[0].t, cursor);
      if batch != [] {
        var last, rest := batch[|batch| - 1].sequence, pages[1..];
        PagedRises(last, rest);
        assert AllLower(batch, r.sequence) <==> r.sequence > last;
        if r.sequence > last {
          PagedIffOffered(last, rest, r);
          assert r !in batch;
        }
        assert ([batch] + PageOffers(last, rest))[1..] == PageOffers(last, rest);
      }
    }
  }

  lemma {:induction false} LiveIffOffered(cursor: int, signals: seq<Signal>, r: Row)
    requires r.sequence > cursor
    ensures r in Live(cursor, signals) <==> OfferedFirst(LiveOffers(cursor, signals), r)
    decreases |signals|, 0
  {
    if signals != [] {
      match signals[0] {
        case OtherError => LiveIffOffered(cursor, signals[1..], r);
        case Notified(q, found) =>
          if FoundRow(q, found).None? {
            LiveIffOffered(cursor, signals[1..], r);
          } else {
            FoundHasSequence(found.t, q);
            NotifiedIffOffered(cursor, q, FoundRow(q, found).value, signals[1..], r);
          }
        case Disconnected(count, pages) =>
          if count.Rows? && CountAfter(count.t, cursor) <= MAX_BACKFILL_EVENTS {
            if Drain(cursor, pages).Some? && r.sequence > Drain(cursor, pages).value.cursor {
              LiveIffOffered(Drain(cursor, pages).value.cursor, signals[1..], r);
            }
            AfterPagesIffOffered(cursor, pages, signals[1..], r);
          }
      }
    }
  }

  lemma {:induction false} NotifiedIffOffered(cursor: int, q: int, row: Row, rest: seq<Signal>, r: Row)
    requires r.sequence > cursor && row.sequence == q
    ensures var sent := if q <= cursor then Live(cursor, rest) else [row] + Live(q, rest);
            r in sent <==> OfferedFirst([[row]] + LiveOffers(Max(cursor, q), rest), r)
    decreases |rest|, 1
  {
    assert ([[row]] + LiveOffers(Max(cursor, q), rest))[1..] == LiveOffers(Max(cursor, q), rest);
    if r.sequence > Max(cursor, q) {
      LiveIffOffered(Max(cursor, q), rest, r);
    } else {
      LiveRises(q, rest);
    }
  }

  /** Joining a backfill and the live part behind it. */
  lemma {:induction false} AfterPagesIffOffered(cursor: int, pages: seq<Read>, signals: seq<Signal>, r: Row)
    requires r.sequence > cursor
    requires Drain(cursor, pages).Some? && r.sequence > Drain(cursor, pages).value.cursor ==>
               var c := Drain(cursor, pages).value.cursor;
               r in Live(c, signals) <==> OfferedFirst(LiveOffers(c, signals), r)
    ensures r in Paged(cursor, pages) + LiveAfter(cursor, pages, signals) <==>
              OfferedFirst(PageOffers(cursor, pages) + OffersAfter(cursor, pages, signals), r)
  {
    hide Paged, PageOffers, Live, LiveOffers, Drain, Ascending;
    PagedIffOffered(cursor, pages, r);
    OfferedFirstJoins(PageOffers(cursor, pages), OffersAfter(cursor, pages, signals), r);
    if Drain(cursor, pages).Some? {
      LiveRises(Drain(cursor, pages).value.cursor, signals);
    }
  }

  /** A row above the start is sent if and only if the first read that offers anything at or above it
      offers it. */
  lemma SentIffOfferedFirst(after: int, pages: seq<Read>, signals: seq<Signal>, r: Row)
    requires r.sequence > after
    ensures r in Delivered(after, pages, signals) <==> OfferedFirst(Offers(after, pages, signals), r)
  {
    if Drain(after, pages).Some? && r.sequence > Drain(after, pages).value.cursor {
      LiveIffOffered(Drain(after, pages).value.cursor, signals, r);
    }
    AfterPagesIffOffered(after, pages, signals, r);
  }

  /** A late row: once a read has offered something above it, and none up to then offered it, it is
      never sent, however often it is offered later. */
  lemma {:induction false} LateRowNeverOfferedFirst(offers: seq<seq<Row>>, k: nat, late: Row)
    requires k < |offers| && !AllLower(offers[k], late.sequence)
    requires forall i :: 0 <= i <= k ==> late !in offers[i]
    ensures !OfferedFirst(offers, late)
    decreases |offers|
  {
    if k > 0 {
      LateRowNeverOfferedFirst(offers[1..], k - 1, late);
    }
  }

  lemma LateRowNeverDelivered(after: int, pages: seq<Read>, signals: seq<Signal>, k: nat, late: Row)
    requires late.sequence > after && k < |Offers(after, pages, signals)|
    requires !AllLower(Offers(after, pages, signals)[k], late.sequence)
    requires forall i :: 0 <= i <= k ==> late !in Offers(after, pages, signals)[i]
    ensures late !in Delivered(after, pages, signals)
  {
    LateRowNeverOfferedFirst(Offers(after, pages, signals), k, late);
    SentIffOfferedFirst(after, pages, signals, late);
  }

  /** Every read returns rows of the table only; nothing is said about which. */
  predicate PagesWithin(full: Table, pages: seq<Read>) {
    forall i :: 0 <= i < |pages| && pages[i].Rows? ==> forall r :: r in pages[i].t ==> r in full
  }

  predicate Within(full: Table, s: Signal) {
    match s
    case Notified(_, found) => found.Rows? ==> forall r :: r in found.t ==> r in full
    case Disconnected(_, pages) => PagesWithin(full, pages)
    case OtherError => true
  }

  lemma {:induction false} PagedWithin(full: Table, cursor: int, pages: seq<Read>, r: Row)
    requires PagesWithin(full, pages) && r in Paged(cursor, pages)
    ensures r in full
    decreases |pages|
  {
    var batch := FetchAfterBatch(pages[0].t, cursor);
    if r in batch {
      var k := ScanSplits(pages[0].t, cursor);
      assert r in pages[0].t;
    } else {
      PagedWithin(full, batch[|batch| - 1].sequence, pages[1..], r);
    }
  }

  lemma {:induction false} FoundIsThere(t: seq<Row>, q: int)
    ensures var r := FindBySequence(t, q); r.Some? ==> r.value in t && r.value.sequence == q
  {
    if t != [] {
      FoundIsThere(t[1..], q);
    }
  }

  lemma {:induction false} LiveWithin(full: Table, cursor: int, signals: seq<Signal>, r: Row)
    requires (forall i :: 0 <= i < |signals| ==> Within(full, signals[i])) && r in Live(cursor, signals)
    ensures r in full
    decreases |signals|
  {
    var rest := signals[1..];
    assert Within(full, signals[0]) && forall i :: 0 <= i < |rest| ==> rest[i] == signals[i + 1];
    match signals[0] {
      case OtherError => LiveWithin(full, cursor, rest, r);
      case Notified(q, found) =>
        if found.Rows? {
          FoundIsThere(found.t, q);
        }
        if q <= cursor || FoundRow(q, found).None? {
          LiveWithin(full, cursor, rest, r);
        } else if r != FoundRow(q, found).value {
          LiveWithin(full, q, rest, r);
        }
      case Disconnected(count, pages) =>
        if r in Paged(cursor, pages) {
          PagedWithin(full, cursor, pages, r);
        } else {
          LiveWithin(full, Drain(cursor, pages).value.cursor, rest, r);
        }
    }
  }

  /** Gap-freedom, exactly: if reads return only rows of the table, the stream is the whole table above
      the start if and only if for each such row the first read that offers anything at or above it
      offers it. */
  lemma StreamCompleteIff(full: Table, after: int, pages: seq<Read>, signals: seq<Signal>)
    requires PagesWithin(full, pages) && forall i :: 0 <= i < |signals| ==> Within(full, signals[i])
    ensures Delivered(after, pages, signals) == Scan(full, after) <==>
              forall r :: r in Scan(full, after) ==> OfferedFirst(Offers(after, pages, signals), r)
  {
    hide Scan, Offers, OfferedFirst;
    var sent := Delivered(after, pages, signals);
    DeliveredRises(after, pages, signals);
    var z := ScanSplits(full, after);
    forall r | r in Scan(full, after)
      ensures r in sent <==> OfferedFirst(Offers(after, pages, signals), r)
    {
      SentIffOfferedFirst(after, pages, signals, r);
    }
    forall r | r in sent
      ensures r in Scan(full, after)
    {
      SentWithin(full, after, pages, signals, r);
      ScanMembers(full, after, r);
    }
    if forall r :: r in Scan(full, after) ==> OfferedFirst(Offers(after, pages, signals), r) {
      AscendingUnique(sent, Scan(full, after));
    }
  }

  lemma SentWithin(full: Table, after: int, pages: seq<Read>, signals: seq<Signal>, r: Row)
    requires PagesWithin(full, pages) && forall i :: 0 <= i < |signals| ==> Within(full, signals[i])
    requires r in Delivered(after, pages, signals)
    ensures r in full && r.sequence > after
  {
    DeliveredRises(after, pages, signals);
    if r in Paged(after, pages) {
      PagedWithin(full, after, pages, r);
    } else {
      LiveWithin(full, Drain(after, pages).value.cursor, signals, r);
    }
  }

  lemma ScanMembers(full: Table, after: int, r: Row)
    ensures r in Scan(full, after) <==> r in full && r.sequence > after
  {
    var k := ScanSplits(full, after);
  }

  /** A LISTEN session that comes up after a backfill's last page: a row committed in between is never
      notified, and the next one overtakes it. */
  lemma ListenGapLosesRow(first: Row, second: Row)
    requires 0 < first.sequence < second.sequence
    ensures Delivered(0, [Rows([])], [Notified(second.sequence, Rows([first, second]))]) == [second]
    ensures Scan([first, second], 0) == [first, second]
  {
    ScanAt([first, second], 0, 0);
    FindAt([first, second], second.sequence, 1);
    var pages: seq<Read>, signals: seq<Signal> := [Rows([])], [Notified(second.sequence, Rows([first, second]))];
    assert Drain(0, pages) == Some(Drained(0, 0)) && Paged(0, pages) == [];
    assert signals[1..] == [] && Live(second.sequence, signals[1..]) == [];
    assert Live(0, signals) == [second];
  }

  /** Rows that become visible out of order: the backfill sees the higher sequence first, and the lower
      one, though notified and readable, is skipped. */
  lemma OvertakenRowIsLost(first: Row, second: Row)
    requires 0 < first.sequence < second.sequence
    ensures Delivered(0, [Rows([second]), Rows([second])], [Notified(first.sequence, Rows([first, second]))])
         == [second]
    ensures Scan([first, second], 0) == [first, second]
  {
    ScanAt([first, second], 0, 0);
    ScanAt([second], 0, 0);
    ScanAt([second], second.sequence, 1);
    var pages: seq<Read> := [Rows([second]), Rows([second])];
    var signals: seq<Signal> := [Notified(first.sequence, Rows([first, second]))];
    assert FetchAfterBatch(pages[0].t, 0) == [second] && FetchAfterBatch(pages[1].t, second.sequence) == [];
    assert pages[1..][0] == pages[1];
    assert Paged(second.sequence, pages[1..]) == [] && Paged(0, pages) == [second];
    assert Drain(second.sequence, pages[1..]) == Some(Drained(1, second.sequence));
    assert Drain(0, pages) == Some(Drained(1, second.sequence));
    assert signals[1..] == [] && Live(second.sequence, signals[1..]) == [];
    assert Live(second.sequence, signals) == [];
  }

  // ---- A channel that loses nothing ----

  /** Everything up to row `m` of the table is behind the cursor. */
  predicate Covered(full: Table, m: nat, cursor: int) {
    forall i :: 0 <= i < m && i < |full| ==> full[i].sequence <= cursor
  }

  /** A prefix of the table splits where the table does. */
  lemma PrefixSplits(full: Table, t: Table, cursor: int, k: nat)
    requires t <= full && k < |t|
    requires forall i :: 0 <= i < k ==> t[i].sequence <= cursor
    requires t[k].sequence > cursor
    ensures Scan(full, cursor) == full[k..] && t[k..] <= full[k..]
  {
    assert forall i :: 0 <= i < |t| ==> full[i] == t[i];
    forall i | k <= i < |full|
      ensures full[i].sequence > cursor
    {
      assert k < i ==> full[k].sequence < full[i].sequence;
    }
    ScanAt(full, cursor, k);
  }

  lemma BatchOfScan(full: Table, t: Table, cursor: int)
    requires t <= full
    ensures FetchAfterBatch(t, cursor) <= Scan(full, cursor)
    ensures FetchAfterBatch(t, cursor) == [] ==> Covered(full, |t|, cursor)
  {
    hide Scan, Ascending;
    var k := ScanSplits(t, cursor);
    if k < |t| {
      PrefixSplits(full, t, cursor, k);
    } else {
      assert forall i :: 0 <= i < |t| ==> full[i] == t[i];
    }
  }

  /** A backfill on prefixes takes rows off the front of the scan, up to what its last page saw. */
  lemma {:induction false} PagedSplitsScan(full: Table, cursor: int, pages: seq<Read>)
    requires Visible(full, pages)
    ensures Paged(cursor, pages) <= Scan(full, cursor)
    ensures var d := Drain(cursor, pages);
            d.Some? ==> && Scan(full, cursor) == Paged(cursor, pages) + Scan(full, d.value.cursor)
                        && Covered(full, d.value.visible, d.value.cursor)
    decreases |pages|
  {
    hide Scan, Ascending, Covered;
    if pages != [] && pages[0].Rows? {
      var batch := FetchAfterBatch(pages[0].t, cursor);
      BatchOfScan(full, pages[0].t, cursor);
      if batch != [] {
        CutAndResume(full, cursor, |batch|);
        PagedSplitsScan(full, batch[|batch| - 1].sequence, pages[1..]);
      }
    }
  }

  lemma NextOfScan(full: Table, b: nat, cursor: int)
    requires b < |full| && full[b].sequence > cursor && Covered(full, b, cursor)
    ensures Scan(full, cursor) == [full[b]] + Scan(full, full[b].sequence)
    ensures Covered(full, b + 1, full[b].sequence)
  {
    assert forall i :: b < i < |full| ==> full[i].sequence > full[b].sequence;
    ScanAt(full, cursor, b);
    ScanAt(full, full[b].sequence, b + 1);
  }

  lemma {:induction false} LiveIsScan(full: Table, b: nat, cursor: int, signals: seq<Signal>, complete: bool)
    requires Timely(full, b, cursor, signals, complete) && Covered(full, b, cursor)
    ensures Live(cursor, signals) <= Scan(full, cursor)
    ensures complete ==> Live(cursor, signals) == Scan(full, cursor)
    decreases |signals|, 1
  {
    hide Scan, Ascending;
    if signals == [] {
      if complete {
        ScanAt(full, cursor, |full|);
      }
    } else {
      match signals[0] {
        case OtherError => LiveIsScan(full, b, cursor, signals[1..], complete);
        case Notified(q, found) =>
          FindAt(found.t, q, b);
          if q > cursor {
            NextOfScan(full, b, cursor);
          }
          LiveIsScan(full, b + 1, Max(cursor, q), signals[1..], complete);
        case Disconnected(count, pages) => LiveAfterIsScan(full, cursor, pages, signals[1..], complete);
      }
    }
  }

  lemma {:induction false} LiveAfterIsScan(
      full: Table, cursor: int, pages: seq<Read>, signals: seq<Signal>, complete: bool)
    requires Visible(full, pages) && SessionActive(full, cursor, pages, signals, complete)
    ensures Paged(cursor, pages) + LiveAfter(cursor, pages, signals) <= Scan(full, cursor)
    ensures complete ==> Paged(cursor, pages) + LiveAfter(cursor, pages, signals) == Scan(full, cursor)
    decreases |signals|, 2
  {
    hide Scan, Ascending, Paged, Drain, Covered;
    PagedSplitsScan(full, cursor, pages);
    if Drain(cursor, pages).Some? {
      var d := Drain(cursor, pages).value;
      var b: nat :| b <= d.visible && Timely(full, b, d.cursor, signals, complete);
      CoveredLess(full, b, d.visible, d.cursor);
      LiveIsScan(full, b, d.cursor, signals, complete);
    }
  }

  lemma CoveredLess(full: Table, b: nat, m: nat, cursor: int)
    requires b <= m && Covered(full, m, cursor)
    ensures Covered(full, b, cursor)
  {
  }

  /** Cutting a stream after any number of rows and subscribing again from the last sequence seen: the
      two streams together are sorted and repeat nothing, always; and if both channels lose nothing
      they are together the table above the first start. */
  lemma ResumedStreamsJoin(
      full: Table, after: int, pages: seq<Read>, signals: seq<Signal>, k: nat, pages2: seq<Read>, signals2: seq<Signal>)
    requires k <= |Delivered(after, pages, signals)|
    ensures var sent := Delivered(after, pages, signals)[..k];
            var sent2 := Delivered(CursorAt(after, sent, k), pages2, signals2);
            && Rising(after, sent + sent2)
            && (&& Visible(full, pages) && SessionActive(full, after, pages, signals, false)
                && Visible(full, pages2) && SessionActive(full, CursorAt(after, sent, k), pages2, signals2, true)
                ==> sent + sent2 == Scan(full, after))
  {
    hide Scan, Paged, Live, Drain, Visible;
    var whole := Delivered(after, pages, signals);
    var sent := whole[..k];
    var c := CursorAt(after, sent, k);
    DeliveredRises(after, pages, signals);
    DeliveredRises(c, pages2, signals2);
    RisingJoins(after, sent, Delivered(c, pages2, signals2));
    if Visible(full, pages) && SessionActive(full, after, pages, signals, false)
       && Visible(full, pages2) && SessionActive(full, c, pages2, signals2, true)
    {
      LiveAfterIsScan(full, after, pages, signals, false);
      LiveAfterIsScan(full, c, pages2, signals2, true);
      CutAndResume(full, after, k);
      assert sent == Scan(full, after)[..k];
    }
  }

  // ---- The subscription loop ----

  /** What a subscriber gets that goes away after `n` rows. */
  function Taken(rows: seq<Row>, n: nat): seq<Row> {
    if |rows| <= n then rows else rows[..n]
  }

  /** One page: each row is sent unless the subscriber is gone. */
  method SendPage(batch: seq<Row>, cursor0: int, sent0: seq<Row>, accepts: nat)
    returns (cursor: int, sent: seq<Row>, flow: Flow)
    requires |sent0| <= accepts
    ensures sent == Taken(sent0 + batch, accepts)
    ensures flow == Stop <==> |sent0| + |batch| > accepts
    ensures flow == Continue ==> cursor == CursorAt(cursor0, batch, |batch|)
  {
    cursor, sent, flow := cursor0, sent0, Continue;
    for i := 0 to |batch|
      invariant sent == sent0 + batch[..i] && |sent| <= accepts
      invariant cursor == CursorAt(cursor0, batch, i)
    {
      cursor := batch[i].sequence;
      if |sent| >= accepts {
        flow := Stop;
        assert (sent0 + batch)[..accepts] == sent;
        return;
      }
      sent := sent + [batch[i]];
    }
    assert batch[..|batch|] == batch;
  }

  /** Page until an empty page. */
  method Backfill(pages: seq<Read>, cursor0: int, sent0: seq<Row>, accepts: nat)
    returns (cursor: int, sent: seq<Row>, flow: Flow)
    requires |sent0| <= accepts
    ensures sent == Taken(sent0 + Paged(cursor0, pages), accepts)
    ensures flow == Continue <==> |sent0 + Paged(cursor0, pages)| <= accepts && Drain(cursor0, pages).Some?
    ensures flow == Continue ==> Drain(cursor0, pages).value.cursor == cursor
  {
    cursor, sent, flow := cursor0, sent0, Continue;
    ghost var whole := sent0 + Paged(cursor0, pages);
    for i := 0 to |pages|
      invariant flow == Continue && |sent| <= accepts
      invariant whole == sent + Paged(cursor, pages[i..])
      invariant Drain(cursor0, pages) == Drain(cursor, pages[i..])
    {
      assert pages[i..][0] == pages[i] && pages[i..][1..] == pages[i + 1..];
      if pages[i].ReadError? {
        flow := Stop;
        return;
      }
      var batch := FetchAfterBatch(pages[i].t, cursor);
      if batch == [] {
        return;
      }
      ghost var rest := Paged(batch[|batch| - 1].sequence, pages[i + 1..]);
      assert sent + (batch + rest) == (sent + batch) + rest;
      cursor, sent, flow := SendPage(batch, cursor, sent, accepts);
      if flow.Stop? {
        return;
      }
    }
    flow := Stop;
  }

  /** One notification: skip what the cursor has passed, otherwise read the row and send it. */
  method Notify(q: int, found: Read, cursor0: int, sent0: seq<Row>, accepts: nat)
    returns (cursor: int, sent: seq<Row>, flow: Flow)
    requires |sent0| <= accepts
    ensures var wanted := q > cursor0 && FoundRow(q, found).Some?;
            && cursor == (if wanted then q else cursor0)
            && sent == (if wanted then Taken(sent0 + [FoundRow(q, found).value], accepts) else sent0)
            && (flow == Stop <==> wanted && |sent0| == accepts)
  {
    cursor, sent, flow := cursor0, sent0, Continue;
    if q <= cursor || found.ReadError? {
      return;
    }
    match FindBySequence(found.t, q) {
      case None =>
      case Some(row) =>
        cursor := q;
        if |sent| >= accepts {
          flow := Stop;
          return;
        }
        sent := sent + [row];
    }
  }

  /** `subscription_loop`. `accepts` is how many events the subscriber takes before it goes away;
      a script that ends is a cancelled or ended stream. What is sent is exactly the first
      `accepts` rows of `Delivered`. */
  method SubscriptionLoop(after: int, pages: seq<Read>, signals: seq<Signal>, accepts: nat, ghost full: Table)
    returns (sent: seq<Row>)
    ensures sent == Taken(Delivered(after, pages, signals), accepts)
    ensures Rising(after, sent)
    ensures Visible(full, pages) && SessionActive(full, after, pages, signals, false) ==> sent <= Scan(full, after)
    ensures Visible(full, pages) && SessionActive(full, after, pages, signals, true) && |Scan(full, after)| <= accepts
            ==> sent == Scan(full, after)
  {
    hide Scan, Ascending, Paged, Drain, SessionActive, Visible;
    ghost var whole := Delivered(after, pages, signals);
    DeliveredRises(after, pages, signals);
    if Visible(full, pages) && SessionActive(full, after, pages, signals, false) {
      LiveAfterIsScan(full, after, pages, signals, false);
    }
    if Visible(full, pages) && SessionActive(full, after, pages, signals, true) {
      LiveAfterIsScan(full, after, pages, signals, true);
    }
    TakenRises(after, whole, accepts);
    var cursor, flow;
    cursor, sent, flow := Backfill(pages, after, [], accepts);
    assert [] + Paged(after, pages) == Paged(after, pages);
    if flow.Continue? {
      sent := FollowSignals(cursor, sent, signals, accepts);
    }
  }

  /** The live part, after the first backfill. */
  method FollowSignals(cursor0: int, sent0: seq<Row>, signals: seq<Signal>, accepts: nat) returns (sent: seq<Row>)
    requires |sent0| <= accepts
    ensures sent == Taken(sent0 + Live(cursor0, signals), accepts)
  {
    hide Scan, Ascending, Paged, Drain;
    var cursor, flow := cursor0, Continue;
    sent := sent0;
    ghost var whole := sent0 + Live(cursor0, signals);
    for i := 0 to |signals|
      invariant |sent| <= accepts && whole == sent + Live(cursor, signals[i..])
    {
      assert signals[i..][0] == signals[i] && signals[i..][1..] == signals[i + 1..];
      match signals[i] {
        case OtherError =>
        case Notified(q, found) =>
          ghost var before := sent;
          cursor, sent, flow := Notify(q, found, cursor, sent, accepts);
          if flow.Stop? {
            return;
          }
          if sent != before {
            ghost var row, rest := FoundRow(q, found).value, Live(q, signals[i + 1..]);
            assert before + ([row] + rest) == sent + rest;
          }
        case Disconnected(count, again) =>
          if count.ReadError? || CountAfter(count.t, cursor) > MAX_BACKFILL_EVENTS {
            return;
          }
          ghost var joined := sent + Paged(cursor, again);
          assert whole == joined + LiveAfter(cursor, again, signals[i + 1..]);
          cursor, sent, flow := Backfill(again, cursor, sent, accepts);
          if flow.Stop? {
            return;
          }
      }
    }
  }

  lemma TakenRises(after: int, rows: seq<Row>, n: nat)
    requires Rising(after, rows)
    ensures Rising(after, Taken(rows, n))
  {
  }

  // ---- The request ----

  datatype Subscribed = Refused(backlog: nat) | Failed | Streamed(sent: seq<Row>)

  /** `subscribe`: the backlog cap, then the loop from the wire value reinterpreted as `i64`. */
  method Subscribe(afterSequence: U64, count: Read, pages: seq<Read>, signals: seq<Signal>, accepts: nat,
                   ghost full: Table)
    returns (r: Subscribed)
    ensures r.Failed? <==> count.ReadError?
    ensures r.Refused? <==> count.Rows? && |Scan(count.t, AsI64(afterSequence))| > 100_000
    ensures r.Refused? ==> r.backlog == |Scan(count.t, AsI64(afterSequence))|
    ensures r.Streamed? ==> r.sent == Taken(Delivered(AsI64(afterSequence), pages, signals), accepts)
    ensures r.Streamed? ==> Rising(AsI64(afterSequence), r.sent)
    ensures r.Streamed? && Visible(full, pages) && SessionActive(full, AsI64(afterSequence), pages, signals, false)
            ==> r.sent <= Scan(full, AsI64(afterSequence))
    ensures r.Streamed? && Visible(full, pages) && SessionActive(full, AsI64(afterSequence), pages, signals, true)
            && |Scan(full, AsI64(afterSequence))| <= accepts
            ==> r.sent == Scan(full, AsI64(afterSequence))
  {
    if count.ReadError? {
      return Failed;
    }
    var backlog := CountAfter(count.t, AsI64(afterSequence));
    if backlog > MAX_BACKFILL_EVENTS {
      return Refused(backlog);
    }
    var sent := SubscriptionLoop(AsI64(afterSequence), pages, signals, accepts, full);
    r := Streamed(sent);
  }

  /** The cast is right exactly on the sequences a BIGSERIAL can hold: at 2^63 and above it turns
      negative and the whole table is replayed. */
  lemma StartIsHonouredExactlyBelowI64(full: Table, afterSequence: U64)
    requires full != [] && forall i :: 0 <= i < |full| ==> 0 < full[i].sequence < I64_LIMIT
    ensures Scan(full, AsI64(afterSequence)) == Scan(full, afterSequence) <==> afterSequence < I64_LIMIT
    ensures afterSequence >= I64_LIMIT ==> Scan(full, AsI64(afterSequence)) == full && Scan(full, afterSequence) == []
  {
    if afterSequence >= I64_LIMIT {
      ScanAt(full, AsI64(afterSequence), 0);
      ScanAt(full, afterSequence, |full|);
    }
  }
}
