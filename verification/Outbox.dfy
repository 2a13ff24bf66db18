/** Rows of the `outbox_events` table. A row's body keeps the typed domain event with the part
    of `gateway_metadata` that carries money. */
module Outbox {
  import opened Primitives
  import opened Amounts

  datatype FailureReason =
    | Timeout
    | NoRoute
    | InsufficientBalance
    | IncorrectPaymentDetails
    | Other(detail: string)

  datatype Body =
    | PaymentInitiated(sats: I64, maxFee: U64)
    | PaymentCompleted(sats: I64, preimage: Preimage, fees: U64)
    | PaymentFailed(sats: I64, reason: FailureReason)
    | HtlcHeld(sats: I64, paid: U64)
    | InvoiceSettled(sats: I64, paid: U64, held: U64)
    | InvoiceCanceled(sats: I64, paid: U64, heldBefore: Option<U64>)
    | IntraledgerCompleted(sats: I64, sender: Wallet, recipient: Wallet, amount: U64)

  datatype Row = Row(sequence: int, hash: Hash, body: Body)

  /** Rows describing the outgoing LN payment of a hash. */
  predicate IsPaymentSide(b: Body) {
    b.PaymentInitiated? || b.PaymentCompleted? || b.PaymentFailed?
  }

  /** The two sides of one hash, each in commit order. */
  function PayRows(rows: seq<Row>): seq<Row> {
    if rows == [] then [] else
      var rest := PayRows(rows[..|rows| - 1]);
      var last := rows[|rows| - 1];
      if IsPaymentSide(last.body) then rest + [last] else rest
  }

  function RecvRows(rows: seq<Row>): seq<Row> {
    if rows == [] then [] else
      var rest := RecvRows(rows[..|rows| - 1]);
      var last := rows[|rows| - 1];
      if IsPaymentSide(last.body) then rest else rest + [last]
  }

  function Bodies(rows: seq<Row>): seq<Body> {
    seq(|rows|, i requires 0 <= i < |rows| => rows[i].body)
  }

  predicate Ascending(rows: seq<Row>) {
    forall i, j :: 0 <= i < j < |rows| ==> rows[i].sequence < rows[j].sequence
  }

  predicate AllBelow(rows: seq<Row>, bound: int) {
    forall i :: 0 <= i < |rows| ==> rows[i].sequence < bound
  }

  lemma SidesOfAppend(rows: seq<Row>, r: Row)
    ensures PayRows(rows + [r]) == if IsPaymentSide(r.body) then PayRows(rows) + [r] else PayRows(rows)
    ensures RecvRows(rows + [r]) == if IsPaymentSide(r.body) then RecvRows(rows) else RecvRows(rows) + [r]
  {
    assert (rows + [r])[..|rows|] == rows;
  }

  lemma {:induction false} SidesBelow(rows: seq<Row>, bound: int)
    requires AllBelow(rows, bound)
    ensures AllBelow(PayRows(rows), bound) && AllBelow(RecvRows(rows), bound)
  {
    if rows != [] {
      SidesBelow(rows[..|rows| - 1], bound);
    }
  }

  /** The rows of one hash, as the shared table holds them. */
  function OfHash(rows: seq<Row>, h: Hash): seq<Row> {
    if rows == [] then [] else
      var rest := OfHash(rows[..|rows| - 1], h);
      if rows[|rows| - 1].hash == h then rest + [rows[|rows| - 1]] else rest
  }

  lemma {:induction false} OfHashAppend(a: seq<Row>, b: seq<Row>, h: Hash, owner: Hash)
    requires forall k :: 0 <= k < |b| ==> b[k].hash == owner
    ensures OfHash(a + b, h) == if h == owner then OfHash(a, h) + b else OfHash(a, h)
    decreases |b|
  {
    if b == [] {
      assert a + b == a;
    } else {
      var front := b[..|b| - 1];
      assert (a + b)[..|a + b| - 1] == a + front;
      OfHashAppend(a, front, h, owner);
      assert front + [b[|b| - 1]] == b;
    }
  }

  // ---- Sorted rows ----

  ghost predicate SameRows(a: seq<Row>, b: seq<Row>) {
    forall r :: r in a <==> r in b
  }

  lemma SameRowsNonempty(a: seq<Row>, b: seq<Row>)
    requires SameRows(a, b) && a != []
    ensures b != []
  {
    assert a[0] in b;
  }

  lemma SameRowsShorten(a: seq<Row>, b: seq<Row>)
    requires Ascending(a) && Ascending(b) && SameRows(a, b) && a != [] && b != []
    ensures a[|a| - 1] == b[|b| - 1] && SameRows(a[..|a| - 1], b[..|b| - 1])
  {
    LastIsHighest(a);
    LastIsHighest(b);
    hide Ascending;
    var x, y := a[|a| - 1], b[|b| - 1];
    assert x in b && y in a;
    LastAndFront(a);
    LastAndFront(b);
    var a1, b1 := a[..|a| - 1], b[..|b| - 1];
    forall r
      ensures r in a1 <==> r in b1
    {
      assert r in a <==> r in b;
    }
  }

  lemma LastAndFront(a: seq<Row>)
    requires a != []
    ensures forall r :: r in a <==> r in a[..|a| - 1] || r == a[|a| - 1]
  {
    assert a == a[..|a| - 1] + [a[|a| - 1]];
  }

  /** Sorted rows are determined by which rows they are. */
  lemma {:induction false} AscendingUnique(a: seq<Row>, b: seq<Row>)
    requires Ascending(a) && Ascending(b) && SameRows(a, b)
    ensures a == b
    decreases |a|
  {
    hide SameRows;
    if a != [] {
      SameRowsNonempty(a, b);
      SameRowsShorten(a, b);
      AscendingUnique(a[..|a| - 1], b[..|b| - 1]);
      assert a == a[..|a| - 1] + [a[|a| - 1]] && b == b[..|b| - 1] + [b[|b| - 1]];
    } else if b != [] {
      SameRowsSwap(a, b);
      SameRowsNonempty(b, a);
    }
  }

  lemma SameRowsSwap(a: seq<Row>, b: seq<Row>)
    requires SameRows(a, b)
    ensures SameRows(b, a)
  {
  }

  lemma LastIsHighest(a: seq<Row>)
    requires Ascending(a) && a != []
    ensures forall r :: r in a ==> r.sequence <= a[|a| - 1].sequence
    ensures forall r :: r in a && r.sequence == a[|a| - 1].sequence ==> r == a[|a| - 1]
    ensures forall r :: r in a[..|a| - 1] ==> r.sequence < a[|a| - 1].sequence
  {
  }
}
