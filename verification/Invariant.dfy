/** The inductive invariant of the step system. It is split in the rely/guarantee way: `Core`
    speaks of stored and external state, `ActorOk` of one in-memory actor, and `Evolves` is the
    guarantee of every step, under which the other actors stay `ActorOk`. */
module Invariant {
  import opened Primitives
  import opened Amounts
  import opened Outbox
  import opened Commits
  import opened Protocol
  import P = Payments
  import I = Invoices

  // ---- Stored and external state ----

  /** The log of an LN payment; an intraledger payment has a zero fee cap. */
  predicate LnLog(log: seq<P.PaymentEvent>) {
    |log| >= 1 && log[0].WasInitiated? && log[0].maxFee > 0
  }

  predicate IntraledgerLog(log: seq<P.PaymentEvent>) {
    |log| == 2 && log[0].WasInitiated? && log[0].maxFee == 0 && log[1].WasCompleted?
  }

  function Last<T>(s: seq<T>): T
    requires s != []
  {
    s[|s| - 1]
  }

  /** The outbox rows a payment log must have published, in order. */
  function PayBodies(log: seq<P.PaymentEvent>): seq<Body> {
    if !LnLog(log) then [] else
      [PaymentInitiated(Sats(log[0].amount), log[0].maxFee)] + TerminalBody(log)
  }

  function TerminalBody(log: seq<P.PaymentEvent>): seq<Body>
    requires LnLog(log)
  {
    match Last(log)
    case WasCompleted(_, preimage, fees) => [PaymentCompleted(Sats(log[0].amount), preimage, fees)]
    case WasFailed(_, reason) => [PaymentFailed(Sats(log[0].amount), reason)]
    case _ => []
  }

  predicate PayCore(hash: Hash, pay: seq<P.PaymentEvent>, rows: seq<Row>) {
    && (pay != [] ==>
          && P.Grammar(pay) && !Last(pay).WasReversed? && pay[0].hash == hash
          && EncodeBigint(pay[0].amount).Some?
          && (LnLog(pay) || IntraledgerLog(pay)))
    && (LnLog(pay) ==> pay[0].amount % 1000 == 0 && pay[0].maxFee == MaxFor(pay[0].amount))
    && Bodies(PayRows(rows)) == PayBodies(pay)
    && Ascending(PayRows(rows))
  }

  predicate HistoryCore(pay: seq<P.PaymentEvent>, owner: Option<nat>, holds: seq<Hold>, sends: nat) {
    && (owner.Some? <==> LnLog(pay))
    && (owner.None? ==> holds == [])
    && |holds| <= 1
    && sends <= |holds|
    && (holds != [] ==> LnLog(pay) && holds[0].sats == HoldSat(pay[0].amount, pay[0].maxFee))
    && (sends > 0 ==> holds[0].reply.Approved?)
  }

  predicate FailedAtLnd(c: Shared) {
    c.lndPay.LndFailed? && c.sends == 1
  }

  predicate Finished(log: seq<P.PaymentEvent>) {
    log != [] && (Last(log).WasCompleted? || Last(log).WasFailed?)
  }

  /** What LND says about this hash need not be about this gateway's own, answered call. */
  predicate Exposed(c: Shared) {
    c.answerBad || c.foreign
  }

  predicate LndPayCore(
    pay: seq<P.PaymentEvent>, lndPay: LndPayment, sends: nat, taken: bool, answerBad: bool, foreign: bool)
  {
    && (LnLog(pay) && Last(pay).WasCompleted? ==> lndPay == Succeeded(Last(pay).preimage, Last(pay).fees))
    && (sends == 0 ==> !taken && !answerBad)
    && (!foreign ==> (taken <==> !lndPay.Unknown?))
    && (!answerBad && !foreign && LnLog(pay) && Last(pay).WasFailed? ==>
          sends == 0 || (lndPay.LndFailed? && sends == 1))
  }

  predicate PastAccepted(l: LndInvoice) {
    l.Accepted? || l.LndSettled? || l.LndCanceled?
  }

  /** The receive-side rows an invoice log must have published; the paid amount is LND's. */
  function RecvBodies(inv: seq<I.InvoiceEvent>, lndInv: LndInvoice, pay: seq<P.PaymentEvent>): seq<Body> {
    if |inv| <= 1 || !I.Grammar(inv) || !PastAccepted(lndInv) then [] else
      match inv[1]
      case WasSettledIntraledger(_) =>
        if !IntraledgerLog(pay) then [] else
          [IntraledgerCompleted(Sats(pay[0].amount), pay[0].wallet, inv[0].wallet, pay[0].amount)]
      case WasCanceled(_, _) => [InvoiceCanceled(Sats(lndInv.amt), lndInv.amt, None)]
      case WasHeld(_, parked) =>
        [HtlcHeld(Sats(parked), parked)] +
        (if |inv| == 2 then []
         else if inv[2].WasSettled? then [InvoiceSettled(Sats(lndInv.amt), lndInv.amt, parked)]
         else [InvoiceCanceled(Sats(lndInv.amt), lndInv.amt, Some(parked))])
      case _ => []
  }

  predicate RecvCore(inv: seq<I.InvoiceEvent>, lndInv: LndInvoice, pay: seq<P.PaymentEvent>, rows: seq<Row>) {
    Bodies(RecvRows(rows)) == RecvBodies(inv, lndInv, pay) && Ascending(RecvRows(rows))
  }

  predicate IntraledgerCore(pay: seq<P.PaymentEvent>, inv: seq<I.InvoiceEvent>, transfers: seq<Hold>) {
    && (IntraledgerLog(pay) <==> (|inv| == 2 && inv[1].WasSettledIntraledger?))
    && (IntraledgerLog(pay) ==>
          && inv[0].WasCreated?
          && pay[0].wallet != inv[0].wallet
          && pay[1].preimage == inv[0].preimage && pay[1].fees == 0
          && Hold(WholeSat(pay[0].amount), Approved) in transfers
          && (inv[0].amount.Some? ==> pay[0].amount == RoundUpToSat(inv[0].amount.value)))
    && (forall t :: t in transfers ==>
          && inv != [] && inv[0].WasCreated?
          && (inv[0].amount.Some? ==> t.sats == WholeSat(RoundUpToSat(inv[0].amount.value))))
  }

  /** The stored invoice never contradicts LND. */
  predicate LndInvCore(hash: Hash, inv: seq<I.InvoiceEvent>, lndInv: LndInvoice, settleCalls: nat) {
    && (inv != [] ==> I.Grammar(inv) && inv[0].hash == hash && !lndInv.Absent?)
    && (|inv| > 1 ==>
          && PastAccepted(lndInv)
          && (Last(inv).WasSettled? ==> lndInv.LndSettled?)
          && (Last(inv).WasCanceled? || Last(inv).WasSettledIntraledger? ==> lndInv.LndCanceled?))
    && (settleCalls > 0 ==> |inv| > 1 && inv[1].WasHeld?)
  }

  predicate RowsCore(hash: Hash, rows: seq<Row>, nextSeq: int) {
    && 0 < nextSeq && AllBelow(rows, nextSeq)
    && forall k :: 0 <= k < |rows| ==> rows[k].hash == hash && 0 < rows[k].sequence
  }

  predicate Core(s: Shared) {
    && PayCore(s.hash, s.pay, s.rows)
    && HistoryCore(s.pay, s.owner, s.holds, s.sends)
    && LndPayCore(s.pay, s.lndPay, s.sends, s.taken, s.answerBad, s.foreign)
    && LndInvCore(s.hash, s.inv, s.lndInv, s.settleCalls)
    && IntraledgerCore(s.pay, s.inv, s.transfers)
    && RecvCore(s.inv, s.lndInv, s.pay, s.rows)
    && RowsCore(s.hash, s.rows, s.nextSeq)
  }

  // ---- One actor ----

  /** The in-memory payment is a hydrated copy of a prefix of the stored log. */
  predicate PayCopy(c: Shared, p: P.PaymentView) {
    P.Consistent(p) && p.events <= c.pay && LnLog(p.events)
  }

  /** The request that created the row, before or while LND is called. */
  predicate IsOwner(c: Shared, id: nat, p: P.PaymentView) {
    PayCopy(c, p) && |p.events| == 1 && c.owner == Some(id)
  }

  /** A commit that would still succeed comes after every row of its side. */
  predicate PayTicketOk(c: Shared, loaded: nat, ticket: Option<int>) {
    ticket.Some? ==> 0 < ticket.value < c.nextSeq && (|c.pay| == loaded ==> AllBelow(PayRows(c.rows), ticket.value))
  }

  predicate InvTicketOk(c: Shared, loaded: nat, ticket: Option<int>) {
    ticket.Some? ==> 0 < ticket.value < c.nextSeq && (|c.inv| == loaded ==> AllBelow(RecvRows(c.rows), ticket.value))
  }

  predicate PayWriteOk(c: Shared, id: nat, p: P.PaymentView, w: PayWrite) {
    var log := p.events + w.push;
    && Unfinished(p.events)
    && w.push != []
    && P.Grammar(log) && !Last(log).WasReversed?
    && PayBodies(log) == PayBodies(p.events) + (if w.body.Some? then [w.body.value] else [])
    && (w.body.Some? ==> IsPaymentSide(w.body.value))
    && (Last(log).WasCompleted? ==> c.lndPay == Succeeded(Last(log).preimage, Last(log).fees))
    && (!Exposed(c) ==> c.sends > 0 || c.owner == Some(id))
    && (Last(log).WasFailed? && !Exposed(c) ==> FailedAtLnd(c) || (c.owner == Some(id) && c.sends == 0))
  }

  predicate PayReportOk(c: Shared, report: LndPayment) {
    && (report.Succeeded? ==> c.lndPay == report)
    && (report.LndFailed? && !Exposed(c) ==> FailedAtLnd(c))
  }

  predicate InvCopy(c: Shared, i: I.InvoiceView) {
    I.Consistent(i) && i.events <= c.inv
  }

  predicate TransferOk(c: Shared, i: I.InvoiceView, np: P.NewPayment) {
    && InvCopy(c, i) && |i.events| == 1
    && np.hash == c.hash && np.wallet != i.header.wallet && np.maxFee == 0
    && (i.header.amount.Some? ==> np.amount == RoundUpToSat(i.header.amount.value))
  }

  predicate InvWriteOk(c: Shared, i: I.InvoiceView, w: InvWrite) {
    && |w.push| == 1
    && (match w.push[0]
        case WasHeld(_, parked) =>
          |i.events| == 1 && PastAccepted(c.lndInv) && w.body == HtlcHeld(Sats(parked), parked)
        case WasSettled(_) =>
          && |i.events| == 2 && i.events[1].WasHeld? && c.lndInv.LndSettled?
          && w.body == InvoiceSettled(Sats(c.lndInv.amt), c.lndInv.amt, i.events[1].parked)
        case WasCanceled(_, _) =>
          && (|i.events| == 1 || (|i.events| == 2 && i.events[1].WasHeld?)) && c.lndInv.LndCanceled?
          && w.body == InvoiceCanceled(Sats(c.lndInv.amt), c.lndInv.amt, ParkedBefore(i.events))
        case _ => false)
  }

  predicate InvReportOk(c: Shared, report: LndInvoice) {
    && (report.Accepted? ==> PastAccepted(c.lndInv))
    && (report.LndCanceled? ==> c.lndInv == report)
  }

  predicate HeldCopy(c: Shared, i: I.InvoiceView) {
    InvCopy(c, i) && |i.events| == 2 && i.events[1].WasHeld?
  }

  predicate ActorOk(c: Shared, id: nat, a: Actor) {
    match a
    case Request(_, decoded) => decoded.hash == c.hash && (decoded.amount.Some? ==> decoded.amount.value % 1000 == 0)
    case Creating(np, ticket) =>
      && np.hash == c.hash && np.amount % 1000 == 0 && np.maxFee == MaxFor(np.amount) && np.maxFee > 0
      && (ticket.Some? ==> 0 < ticket.value < c.nextSeq)
    case Created(p) => IsOwner(c, id, p) && c.holds == [] && (!Exposed(c) ==> |c.pay| == 1)
    case Holding(p) =>
      && IsOwner(c, id, p) && |c.holds| == 1 && c.holds[0].reply.Approved? && c.sends == 0
      && (!Exposed(c) ==> |c.pay| == 1)
    case Sending(p) => IsOwner(c, id, p) && c.sends == 1
    case PayTx(p, w, ticket) => PayCopy(c, p) && PayWriteOk(c, id, p, w) && PayTicketOk(c, |p.events|, ticket)
    case PayUpdate(report, _) => PayReportOk(c, report)
    case OrphanLoad => true
    case OrphanLookup(p) => PayCopy(c, p) && |p.events| == 1
    case TransferAuthorize(i, np) => TransferOk(c, i, np)
    case TransferCancel(i, np) => TransferOk(c, i, np) && Hold(WholeSat(np.amount), Approved) in c.transfers
    case TransferTx(i, np, ticket) =>
      && TransferOk(c, i, np) && Hold(WholeSat(np.amount), Approved) in c.transfers
      && c.lndInv.LndCanceled? && InvTicketOk(c, |i.events|, ticket)
    case InvUpdate(report) => InvReportOk(c, report)
    case InvTx(i, w, _, ticket) => InvCopy(c, i) && InvWriteOk(c, i, w) && InvTicketOk(c, |i.events|, ticket)
    case HoldLoad => true
    case HoldLookup(i) => HeldCopy(c, i)
    case HoldSettle(i, amt) =>
      && HeldCopy(c, i) && PastAccepted(c.lndInv)
      && (c.lndInv.Accepted? || c.lndInv.LndSettled? ==> c.lndInv.amt == amt)
  }

  ghost predicate Inv(c: Cell) {
    Core(c.s) && forall id :: id in c.actors ==> ActorOk(c.s, id, c.actors[id])
  }

  // ---- The guarantee ----

  /** LND's invoice only moves forward, and an amount once accepted stays. */
  predicate LndInvLe(a: LndInvoice, b: LndInvoice) {
    match a
    case Absent => true
    case LndOpen => !b.Absent?
    case Accepted(amt) => b == a || b == LndSettled(amt) || b.LndCanceled?
    case _ => b == a
  }

  /** What any step may do to the state that other actors rely on; `mover` took it. */
  ghost predicate Evolves(c: Shared, d: Shared, mover: Option<nat>) {
    && d.hash == c.hash
    && c.pay <= d.pay && c.inv <= d.inv && c.rows <= d.rows && c.nextSeq <= d.nextSeq
    && (PayRows(c.rows) == PayRows(d.rows) || |c.pay| < |d.pay|)
    && (RecvRows(c.rows) == RecvRows(d.rows) || |c.inv| < |d.inv|)
    && (c.owner.Some? ==> d.owner == c.owner)
    && (c.owner.Some? && c.owner != mover ==> d.holds == c.holds && d.sends == c.sends)
    && c.sends <= d.sends && (Exposed(c) ==> Exposed(d))
    && (c.lndPay.Succeeded? ==> d.lndPay == c.lndPay)
    && (FailedAtLnd(c) && !Exposed(d) ==> FailedAtLnd(d))
    && (|c.pay| < |d.pay| && !Exposed(d) && LnLog(c.pay) ==> d.sends > 0 || d.owner == mover)
    && LndInvLe(c.lndInv, d.lndInv)
    && (forall t :: t in c.transfers ==> t in d.transfers)
  }

  lemma PrefixOfPrefix<T>(a: seq<T>, b: seq<T>, c: seq<T>)
    requires a <= b <= c
    ensures a <= c
  {
    assert c[..|a|] == b[..|a|];
  }

  /** Stability: an actor that did not move keeps its assertion. */
  lemma OthersStayOk(c: Shared, d: Shared, mover: Option<nat>, id: nat, a: Actor)
    requires Core(c) && ActorOk(c, id, a) && Evolves(c, d, mover) && mover != Some(id)
    ensures ActorOk(d, id, a)
  {
    hide PayCore, LndInvCore, IntraledgerCore, RecvCore, RowsCore, LndPayCore, P.Consistent, I.Consistent, P.Grammar,
      MaxFor, WholeSat, RoundUpToSat, PayBodies, PayRows, RecvRows, AllBelow;
    if a.Created? || a.Holding? || a.Sending? || a.PayTx? || a.OrphanLookup? {
      PrefixOfPrefix(a.p.events, c.pay, d.pay);
    }
    if a.TransferAuthorize? || a.TransferCancel? || a.TransferTx? || a.InvTx? || a.HoldLookup? || a.HoldSettle? {
      PrefixOfPrefix(a.i.events, c.inv, d.inv);
    }
    if (a.Created? || a.Holding?) && !Exposed(d) {
      assert |d.pay| == 1;
    }
  }
}
