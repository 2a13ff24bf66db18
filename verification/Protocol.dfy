/** Everything that can happen to one payment hash, as a step system: stored logs, outbox rows,
    LND, and any number of in-memory actors holding possibly stale entities.

    One `Advance` is one await of one actor. A transaction is two steps: `Draw` takes the outbox
    sequence number (BIGSERIAL hands it out before the commit and never takes it back), and the
    commit itself succeeds only if the stored log still has the loaded length, which is what the
    primary key (id, sequence) enforces; it then appends events and row together. `Drop` is an
    actor that ends early for any reason (an error, a timeout, a closed client), `Crash` loses all
    of them. Handlers are not assumed to be serialized. */
module Protocol {
  import opened Primitives
  import opened Amounts
  import opened Outbox
  import opened Commits
  import P = Payments
  import I = Invoices

  // ---- LND, as it stands for this hash ----

  datatype LndPayment = Unknown | InFlight | Succeeded(preimage: Preimage, fees: U64) | LndFailed(reason: FailureReason)

  datatype LndInvoice = Absent | LndOpen | Accepted(amt: U64) | LndSettled(amt: U64) | LndCanceled(amt: U64)

  // ---- In-memory actors ----

  datatype Actor =
    // send_payment
    | Request(wallet: Wallet, decoded: P.DecodedInvoice)
    | Creating(np: P.NewPayment, ticket: Option<int>)
    | Created(p: P.PaymentView)
    | Holding(p: P.PaymentView)
    | Sending(p: P.PaymentView)
    // commit_completed, commit_failed, transition_to_pending
    | PayTx(p: P.PaymentView, payWrite: PayWrite, ticket: Option<int>)
    // handle_payment_update
    | PayUpdate(payReport: LndPayment, hasPreimage: bool)
    // reconcile_orphan_hold
    | OrphanLoad
    | OrphanLookup(p: P.PaymentView)
    // send_intraledger_payment
    | TransferAuthorize(i: I.InvoiceView, np: P.NewPayment)
    | TransferCancel(i: I.InvoiceView, np: P.NewPayment)
    | TransferTx(i: I.InvoiceView, np: P.NewPayment, ticket: Option<int>)
    // handle_invoice_update
    | InvUpdate(invReport: LndInvoice)
    // commit_settle, commit_cancel, transition_to_held
    | InvTx(i: I.InvoiceView, invWrite: InvWrite, thenSettle: bool, ticket: Option<int>)
    // settle_hold_invoice and reconcile_held_invoice, which branch alike
    | HoldLoad
    | HoldLookup(i: I.InvoiceView)
    | HoldSettle(i: I.InvoiceView, amt: U64)

  datatype AuthReply = Approved | Declined(declineReason: FailureReason) | AuthError(detail: string)

  /** One AuthorizeSpend call and how it was answered. */
  datatype Hold = Hold(sats: U64, reply: AuthReply)

  /** What is stored, what LND holds, and what has been done to the outside world. */
  datatype Shared = Shared(
    hash: Hash,
    pay: seq<P.PaymentEvent>,
    inv: seq<I.InvoiceEvent>,
    rows: seq<Row>,
    nextSeq: int,
    lndPay: LndPayment,
    lndInv: LndInvoice,
    // History that no actor reads.
    owner: Option<nat>,
    holds: seq<Hold>,
    sends: nat,
    transfers: seq<Hold>,
    settleCalls: nat,
    // LND took the send call; its answer errored or echoed another hash; another client of LND
    // paid this hash.
    taken: bool,
    answerBad: bool,
    foreign: bool)

  datatype Cell = Cell(s: Shared, actors: map<nat, Actor>)

  function Init(hash: Hash): Cell {
    Cell(Shared(hash, [], [], [], 1, Unknown, Absent, None, [], 0, [], 0, false, false, false), map[])
  }

  // ---- Steps ----

  datatype SendReply = SendError(reason: FailureReason) | WrongHash(got: Hash) | FirstMessage | InFlightMessage

  /** The environment's answers at one await. */
  datatype Env = Env(
    now: Timestamp, auth: AuthReply, taken: bool, reply: SendReply, ok: bool, hasPreimage: bool, amt: U64)

  datatype Step =
    | AddHoldInvoice
    | CreateInvoice(preimage: Preimage, wallet: Wallet, amount: Option<U64>, expiryAt: Timestamp)
    | HtlcArrives(amt: U64)
    | InvoiceExpires(amt: U64)
    | OperatorSettles
    | PaymentResolves(outcome: LndPayment)
    | ForeignSend
    | OtherDraws(count: nat)
    | Crash
    | Drop(id: nat)
    | SendRequest(id: nat, sender: Wallet, invoiceMsat: Option<U64>, bolt: string)
    | PaymentReported(id: nat, hasPreimage: bool)
    | OrphanListed(id: nat)
    | InvoiceReported(id: nat)
    | HeldListed(id: nat)
    | Draw(id: nat)
    | Advance(id: nat, env: Env)

  /** The shared state after an actor's step, and the actor's next stage if it has one. */
  datatype After = After(s: Shared, next: Option<Actor>)

  function Goto(s: Shared, a: Actor): After { After(s, Some(a)) }

  function End(s: Shared): After { After(s, None) }

  function Replace(actors: map<nat, Actor>, id: nat, next: Option<Actor>): map<nat, Actor> {
    if next.None? then actors - {id} else actors[id := next.value]
  }

  function Do(c: Cell, s: Step): Cell {
    match s
    case Crash => Cell(c.s, map[])
    case Drop(id) => Cell(c.s, c.actors - {id})
    case SendRequest(_, _, _, _) => Begin(c, s.id, s)
    case PaymentReported(_, _) => Begin(c, s.id, s)
    case OrphanListed(_) => Begin(c, s.id, s)
    case InvoiceReported(_) => Begin(c, s.id, s)
    case HeldListed(_) => Begin(c, s.id, s)
    case Draw(id) =>
      if id !in c.actors then c else
        var r := DrawTicket(c.s, c.actors[id]);
        Cell(r.s, Replace(c.actors, id, r.next))
    case Advance(id, env) =>
      if id !in c.actors then c else
        var r := Move(c.s, id, c.actors[id], env);
        Cell(r.s, Replace(c.actors, id, r.next))
    case _ => Cell(Surroundings(c.s, s), c.actors)
  }

  /** Steps of LND, of other gateway traffic, and of invoice creation. */
  function Surroundings(s: Shared, step: Step): Shared {
    match step
    case AddHoldInvoice => if s.lndInv.Absent? then s.(lndInv := LndOpen) else s
    case CreateInvoice(preimage, wallet, amount, expiryAt) =>
      if s.inv == [] && !s.lndInv.Absent? && amount != Some(0)
      then s.(inv := [I.WasCreated(s.hash, preimage, wallet, amount, expiryAt)]) else s
    case HtlcArrives(amt) => if s.lndInv.LndOpen? then s.(lndInv := Accepted(amt)) else s
    case InvoiceExpires(amt) =>
      if s.lndInv.LndOpen? || s.lndInv.Accepted? then s.(lndInv := LndCanceled(amt)) else s
    case OperatorSettles => if s.lndInv.Accepted? then s.(lndInv := LndSettled(s.lndInv.amt)) else s
    case PaymentResolves(outcome) =>
      if s.lndPay.InFlight? && (outcome.Succeeded? || outcome.LndFailed?) then s.(lndPay := outcome) else s
    case ForeignSend =>
      if s.lndPay.Unknown? || s.lndPay.LndFailed? then s.(lndPay := InFlight, foreign := true) else s
    case OtherDraws(count) => s.(nextSeq := s.nextSeq + count)
    case _ => s
  }

  /** The first stage of a new actor. Reports carry what LND says at that moment and may be
      delivered any number of times and handled arbitrarily late. */
  function FirstStage(s: Shared, step: Step): Option<Actor> {
    match step
    case SendRequest(_, sender, invoiceMsat, bolt) =>
      if invoiceMsat.Some? && invoiceMsat.value > ROUNDABLE_MAX then None
      else Some(Request(sender, P.Decode(s.hash, invoiceMsat, bolt)))
    case PaymentReported(_, hasPreimage) => if s.lndPay.Unknown? then None else Some(PayUpdate(s.lndPay, hasPreimage))
    case OrphanListed(_) => Some(OrphanLoad)
    case InvoiceReported(_) => if s.lndInv.Absent? then None else Some(InvUpdate(s.lndInv))
    case HeldListed(_) => Some(HoldLoad)
    case _ => None
  }

  function Begin(c: Cell, id: nat, step: Step): Cell {
    var a := FirstStage(c.s, step);
    if id in c.actors || a.None? then c else Cell(c.s, c.actors[id := a.value])
  }

  function DrawTicket(s: Shared, a: Actor): After {
    if (a.Creating? || a.PayTx? || a.TransferTx? || a.InvTx?) && a.ticket.None?
    then Goto(s.(nextSeq := s.nextSeq + 1), a.(ticket := Some(s.nextSeq)))
    else Goto(s, a)
  }

  function Move(s: Shared, id: nat, a: Actor, env: Env): After {
    match a
    case Request(wallet, decoded) => Route(s, wallet, decoded, env)
    case Creating(_, _) => Create(s, id, a)
    case Created(p) => Authorize(s, p, env)
    case Holding(p) => CallLnd(s, p, env)
    case Sending(p) => HearLnd(s, p, env)
    case PayTx(_, _, _) => CommitPay(s, a)
    case PayUpdate(report, hasPreimage) => HandlePayUpdate(s, report, hasPreimage, env)
    case OrphanLoad => LoadOrphan(s)
    case OrphanLookup(p) => LookupOrphan(s, p, env)
    case TransferAuthorize(i, np) => AuthorizeTransfer(s, i, np, env)
    case TransferCancel(i, np) => CancelForTransfer(s, i, np, env)
    case TransferTx(_, _, _) => CommitTransfer(s, a, env)
    case InvUpdate(report) => HandleInvUpdate(s, report, env)
    case InvTx(_, _, _, _) => CommitInv(s, a)
    case HoldLoad => LoadHeld(s)
    case HoldLookup(i) => LookupHeld(s, i, env)
    case HoldSettle(i, amt) => SettleAtLnd(s, i, amt, env)
  }

  // ---- send_payment, LN path ----

  /** Lookup of a local invoice for the hash; its presence selects the intraledger rail. */
  function Route(s: Shared, wallet: Wallet, decoded: P.DecodedInvoice, env: Env): After {
    if s.inv == [] then
      if decoded.amount.None? then End(s) else
        match P.TryNew(decoded, wallet, None, MaxFor(decoded.amount.value), env.now)
        case Ok(np) => Goto(s, Creating(np, None))
        case Err(_) => End(s)
    else
      match I.Hydrate(s.inv)
      case None => End(s)
      case Some(v) =>
        if v.header.wallet == wallet || v.state != I.Open || env.now >= v.header.expiryAt then End(s) else
          match P.TryNewIntraledger(decoded, CommittedAmount(v.header.amount), wallet, env.now)
          case Ok(np) => Goto(s, TransferAuthorize(v, np))
          case Err(_) => End(s)
  }

  function CommittedAmount(amount: Option<U64>): Option<U64> {
    if amount.None? then None else Some(RoundUpToSat(amount.value))
  }

  function Create(s: Shared, id: nat, a: Actor): After
    requires a.Creating?
  {
    var Creating(np, ticket) := a;
    if ticket.None? then Goto(s, a)
    else if s.pay != [] || EncodeBigint(np.amount).None? || EncodeBigint(np.maxFee).None? then End(s)
    else
      var log := P.IntoEvents(np);
      match P.Hydrate(log)
      case None => End(s)
      case Some(v) =>
        Goto(s.(pay := log,
                rows := s.rows + [Row(ticket.value, s.hash, PaymentInitiated(Sats(np.amount), np.maxFee))],
                owner := Some(id)),
             Created(v))
  }

  function StartPay(s: Shared, p: P.PaymentView, w: Option<PayWrite>): After {
    if w.None? then End(s) else Goto(s, PayTx(p, w.value, None))
  }

  function Authorize(s: Shared, p: P.PaymentView, env: Env): After {
    var s1 := s.(holds := s.holds + [Hold(HoldSat(p.header.amount, p.header.maxFee), env.auth)]);
    match env.auth
    case Approved => Goto(s1, Holding(p))
    case Declined(reason) => StartPay(s1, p, FailInline(p, reason, env.now))
    case AuthError(detail) => StartPay(s1, p, FailInline(p, Other(detail), env.now))
  }

  /** The call reaches LND (`taken`) or is refused; LND restarts a payment that failed before. */
  function CallLnd(s: Shared, p: P.PaymentView, env: Env): After {
    var lnd := if env.taken && (s.lndPay.Unknown? || s.lndPay.LndFailed?) then InFlight else s.lndPay;
    Goto(s.(sends := s.sends + 1, taken := s.taken || env.taken, lndPay := lnd), Sending(p))
  }

  function HearLnd(s: Shared, p: P.PaymentView, env: Env): After {
    match env.reply
    case SendError(reason) => StartPay(s.(answerBad := true), p, FailInline(p, reason, env.now))
    case WrongHash(_) =>
      StartPay(s.(answerBad := true), p, FailInline(p, Other("LND payment_hash mismatch"), env.now))
    case InFlightMessage =>
      // The first message said in flight; LND may have moved on since.
      if s.lndPay.Unknown? then Goto(s, Sending(p)) else StartPay(s, p, CommitPending(p, env.now))
    case FirstMessage =>
      match s.lndPay
      case Unknown => Goto(s, Sending(p))
      case InFlight => StartPay(s, p, CommitPending(p, env.now))
      case Succeeded(preimage, fees) =>
        if env.hasPreimage then StartPay(s, p, SettleInline(p, preimage, fees, env.now)) else End(s)
      case LndFailed(reason) => StartPay(s, p, FailInline(p, reason, env.now))
  }

  function CommitPay(s: Shared, a: Actor): After
    requires a.PayTx?
  {
    var PayTx(p, w, ticket) := a;
    if w.body.Some? && ticket.None? then Goto(s, a)
    else if |s.pay| != |p.events| then End(s)
    else
      var rows := if w.body.Some? then s.rows + [Row(ticket.value, s.hash, w.body.value)] else s.rows;
      End(s.(pay := s.pay + w.push, rows := rows))
  }

  // ---- handle_payment_update, reconcile_orphan_hold ----

  function ApplyOutcome(s: Shared, v: P.PaymentView, report: LndPayment, hasPreimage: bool, now: Timestamp): After {
    match report
    case Unknown => End(s)
    case InFlight => End(s)
    case Succeeded(preimage, fees) =>
      if hasPreimage then StartPay(s, v, CommitCompleted(v, |v.events|, preimage, fees, now)) else End(s)
    case LndFailed(reason) => StartPay(s, v, CommitFailed(v, |v.events|, reason, now))
  }

  function HandlePayUpdate(s: Shared, report: LndPayment, hasPreimage: bool, env: Env): After {
    match P.Hydrate(s.pay)
    case None => End(s)
    case Some(v) => ApplyOutcome(s, v, report, hasPreimage, env.now)
  }

  function LoadOrphan(s: Shared): After {
    match P.Hydrate(s.pay)
    case None => End(s)
    case Some(v) => if v.state != P.Initiated then End(s) else Goto(s, OrphanLookup(v))
  }

  /** Not `ok` covers NotFound, an RPC error and the lookup timeout: the row is left alone. */
  function LookupOrphan(s: Shared, p: P.PaymentView, env: Env): After {
    if !env.ok then End(s) else ApplyOutcome(s, p, s.lndPay, env.hasPreimage, env.now)
  }

  // ---- send_intraledger_payment ----

  function AuthorizeTransfer(s: Shared, i: I.InvoiceView, np: P.NewPayment, env: Env): After {
    var s1 := s.(transfers := s.transfers + [Hold(WholeSat(np.amount), env.auth)]);
    if env.auth.Approved? then Goto(s1, TransferCancel(i, np)) else End(s1)
  }

  function CancelForTransfer(s: Shared, i: I.InvoiceView, np: P.NewPayment, env: Env): After {
    match s.lndInv
    case Absent => End(s)
    case LndSettled(_) => End(s)
    case LndCanceled(_) => if env.ok then Goto(s, TransferTx(i, np, None)) else End(s)
    case _ =>
      var s1 := s.(lndInv := LndCanceled(env.amt));
      if env.ok then Goto(s1, TransferTx(i, np, None)) else End(s1)
  }

  /** One transaction: completed payment, settled invoice, reporting row. */
  function CommitTransfer(s: Shared, a: Actor, env: Env): After
    requires a.TransferTx?
  {
    var TransferTx(i, np, ticket) := a;
    if ticket.None? then Goto(s, a)
    else if s.pay != [] || |s.inv| != |i.events| || EncodeBigint(np.amount).None? then End(s)
    else
      var o := I.SettleIntraledger(i, env.now);
      if o.InvalidTransition? then End(s) else
        var push := if o.Executed? then o.after.events[|i.events|..] else [];
        End(s.(pay := P.IntoEvents(np) + [P.WasCompleted(env.now, i.header.preimage, 0)],
               inv := s.inv + push,
               rows := s.rows + [Row(ticket.value, s.hash,
                                     IntraledgerCompleted(Sats(np.amount), np.wallet, i.header.wallet, np.amount))]))
  }

  // ---- handle_invoice_update, settle_hold_invoice, reconcile_held_invoice ----

  function StartInv(s: Shared, i: I.InvoiceView, w: Option<InvWrite>): After {
    if w.None? then End(s) else Goto(s, InvTx(i, w.value, false, None))
  }

  function HandleInvUpdate(s: Shared, report: LndInvoice, env: Env): After {
    match I.Hydrate(s.inv)
    case None => End(s)
    case Some(v) =>
      match report
      case Accepted(amt) =>
        match I.MarkHeld(v, amt, env.now) {
          case Executed(_) => Goto(s, InvTx(v, CommitHeld(v, amt, env.now).value, true, None))
          case AlreadyApplied => Goto(s, HoldLoad)
          case InvalidTransition(_) => End(s)
        }
      case LndCanceled(amt) => StartInv(s, v, CommitCancel(v, amt, env.now))
      case _ => End(s)
  }

  function CommitInv(s: Shared, a: Actor): After
    requires a.InvTx?
  {
    var InvTx(i, w, thenSettle, ticket) := a;
    if ticket.None? then Goto(s, a)
    else if |s.inv| != |i.events| then End(s)
    else
      var s1 := s.(inv := s.inv + w.push, rows := s.rows + [Row(ticket.value, s.hash, w.body)]);
      if thenSettle then Goto(s1, HoldLoad) else End(s1)
  }

  function LoadHeld(s: Shared): After {
    match I.Hydrate(s.inv)
    case None => End(s)
    case Some(v) => if v.state != I.Held then End(s) else Goto(s, HoldLookup(v))
  }

  function LookupHeld(s: Shared, i: I.InvoiceView, env: Env): After {
    if !env.ok then End(s) else
      match s.lndInv
      case Accepted(amt) => Goto(s, HoldSettle(i, amt))
      case LndSettled(amt) => StartInv(s, i, CommitSettle(i, amt, env.now))
      case LndCanceled(amt) => StartInv(s, i, CommitCancel(i, amt, env.now))
      case _ => End(s)
  }

  /** SettleInvoice: LND settles if the call reaches it while the HTLC is parked; the answer may
      be lost either way. */
  function SettleAtLnd(s: Shared, i: I.InvoiceView, amt: U64, env: Env): After {
    var s1 := s.(settleCalls := s.settleCalls + 1,
                 lndInv := if s.lndInv.Accepted? && env.taken then LndSettled(s.lndInv.amt) else s.lndInv);
    if env.ok && s1.lndInv.LndSettled? then StartInv(s1, i, CommitSettle(i, amt, env.now)) else End(s1)
  }

  // ---- Runs ----

  function Run(c: Cell, steps: seq<Step>): Cell
    decreases |steps|
  {
    if steps == [] then c else Run(Do(c, steps[0]), steps[1..])
  }
}
