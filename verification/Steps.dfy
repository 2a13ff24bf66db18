/** Every step keeps the invariant: one lemma per await. */
module Steps {
  import opened Primitives
  import opened Amounts
  import opened Outbox
  import opened Commits
  import opened Protocol
  import opened Invariant
  import P = Payments
  import I = Invoices

  /** What a step lemma establishes: the new core, the guarantee, and the mover's own assertion. */
  ghost predicate Good(s: Shared, id: nat, r: After) {
    && Core(r.s)
    && Evolves(s, r.s, Some(id))
    && (r.next.Some? ==> ActorOk(r.s, id, r.next.value))
  }

  lemma GoodKeepsInv(c: Cell, id: nat, r: After)
    requires Inv(c) && Good(c.s, id, r)
    ensures Inv(Cell(r.s, Replace(c.actors, id, r.next)))
  {
    var d := Cell(r.s, Replace(c.actors, id, r.next));
    forall k | k in d.actors
      ensures ActorOk(d.s, k, d.actors[k])
    {
      if k != id {
        OthersStayOk(c.s, d.s, Some(id), k, c.actors[k]);
      }
    }
  }

  /** Steps that only read. */
  lemma Unmoved(s: Shared, id: nat, next: Option<Actor>)
    requires Core(s)
    requires next.Some? ==> ActorOk(s, id, next.value)
    ensures Good(s, id, After(s, next))
  {
  }

  /** LND moving an invoice forward disturbs nothing that is stored. */
  lemma LndInvoiceMoves(s: Shared, l: LndInvoice, mover: Option<nat>)
    requires Core(s) && LndInvLe(s.lndInv, l) && !l.Absent?
    ensures Core(s.(lndInv := l)) && Evolves(s, s.(lndInv := l), mover)
  {
  }

  lemma BodiesOfAppend(rows: seq<Row>, r: Row)
    ensures Bodies(rows + [r]) == Bodies(rows) + [r.body]
  {
  }

  /** A row published with a ticket above its own side. */
  lemma Publish(c: Shared, r: Row)
    requires RowsCore(c.hash, c.rows, c.nextSeq) && 0 < r.sequence < c.nextSeq && r.hash == c.hash
    ensures var rows := c.rows + [r];
            && RowsCore(c.hash, rows, c.nextSeq)
            && (if IsPaymentSide(r.body)
                then RecvRows(rows) == RecvRows(c.rows) && Bodies(PayRows(rows)) == Bodies(PayRows(c.rows)) + [r.body]
                else PayRows(rows) == PayRows(c.rows) && Bodies(RecvRows(rows)) == Bodies(RecvRows(c.rows)) + [r.body])
    ensures IsPaymentSide(r.body) && Ascending(PayRows(c.rows)) && AllBelow(PayRows(c.rows), r.sequence)
            ==> Ascending(PayRows(c.rows + [r]))
    ensures !IsPaymentSide(r.body) && Ascending(RecvRows(c.rows)) && AllBelow(RecvRows(c.rows), r.sequence)
            ==> Ascending(RecvRows(c.rows + [r]))
  {
    SidesOfAppend(c.rows, r);
    if IsPaymentSide(r.body) {
      BodiesOfAppend(PayRows(c.rows), r);
    } else {
      BodiesOfAppend(RecvRows(c.rows), r);
    }
  }

  // ---- Environment ----

  lemma InvoiceCreated(s: Shared, e: I.InvoiceEvent)
    requires Core(s) && s.inv == [] && !s.lndInv.Absent? && e.WasCreated? && e.hash == s.hash
    ensures var d := s.(inv := [e]); Core(d) && Evolves(s, d, None)
  {
    hide PayCore, HistoryCore, LndPayCore, RowsCore;
  }

  lemma LndPaymentMoves(s: Shared, step: Step)
    requires Core(s) && (step.PaymentResolves? || step.ForeignSend?)
    ensures Core(Surroundings(s, step)) && Evolves(s, Surroundings(s, step), None)
  {
    hide PayCore, HistoryCore, LndInvCore, IntraledgerCore, RecvCore, RowsCore, PayRows, RecvRows;
  }

  lemma OthersDrew(s: Shared, count: nat)
    requires Core(s)
    ensures var d := s.(nextSeq := s.nextSeq + count); Core(d) && Evolves(s, d, None)
  {
    hide PayCore, HistoryCore, LndInvCore, IntraledgerCore, RecvCore, LndPayCore, PayRows, RecvRows;
  }

  lemma SurroundingsStep(s: Shared, step: Step)
    requires Core(s)
    ensures Core(Surroundings(s, step)) && Evolves(s, Surroundings(s, step), None)
  {
    hide PayCore, HistoryCore, LndInvCore, IntraledgerCore, RecvCore, RowsCore, LndPayCore, PayRows, RecvRows;
    var d := Surroundings(s, step);
    if step.PaymentResolves? || step.ForeignSend? {
      LndPaymentMoves(s, step);
    } else if step.OtherDraws? {
      OthersDrew(s, step.count);
    } else if d.inv != s.inv {
      InvoiceCreated(s, d.inv[0]);
    } else if d.lndInv != s.lndInv {
      LndInvoiceMoves(s, d.lndInv, None);
    }
  }

  lemma FirstStageOk(s: Shared, id: nat, step: Step)
    requires Core(s)
    ensures var a := FirstStage(s, step); a.Some? ==> ActorOk(s, id, a.value)
  {
    if step.SendRequest? && step.invoiceMsat.Some? {
      RoundUpIsCeilingExactlyWhenRoundable(step.invoiceMsat.value);
    }
  }

  lemma Drawn(s: Shared, mover: Option<nat>)
    requires Core(s)
    ensures var d := s.(nextSeq := s.nextSeq + 1); Core(d) && Evolves(s, d, mover)
    ensures 0 < s.nextSeq && AllBelow(PayRows(s.rows), s.nextSeq) && AllBelow(RecvRows(s.rows), s.nextSeq)
  {
    SidesBelow(s.rows, s.nextSeq);
  }

  lemma DrawStep(s: Shared, id: nat, a: Actor)
    requires Core(s) && ActorOk(s, id, a)
    ensures Good(s, id, DrawTicket(s, a))
  {
    hide Core, Evolves, AllBelow, PayWriteOk, InvWriteOk, TransferOk, PayCopy, InvCopy;
    Drawn(s, Some(id));
    Drawn(s, None);
    if !(a.Creating? || a.PayTx? || a.TransferTx? || a.InvTx?) || a.ticket.Some? {
      Unmoved(s, id, Some(a));
    } else if !a.Creating? {
      OthersStayOk(s, s.(nextSeq := s.nextSeq + 1), None, id, a);
    }
  }

  // ---- send_payment ----

  lemma RouteStep(s: Shared, id: nat, a: Actor, env: Env)
    requires Core(s) && ActorOk(s, id, a) && a.Request?
    ensures Good(s, id, Route(s, a.wallet, a.decoded, env))
  {
    if s.inv != [] {
      I.StateOfGrammar(s.inv);
    }
    var r := Route(s, a.wallet, a.decoded, env);
    assert r.next.Some? ==> ActorOk(s, id, r.next.value);
    Unmoved(s, id, r.next);
  }

  /** A payment-side change that makes no intraledger log leaves the receive side alone. */
  lemma RecvSideUntouched(s: Shared, pay: seq<P.PaymentEvent>, rows: seq<Row>)
    requires IntraledgerCore(s.pay, s.inv, s.transfers) && RecvCore(s.inv, s.lndInv, s.pay, s.rows)
    requires !IntraledgerLog(s.pay) && !IntraledgerLog(pay) && RecvRows(rows) == RecvRows(s.rows)
    ensures IntraledgerCore(pay, s.inv, s.transfers) && RecvCore(s.inv, s.lndInv, pay, rows)
  {
  }

  lemma CreateStep(s: Shared, id: nat, a: Actor)
    requires Core(s) && ActorOk(s, id, a) && a.Creating?
    ensures Good(s, id, Create(s, id, a))
  {
    hide IntraledgerCore, RecvCore, LndInvCore, RowsCore, MaxFor, HoldSat, WholeSat, AsI64, P.DraftOf, PayRows,
      RecvRows;
    var Creating(np, ticket) := a;
    if ticket.Some? && s.pay == [] && EncodeBigint(np.amount).Some? && EncodeBigint(np.maxFee).Some? {
      var log := P.IntoEvents(np);
      P.StateOfGrammar(log);
      var row := Row(ticket.value, s.hash, PaymentInitiated(Sats(np.amount), np.maxFee));
      assert PayRows(s.rows) == [] by {
        assert |Bodies(PayRows(s.rows))| == 0;
      }
      Publish(s, row);
      RecvSideUntouched(s, log, s.rows + [row]);
      assert PayBodies(log) == [row.body];
    } else {
      Unmoved(s, id, Create(s, id, a).next);
    }
  }

  /** The owner's inline writes are justified by what it saw. */
  lemma InlineWritesOk(s: Shared, id: nat, p: P.PaymentView, preimage: Preimage, fees: U64, reason: FailureReason,
                       now: Timestamp)
    requires IsOwner(s, id, p)
    ensures CommitPending(p, now).Some? && PayWriteOk(s, id, p, CommitPending(p, now).value)
    ensures s.lndPay == Succeeded(preimage, fees) ==>
              var w := SettleInline(p, preimage, fees, now); w.Some? && PayWriteOk(s, id, p, w.value)
    ensures Exposed(s) || FailedAtLnd(s) || s.sends == 0 ==>
              var w := FailInline(p, reason, now); w.Some? && PayWriteOk(s, id, p, w.value)
  {
    InlineWriters(p.events, preimage, fees, reason, now);
    var pending, settled, failed := P.WentPending(now), P.WasCompleted(now, preimage, fees), P.WasFailed(now, reason);
    assert p.events + [pending] == [p.events[0], pending];
    assert p.events + [pending, settled] == [p.events[0], pending, settled];
    assert p.events + [pending, failed] == [p.events[0], pending, failed];
  }

  lemma HoldRecorded(s: Shared, id: nat, p: P.PaymentView, reply: AuthReply)
    requires Core(s) && IsOwner(s, id, p) && s.holds == []
    ensures var d := s.(holds := [Hold(HoldSat(p.header.amount, p.header.maxFee), reply)]);
            Core(d) && Evolves(s, d, Some(id)) && IsOwner(d, id, p)
  {
    hide PayCore, LndInvCore, IntraledgerCore, RecvCore, RowsCore, HoldSat;
    assert p.events[0] == s.pay[0];
    P.StateOfGrammar(p.events);
  }

  lemma AuthorizeStep(s: Shared, id: nat, a: Actor, env: Env)
    requires Core(s) && ActorOk(s, id, a) && a.Created?
    ensures Good(s, id, Authorize(s, a.p, env))
  {
    hide Evolves, PayCore, LndInvCore, IntraledgerCore, RecvCore, RowsCore, LndPayCore, PayWriteOk, FailInline, HoldSat;
    var p := a.p;
    HoldRecorded(s, id, p, env.auth);
    var d := s.(holds := [Hold(HoldSat(p.header.amount, p.header.maxFee), env.auth)]);
    assert s.holds + d.holds == d.holds;
    if !env.auth.Approved? {
      var reason := if env.auth.Declined? then env.auth.declineReason else Other(env.auth.detail);
      InlineWritesOk(d, id, p, 0, 0, reason, env.now);
    }
  }

  lemma CallLndStep(s: Shared, id: nat, a: Actor, env: Env)
    requires Core(s) && ActorOk(s, id, a) && a.Holding?
    ensures Good(s, id, CallLnd(s, a.p, env))
  {
  }

  lemma ExposeStep(s: Shared, id: nat, a: Actor, reason: FailureReason, now: Timestamp)
    requires Core(s) && ActorOk(s, id, a) && a.Sending?
    ensures Good(s, id, StartPay(s.(answerBad := true), a.p, FailInline(a.p, reason, now)))
  {
    hide PayCore, LndInvCore, IntraledgerCore, RecvCore, RowsCore, HistoryCore, PayWriteOk, FailInline;
    InlineWritesOk(s.(answerBad := true), id, a.p, 0, 0, reason, now);
  }

  lemma HearLndStep(s: Shared, id: nat, a: Actor, env: Env)
    requires Core(s) && ActorOk(s, id, a) && a.Sending?
    ensures Good(s, id, HearLnd(s, a.p, env))
  {
    hide Core, Evolves, PayWriteOk, FailInline, SettleInline, CommitPending;
    var p, now := a.p, env.now;
    if env.reply.SendError? {
      ExposeStep(s, id, a, env.reply.reason, now);
    } else if env.reply.WrongHash? {
      ExposeStep(s, id, a, Other("LND payment_hash mismatch"), now);
    } else {
      var (preimage, fees) := if s.lndPay.Succeeded? then (s.lndPay.preimage, s.lndPay.fees) else (0, 0);
      InlineWritesOk(s, id, p, preimage, fees, if s.lndPay.LndFailed? then s.lndPay.reason else Timeout, now);
      Unmoved(s, id, HearLnd(s, p, env).next);
    }
  }

  /** The payment log and its side of the outbox grow together. */
  lemma PayAppend(s: Shared, id: nat, p: P.PaymentView, w: PayWrite, rows: seq<Row>)
    requires PayCore(s.hash, s.pay, s.rows) && HistoryCore(s.pay, s.owner, s.holds, s.sends)
    requires LndPayCore(s.pay, s.lndPay, s.sends, s.taken, s.answerBad, s.foreign)
    requires PayCopy(s, p) && p.events == s.pay && PayWriteOk(s, id, p, w)
    requires Bodies(PayRows(rows)) == Bodies(PayRows(s.rows)) + (if w.body.Some? then [w.body.value] else [])
    requires Ascending(PayRows(rows))
    ensures PayCore(s.hash, s.pay + w.push, rows)
    ensures HistoryCore(s.pay + w.push, s.owner, s.holds, s.sends)
    ensures LndPayCore(s.pay + w.push, s.lndPay, s.sends, s.taken, s.answerBad, s.foreign)
    ensures !IntraledgerLog(s.pay) && !IntraledgerLog(s.pay + w.push)
  {
    hide MaxFor, HoldSat, EncodeBigint, PayRows, P.Hydrate, Ascending, Bodies;
  }

  lemma CommitPayStep(s: Shared, id: nat, a: Actor)
    requires Core(s) && ActorOk(s, id, a) && a.PayTx?
    ensures Good(s, id, CommitPay(s, a))
  {
    hide PayCore, HistoryCore, LndPayCore, IntraledgerCore, RecvCore, LndInvCore, RowsCore, PayRows, RecvRows,
      Ascending, Bodies, P.Consistent, P.Grammar, IntraledgerLog, PayBodies;
    var PayTx(p, w, ticket) := a;
    if !(w.body.Some? && ticket.None?) && |s.pay| == |p.events| {
      assert p.events == s.pay;
      PaySideOk(s);
      var rows := CommitPay(s, a).s.rows;
      if w.body.Some? {
        Publish(s, Row(ticket.value, s.hash, w.body.value));
      }
      PayAppend(s, id, p, w, rows);
      RecvSideUntouched(s, s.pay + w.push, rows);
    } else {
      Unmoved(s, id, CommitPay(s, a).next);
    }
  }

  lemma PaySideOk(s: Shared)
    requires PayCore(s.hash, s.pay, s.rows)
    ensures Ascending(PayRows(s.rows)) && Bodies(PayRows(s.rows)) + [] == Bodies(PayRows(s.rows))
  {
  }

  // ---- handle_payment_update, reconcile_orphan_hold ----

  lemma LndSpeaksAfterSend(s: Shared)
    requires Core(s)
    ensures !Exposed(s) && !s.lndPay.Unknown? ==> s.sends > 0
  {
    hide PayCore, HistoryCore, LndInvCore, IntraledgerCore, RecvCore, RowsCore;
  }

  lemma OutcomeStep(s: Shared, id: nat, v: P.PaymentView, report: LndPayment, hasPreimage: bool, now: Timestamp)
    requires Core(s) && PayReportOk(s, report)
    requires P.Consistent(v) && v.events <= s.pay && (Unfinished(v.events) ==> LnLog(v.events))
    ensures Good(s, id, ApplyOutcome(s, v, report, hasPreimage, now))
  {
    hide Core, Evolves, P.Hydrate, P.Settle, P.Fail, CommitCompleted, CommitFailed, Sats, AllBelow, PayRows;
    var (preimage, fees) := if report.Succeeded? then (report.preimage, report.fees) else (0, 0);
    LndSpeaksAfterSend(s);
    PaymentWriters(v.events, preimage, fees, if report.LndFailed? then report.reason else Timeout, now);
    Unmoved(s, id, ApplyOutcome(s, v, report, hasPreimage, now).next);
  }

  lemma PayUpdateStep(s: Shared, id: nat, a: Actor, env: Env)
    requires Core(s) && ActorOk(s, id, a) && a.PayUpdate?
    ensures Good(s, id, HandlePayUpdate(s, a.payReport, a.hasPreimage, env))
  {
    if s.pay != [] {
      P.StateOfGrammar(s.pay);
      OutcomeStep(s, id, P.Hydrate(s.pay).value, a.payReport, a.hasPreimage, env.now);
    }
  }

  lemma LoadOrphanStep(s: Shared, id: nat, a: Actor)
    requires Core(s) && ActorOk(s, id, a) && a.OrphanLoad?
    ensures Good(s, id, LoadOrphan(s))
  {
    hide Evolves, P.Hydrate, HistoryCore, LndPayCore, LndInvCore, IntraledgerCore, RecvCore, RowsCore;
    if s.pay != [] {
      P.StateOfGrammar(s.pay);
    }
    P.NothingToHydrate();
    Unmoved(s, id, LoadOrphan(s).next);
  }

  lemma LookupOrphanStep(s: Shared, id: nat, a: Actor, env: Env)
    requires Core(s) && ActorOk(s, id, a) && a.OrphanLookup?
    ensures Good(s, id, LookupOrphan(s, a.p, env))
  {
    if env.ok {
      OutcomeStep(s, id, a.p, s.lndPay, env.hasPreimage, env.now);
    }
  }

  // ---- send_intraledger_payment ----

  lemma TransferRecorded(s: Shared, i: I.InvoiceView, np: P.NewPayment, reply: AuthReply, mover: Option<nat>)
    requires Core(s) && TransferOk(s, i, np)
    ensures var d := s.(transfers := s.transfers + [Hold(WholeSat(np.amount), reply)]); Core(d) && Evolves(s, d, mover)
  {
    hide PayCore, HistoryCore, LndPayCore, RecvCore, RowsCore, WholeSat, RoundUpToSat;
    I.StateOfGrammar(i.events);
    assert i.events[0] == s.inv[0];
  }

  lemma AuthorizeTransferStep(s: Shared, id: nat, a: Actor, env: Env)
    requires Core(s) && ActorOk(s, id, a) && a.TransferAuthorize?
    ensures Good(s, id, AuthorizeTransfer(s, a.i, a.np, env))
  {
    hide Core, Evolves, InvCopy;
    TransferRecorded(s, a.i, a.np, env.auth, None);
    TransferRecorded(s, a.i, a.np, env.auth, Some(id));
    OthersStayOk(s, s.(transfers := s.transfers + [Hold(WholeSat(a.np.amount), env.auth)]), None, id + 1, a);
  }

  lemma CancelForTransferStep(s: Shared, id: nat, a: Actor, env: Env)
    requires Core(s) && ActorOk(s, id, a) && a.TransferCancel?
    ensures Good(s, id, CancelForTransfer(s, a.i, a.np, env))
  {
    hide Core, Evolves, I.Consistent;
    var d := CancelForTransfer(s, a.i, a.np, env).s;
    if d == s {
      Unmoved(s, id, CancelForTransfer(s, a.i, a.np, env).next);
    } else {
      LndInvoiceMoves(s, d.lndInv, Some(id));
    }
  }

  /** The three writes of a transfer belong together. */
  lemma TransferCores(s: Shared, i: I.InvoiceView, np: P.NewPayment, now: Timestamp, rows: seq<Row>)
    requires Core(s) && TransferOk(s, i, np) && s.lndInv.LndCanceled?
    requires Hold(WholeSat(np.amount), Approved) in s.transfers
    requires s.pay == [] && i.events == s.inv && EncodeBigint(np.amount).Some?
    requires PayRows(rows) == PayRows(s.rows) && Ascending(RecvRows(rows))
    requires Bodies(RecvRows(rows)) == Bodies(RecvRows(s.rows))
               + [IntraledgerCompleted(Sats(np.amount), np.wallet, i.header.wallet, np.amount)]
    ensures var pay := P.IntoEvents(np) + [P.WasCompleted(now, i.header.preimage, 0)];
            var inv := s.inv + [I.WasSettledIntraledger(now)];
            && PayCore(s.hash, pay, rows) && HistoryCore(pay, s.owner, s.holds, s.sends)
            && LndPayCore(pay, s.lndPay, s.sends, s.taken, s.answerBad, s.foreign)
            && LndInvCore(s.hash, inv, s.lndInv, s.settleCalls)
            && IntraledgerCore(pay, inv, s.transfers) && RecvCore(inv, s.lndInv, pay, rows)
  {
    hide RowsCore, MaxFor, HoldSat, WholeSat, RoundUpToSat, AsI64, Sats, PayRows, RecvRows, P.Hydrate, I.Hydrate,
      Ascending;
    I.StateOfGrammar(i.events);
  }

  lemma TransferSettles(i: I.InvoiceView, now: Timestamp)
    requires I.Consistent(i) && |i.events| == 1
    ensures var o := I.SettleIntraledger(i, now);
            o.Executed? && o.after.events[|i.events|..] == [I.WasSettledIntraledger(now)]
  {
    I.StateOfGrammar(i.events);
  }

  lemma CommitTransferStep(s: Shared, id: nat, a: Actor, env: Env)
    requires Core(s) && ActorOk(s, id, a) && a.TransferTx?
    ensures Good(s, id, CommitTransfer(s, a, env))
  {
    hide PayCore, HistoryCore, LndPayCore, LndInvCore, IntraledgerCore, RowsCore, PayRows, RecvRows, RecvBodies, Bodies,
      Ascending, I.Consistent, I.SettleIntraledger, WholeSat, RoundUpToSat, Sats;
    var TransferTx(i, np, ticket) := a;
    if ticket.Some? && s.pay == [] && |s.inv| == |i.events| && EncodeBigint(np.amount).Some? {
      assert i.events == s.inv;
      TransferSettles(i, env.now);
      var body := IntraledgerCompleted(Sats(np.amount), np.wallet, i.header.wallet, np.amount);
      var row := Row(ticket.value, s.hash, body);
      Publish(s, row);
      TransferCores(s, i, np, env.now, s.rows + [row]);
    } else {
      Unmoved(s, id, CommitTransfer(s, a, env).next);
    }
  }

  // ---- handle_invoice_update, settle_hold_invoice, reconcile_held_invoice ----

  lemma InvUpdateStep(s: Shared, id: nat, a: Actor, env: Env)
    requires Core(s) && ActorOk(s, id, a) && a.InvUpdate?
    ensures Good(s, id, HandleInvUpdate(s, a.invReport, env))
  {
    hide Evolves, I.Hydrate, PayCore, HistoryCore, LndPayCore, IntraledgerCore, RecvCore, RowsCore;
    var report := a.invReport;
    if s.inv != [] {
      I.StateOfGrammar(s.inv);
      InvoiceWriters(s.inv, if report.Accepted? || report.LndCanceled? then report.amt else 0, env.now);
    }
    I.NothingToHydrate();
    Unmoved(s, id, HandleInvUpdate(s, report, env).next);
  }

  /** The invoice log and the receive side grow together. */
  lemma RecvAppend(s: Shared, i: I.InvoiceView, w: InvWrite)
    requires LndInvCore(s.hash, s.inv, s.lndInv, s.settleCalls)
    requires I.Grammar(s.inv) && i.events == s.inv && InvWriteOk(s, i, w)
    ensures LndInvCore(s.hash, s.inv + w.push, s.lndInv, s.settleCalls)
    ensures RecvBodies(s.inv + w.push, s.lndInv, s.pay) == RecvBodies(s.inv, s.lndInv, s.pay) + [w.body]
    ensures !IsPaymentSide(w.body) && |w.push| == 1
  {
    assert s.inv + w.push == s.inv + [w.push[0]];
  }

  lemma IntraledgerCoreOfInvoiceWrite(s: Shared, i: I.InvoiceView, w: InvWrite)
    requires IntraledgerCore(s.pay, s.inv, s.transfers) && I.Grammar(s.inv) && i.events == s.inv && InvWriteOk(s, i, w)
    ensures IntraledgerCore(s.pay, s.inv + w.push, s.transfers)
  {
    assert s.inv + w.push == s.inv + [w.push[0]];
  }

  lemma CommitInvStep(s: Shared, id: nat, a: Actor)
    requires Core(s) && ActorOk(s, id, a) && a.InvTx?
    ensures Good(s, id, CommitInv(s, a))
  {
    hide HistoryCore, LndPayCore, LndInvCore, IntraledgerCore, RowsCore, RecvBodies, PayBodies, MaxFor, InvWriteOk,
      PayRows, RecvRows, I.Hydrate, Finished;
    var InvTx(i, w, thenSettle, ticket) := a;
    if ticket.Some? && |s.inv| == |i.events| {
      assert i.events == s.inv;
      RecvAppend(s, i, w);
      IntraledgerCoreOfInvoiceWrite(s, i, w);
      Publish(s, Row(ticket.value, s.hash, w.body));
    } else {
      Unmoved(s, id, CommitInv(s, a).next);
    }
  }

  lemma LoadHeldStep(s: Shared, id: nat, a: Actor)
    requires Core(s) && ActorOk(s, id, a) && a.HoldLoad?
    ensures Good(s, id, LoadHeld(s))
  {
    hide Evolves, I.Hydrate, PayCore, HistoryCore, LndPayCore, IntraledgerCore, RecvCore, RowsCore;
    if s.inv != [] {
      I.StateOfGrammar(s.inv);
    }
    I.NothingToHydrate();
    Unmoved(s, id, LoadHeld(s).next);
  }

  lemma LookupHeldStep(s: Shared, id: nat, a: Actor, env: Env)
    requires Core(s) && ActorOk(s, id, a) && a.HoldLookup?
    ensures Good(s, id, LookupHeld(s, a.i, env))
  {
    hide Core, Evolves, I.Hydrate, CommitSettle, CommitCancel;
    InvoiceWriters(a.i.events, if PastAccepted(s.lndInv) then s.lndInv.amt else 0, env.now);
    Unmoved(s, id, LookupHeld(s, a.i, env).next);
  }

  lemma SettleAtLndStep(s: Shared, id: nat, a: Actor, env: Env)
    requires Core(s) && ActorOk(s, id, a) && a.HoldSettle?
    ensures Good(s, id, SettleAtLnd(s, a.i, a.amt, env))
  {
    hide PayCore, HistoryCore, LndPayCore, IntraledgerCore, RecvCore, RowsCore, I.Hydrate, I.Grammar, CommitSettle;
    InvoiceWriters(a.i.events, a.amt, env.now);
    LndInvoiceMoves(s, SettleAtLnd(s, a.i, a.amt, env).s.lndInv, Some(id));
  }

  // ---- All steps, all runs ----

  lemma AdvanceStep(s: Shared, id: nat, a: Actor, env: Env)
    requires Core(s) && ActorOk(s, id, a)
    ensures Good(s, id, Move(s, id, a, env))
  {
    hide Core, ActorOk, Good;
    match a
    case Request(_, _) => RouteStep(s, id, a, env);
    case Creating(_, _) => CreateStep(s, id, a);
    case Created(_) => AuthorizeStep(s, id, a, env);
    case Holding(_) => CallLndStep(s, id, a, env);
    case Sending(_) => HearLndStep(s, id, a, env);
    case PayTx(_, _, _) => CommitPayStep(s, id, a);
    case PayUpdate(_, _) => PayUpdateStep(s, id, a, env);
    case OrphanLoad => LoadOrphanStep(s, id, a);
    case OrphanLookup(_) => LookupOrphanStep(s, id, a, env);
    case TransferAuthorize(_, _) => AuthorizeTransferStep(s, id, a, env);
    case TransferCancel(_, _) => CancelForTransferStep(s, id, a, env);
    case TransferTx(_, _, _) => CommitTransferStep(s, id, a, env);
    case InvUpdate(_) => InvUpdateStep(s, id, a, env);
    case InvTx(_, _, _, _) => CommitInvStep(s, id, a);
    case HoldLoad => LoadHeldStep(s, id, a);
    case HoldLookup(_) => LookupHeldStep(s, id, a, env);
    case HoldSettle(_, _) => SettleAtLndStep(s, id, a, env);
  }

  lemma SurroundingsKeepInv(c: Cell, step: Step)
    requires Inv(c)
    ensures Inv(Cell(Surroundings(c.s, step), c.actors))
  {
    SurroundingsStep(c.s, step);
    forall k | k in c.actors
      ensures ActorOk(Surroundings(c.s, step), k, c.actors[k])
    {
      OthersStayOk(c.s, Surroundings(c.s, step), None, k, c.actors[k]);
    }
  }

  lemma StepKeepsInv(c: Cell, step: Step)
    requires Inv(c)
    ensures Inv(Do(c, step))
  {
    hide Core, ActorOk, Good, DrawTicket, Move, FirstStage, Surroundings;
    match step
    case Draw(id) =>
      if id in c.actors {
        DrawStep(c.s, id, c.actors[id]);
        GoodKeepsInv(c, id, DrawTicket(c.s, c.actors[id]));
      }
    case Advance(id, env) =>
      if id in c.actors {
        AdvanceStep(c.s, id, c.actors[id], env);
        GoodKeepsInv(c, id, Move(c.s, id, c.actors[id], env));
      }
    case Crash =>
    case Drop(_) =>
    case SendRequest(id, _, _, _) => FirstStageOk(c.s, id, step);
    case PaymentReported(id, _) => FirstStageOk(c.s, id, step);
    case OrphanListed(id) => FirstStageOk(c.s, id, step);
    case InvoiceReported(id) => FirstStageOk(c.s, id, step);
    case HeldListed(id) => FirstStageOk(c.s, id, step);
    case _ => SurroundingsKeepInv(c, step);
  }

  lemma InitIsInv(hash: Hash)
    ensures Inv(Init(hash))
  {
  }

  /** The invariant holds in every run: any steps, any interleaving, any crashes. */
  lemma {:induction false} RunKeepsInv(c: Cell, steps: seq<Step>)
    requires Inv(c)
    ensures Inv(Run(c, steps))
    decreases |steps|
  {
    if steps != [] {
      StepKeepsInv(c, steps[0]);
      RunKeepsInv(Do(c, steps[0]), steps[1..]);
    }
  }
}
