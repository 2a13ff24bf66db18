/** The handlers and sweeps as the service runs them: load the entity, branch on LND's answer, run
    the command on the in-memory copy, and write log and outbox in one transaction. */
module App {
  import opened Primitives
  import opened Amounts
  import opened Outbox
  import opened Commits
  import opened Protocol
  import opened Stores
  import P = Payments
  import I = Invoices

  /** How a handler call ends. */
  datatype Reply =
    | Committed
    | Duplicate
    | Skipped
    | Contradiction
    | TxError
    | RemoteError

  class App {
    var payments: map<Hash, seq<P.PaymentEvent>>
    var invoices: map<Hash, seq<I.InvoiceEvent>>
    var outbox: seq<Row>
    var nextSeq: int
    // LND's side of the hold invoices.
    var lnd: map<Hash, LndInvoice>

    ghost function Db(): Store
      reads this
    {
      Store(payments, invoices, outbox, nextSeq, lnd)
    }

    constructor (lnd: map<Hash, LndInvoice>)
      ensures Db() == Store(map[], map[], [], 1, lnd) && StoreOk(Db())
    {
      payments, invoices, outbox, nextSeq := map[], map[], [], 1;
      this.lnd := lnd;
    }

    /** `publish_in_tx`. */
    method PublishInTx(h: Hash, b: Body)
      modifies this`outbox, this`nextSeq
      ensures Db() == Publish(old(Db()), h, b)
    {
      outbox := outbox + [Row(nextSeq, h, b)];
      nextSeq := nextSeq + 1;
    }

    // ---- commit_payment ----

    /** `commit_completed`, from a copy that may be stale: the transaction appends only if the log
        still has the loaded length. `up` is whether the database serves the transaction. */
    method CommitCompleted(payment: P.Payment, h: Hash, preimage: Preimage, fees: U64, now: Timestamp, up: bool)
      returns (r: Reply)
      requires StoreOk(Db()) && h in payments && P.Consistent(payment.View()) && payment.events <= payments[h]
      modifies this, payment
      ensures StoreOk(Db())
      ensures Db() == if up && old(payment.events == payments[h])
                      then Finish(old(Db()), h, Some(P.WasCompleted(now, preimage, fees)))
                      else old(Db())
      ensures r == Outcome(old(payment.events), true, up && old(payment.events == payments[h]))
    {
      hide P.Settle, P.Fail, P.Hydrate, P.Grammar, StoreOk;
      CommandsOnLog(payment.View(), preimage, fees, Timeout, now);
      FinishKeepsOk(Db(), h, Some(P.WasCompleted(now, preimage, fees)));
      var loaded := |payment.events|;
      var verdict := payment.DoSettle(preimage, fees, now);
      match verdict {
        case Ignored => return Duplicate;
        case Refused(_) => return Contradiction;
        case Ran =>
      }
      if !up || |payments[h]| != loaded {
        return TxError;
      }
      payments := payments[h := payments[h] + payment.events[loaded..]];
      PublishInTx(h, PaymentCompleted(Sats(payment.header.amount), preimage, fees));
      r := Committed;
    }

    method CommitFailed(payment: P.Payment, h: Hash, reason: FailureReason, now: Timestamp, up: bool) returns (r: Reply)
      requires StoreOk(Db()) && h in payments && P.Consistent(payment.View()) && payment.events <= payments[h]
      modifies this, payment
      ensures StoreOk(Db())
      ensures Db() == if up && old(payment.events == payments[h])
                      then Finish(old(Db()), h, Some(P.WasFailed(now, reason)))
                      else old(Db())
      ensures r == Outcome(old(payment.events), false, up && old(payment.events == payments[h]))
    {
      hide P.Settle, P.Fail, P.Hydrate, P.Grammar, StoreOk;
      CommandsOnLog(payment.View(), 0, 0, reason, now);
      FinishKeepsOk(Db(), h, Some(P.WasFailed(now, reason)));
      var loaded := |payment.events|;
      var verdict := payment.DoFail(reason, now);
      match verdict {
        case Ignored => return Duplicate;
        case Refused(_) => return Contradiction;
        case Ran =>
      }
      if !up || |payments[h]| != loaded {
        return TxError;
      }
      payments := payments[h := payments[h] + payment.events[loaded..]];
      PublishInTx(h, PaymentFailed(Sats(payment.header.amount), reason));
      r := Committed;
    }

    // ---- handle_payment_update ----

    method FindPayment(h: Hash) returns (p: P.Payment)
      requires StoreOk(Db()) && h in payments
      ensures fresh(p) && P.Consistent(p.View()) && p.events == payments[h]
    {
      P.StateOfGrammar(payments[h]);
      var found := P.Payment.TryFromEvents(payments[h]);
      p := found;
    }

    /** An unknown hash is ignored; so is a duplicate; a contradiction is surfaced and changes
        nothing. */
    method HandlePaymentUpdate(u: PaymentUpdate, now: Timestamp, up: bool) returns (r: Reply)
      requires StoreOk(Db())
      modifies this
      ensures StoreOk(Db())
      ensures Db() == if up then HandleUpdate(old(Db()), u, now) else old(Db())
      ensures r == Contradiction <==> u.hash in old(payments) && Contradicts(old(payments)[u.hash], u)
      ensures r == Committed <==> Db() != old(Db())
    {
      hide StoreOk, P.Hydrate, P.Consistent;
      if u.hash !in payments {
        return Skipped;
      }
      LogsInGrammar(Db(), u.hash);
      var payment := FindPayment(u.hash);
      match u.status {
        case InFlight => r := Skipped;
        case Succeeded =>
          if u.preimage.None? {
            return RemoteError;
          }
          r := CommitCompleted(payment, u.hash, u.preimage.value, u.fees, now, up);
        case Failed =>
          var reason := if u.reason.Some? then u.reason.value else Other(TRACK_NO_REASON);
          r := CommitFailed(payment, u.hash, reason, now, up);
      }
    }

    // ---- sweep_orphan_holds ----

    /** `reconcile_orphan_hold`; the reply is `Committed` for `Ok(true)`. */
    method ReconcileOrphanHold(h: Hash, l: Lookup, now: Timestamp) returns (r: Reply)
      requires StoreOk(Db())
      modifies this
      ensures StoreOk(Db())
      ensures Db() == ReconcileOrphan(old(Db()), h, l, now)
      ensures r == Committed <==> h in Stranded(old(Db())) && LookupVerdict(l, now).Some?
    {
      hide StoreOk, P.Hydrate;
      if h !in payments {
        return RemoteError;
      }
      LogsInGrammar(Db(), h);
      var payment := FindPayment(h);
      P.StateOfGrammar(payments[h]);
      if payment.state != P.Initiated {
        return Skipped;
      }
      if !l.Found? {
        return if l.RpcError? then RemoteError else Skipped;
      }
      match l.report.status {
        case InFlight => r := Skipped;
        case Succeeded =>
          if l.report.preimage.None? {
            return RemoteError;
          }
          r := CommitCompleted(payment, h, l.report.preimage.value, l.report.fees, now, l.commits);
        case Failed =>
          var reason := if l.report.reason.Some? then l.report.reason.value else Other(LOOKUP_NO_REASON);
          r := CommitFailed(payment, h, reason, now, l.commits);
      }
    }

    /** `sweep_orphan_holds` over the hashes the query listed: each is reconciled, in that order. The
        count it returns is exactly how many payments it took out of Initiated. */
    method SweepOrphanHolds(stranded: seq<Hash>, lookups: map<Hash, Lookup>, now: Timestamp) returns (reconciled: nat)
      requires StoreOk(Db())
      modifies this
      ensures StoreOk(Db())
      ensures Db() == OrphanAll(old(Db()), stranded, lookups, now)
      ensures reconciled == |Stranded(old(Db()))| - |Stranded(Db())|
      ensures Stranded(Db()) ==
                set h | h in Stranded(old(Db())) && !(h in stranded && LookupVerdict(LookupOf(lookups, h), now).Some?)
    {
      hide StoreOk, Stranded, ReconcileOrphan, LookupVerdict;
      reconciled := 0;
      for i := 0 to |stranded|
        invariant StoreOk(Db()) && Db() == OrphanAll(old(Db()), stranded[..i], lookups, now)
        invariant Stranded(Db()) ==
                    set h | h in Stranded(old(Db()))
                            && !(h in stranded[..i] && LookupVerdict(LookupOf(lookups, h), now).Some?)
        invariant reconciled == |Stranded(old(Db()))| - |Stranded(Db())|
      {
        var h := stranded[i];
        OrphanLeavesInitiated(Db(), h, LookupOf(lookups, h), now);
        assert stranded[..i + 1] == stranded[..i] + [h] && stranded[..i + 1][..i] == stranded[..i];
        var r := ReconcileOrphanHold(h, LookupOf(lookups, h), now);
        if r == Committed {
          reconciled := reconciled + 1;
        }
      }
      assert stranded[..|stranded|] == stranded;
    }

    // ---- commit_invoice ----

    method FindInvoice(h: Hash) returns (i: I.Invoice)
      requires StoreOk(Db()) && h in invoices
      ensures fresh(i) && I.Consistent(i.View()) && i.events == invoices[h]
    {
      I.StateOfGrammar(invoices[h]);
      var found := I.Invoice.TryFromEvents(invoices[h]);
      i := found;
    }

    /** `commit_settle`: only a Held invoice settles, and the released amount is the parked one. */
    method CommitSettle(invoice: I.Invoice, h: Hash, amt: U64, now: Timestamp, up: bool) returns (r: Reply)
      requires StoreOk(Db()) && h in invoices && I.Consistent(invoice.View()) && invoice.events <= invoices[h]
      modifies this, invoice
      ensures StoreOk(Db())
      ensures Db() == if up && old(invoice.events == invoices[h]) && h in Held(old(Db()))
                      then CloseHeld(old(Db()), h, true, amt, now)
                      else old(Db())
      ensures r == SettleReply(old(invoice.events), up && old(invoice.events == invoices[h]))
    {
      hide I.Hydrate, I.Grammar, I.Settle, StoreOk, PartOf;
      if h in Held(Db()) {
        CloseOutcome(Db(), h, true, amt, now);
      }
      InvoiceCommandsOnLog(invoice.View(), amt, now);
      var loaded := |invoice.events|;
      var verdict := invoice.DoSettle(now);
      match verdict {
        case Ignored => return Duplicate;
        case Refused(_) => return Contradiction;
        case Ran =>
      }
      var held := invoice.held.value;
      if !up || |invoices[h]| != loaded {
        return TxError;
      }
      invoices := invoices[h := invoices[h] + invoice.events[loaded..]];
      PublishInTx(h, InvoiceSettled(Sats(amt), amt, held));
      r := Committed;
    }

    /** `commit_cancel`: an Open invoice releases nothing, a Held one its parked amount. */
    method CommitCancel(invoice: I.Invoice, h: Hash, amt: U64, now: Timestamp, up: bool) returns (r: Reply)
      requires StoreOk(Db()) && h in invoices && I.Consistent(invoice.View()) && invoice.events <= invoices[h]
      modifies this, invoice
      ensures StoreOk(Db())
      ensures Db() == if up && old(invoice.events == invoices[h]) then CancelRow(old(Db()), h, amt, now) else old(Db())
      ensures r == CancelReply(old(invoice.events), up && old(invoice.events == invoices[h]))
    {
      hide I.Hydrate, I.Grammar, I.Cancel, StoreOk, PartOf, Extends;
      CancelExtends(Db(), h, amt, now);
      InvoiceCommandsOnLog(invoice.View(), amt, now);
      var loaded := |invoice.events|;
      var verdict := invoice.DoCancel(I.Expired, now);
      match verdict {
        case Ignored => return Duplicate;
        case Refused(_) => return Contradiction;
        case Ran =>
      }
      if !up || |invoices[h]| != loaded {
        return TxError;
      }
      invoices := invoices[h := invoices[h] + invoice.events[loaded..]];
      PublishInTx(h, InvoiceCanceled(Sats(amt), amt, invoice.held));
      r := Committed;
    }

    // ---- reconcile_held_invoice, settle_hold_invoice ----

    /** Both ask LND first and branch alike; a faulty call leaves the row for the next tick. */
    method ReconcileHeldInvoice(h: Hash, fault: Fault, now: Timestamp) returns (r: Reply)
      requires StoreOk(Db())
      modifies this
      ensures StoreOk(Db())
      ensures Db() == Reconcile(old(Db()), h, fault, now)
      ensures r == ReconcileReply(old(Db()), h, fault)
    {
      hide StoreOk, I.Hydrate, PartOf, ReconcilePart, CloseHeld;
      ReconcileIsLocal(Db(), h, fault, now);
      if h !in invoices {
        return Skipped;
      }
      LogsInGrammar(Db(), h);
      var invoice := FindInvoice(h);
      I.StateOfGrammar(invoices[h]);
      if invoice.state != I.Held {
        return Skipped;
      }
      if fault.LookupFails? || h !in lnd {
        return RemoteError;
      }
      match lnd[h] {
        case Absent => r := RemoteError;
        case LndOpen => r := Skipped;
        case LndSettled(amt) => r := CommitSettle(invoice, h, amt, now, !fault.CommitFails?);
        case LndCanceled(amt) => r := CommitCancel(invoice, h, amt, now, !fault.CommitFails?);
        case Accepted(amt) =>
          if fault.SettleFails? {
            return RemoteError;
          }
          LndIsNotStored(Db(), lnd[h := LndSettled(amt)]);
          lnd := lnd[h := LndSettled(amt)];
          if fault.AnswerLost? {
            return RemoteError;
          }
          r := CommitSettle(invoice, h, amt, now, !fault.CommitFails?);
      }
    }

    // ---- invoice_reconciliation_sweep ----

    /** `list_held`: any `limit` of the held hashes, in no particular order. */
    method ListHeld(limit: nat) returns (hs: seq<Hash>)
      ensures Distinct(hs) && (forall h :: h in hs ==> h in Held(Db()))
      ensures |hs| == if limit < |Held(Db())| then limit else |Held(Db())|
    {
      hs := [];
      var rest := Held(Store(payments, invoices, outbox, nextSeq, lnd));
      while |hs| < limit && rest != {}
        invariant Distinct(hs) && (forall h :: h in hs ==> h in Held(Db()) && h !in rest)
        invariant rest <= Held(Db())
        invariant |hs| + |rest| == |Held(Db())| && |hs| <= limit
        decreases limit - |hs|
      {
        var h :| h in rest;
        hs, rest := hs + [h], rest - {h};
      }
    }

    /** `run`: one tick. What it does to each hash is what a lone reconcile does (see
        `SweepIsPointwise`); without faults, and with every held invoice past Open at LND, it
        leaves `n - min(n, limit)` of `n` held. */
    method ReconciliationSweep(limit: nat, faults: map<Hash, Fault>, now: Timestamp) returns (listed: seq<Hash>)
      requires StoreOk(Db())
      modifies this
      ensures StoreOk(Db())
      ensures Distinct(listed) && (forall h :: h in listed ==> h in Held(old(Db())))
      ensures Db() == ReconcileAll(old(Db()), listed, faults, now)
      ensures faults == map[] && (forall h :: h in Held(old(Db())) ==> Resolves(LndOf(old(Db()), h), NoFault)) ==>
                var n := |Held(old(Db()))|;
                |Held(Db())| == n - (if limit < n then limit else n)
    {
      hide StoreOk, Held, Reconcile;
      listed := ListHeld(limit);
      for i := 0 to |listed|
        invariant StoreOk(Db()) && Db() == ReconcileAll(old(Db()), listed[..i], faults, now)
      {
        var h := listed[i];
        assert listed[..i + 1][..i] == listed[..i];
        var _ := ReconcileHeldInvoice(h, FaultOf(faults, h), now);
      }
      assert listed[..|listed|] == listed;
      if faults == map[] && forall h :: h in Held(old(Db())) ==> Resolves(LndOf(old(Db()), h), NoFault) {
        CleanSweepCounts(old(Db()), listed, now);
      }
    }

    // ---- handle_invoice_update ----

    /** `transition_to_held`. */
    method TransitionToHeld(invoice: I.Invoice, h: Hash, amt: U64, now: Timestamp, up: bool) returns (r: Reply)
      requires StoreOk(Db()) && h in invoices && I.Consistent(invoice.View()) && invoice.events <= invoices[h]
      modifies this, invoice
      ensures StoreOk(Db())
      ensures Db() == if up && old(invoice.events == invoices[h]) then Park(old(Db()), h, amt, now) else old(Db())
      ensures r == HeldReply(old(invoice.events), up && old(invoice.events == invoices[h]))
    {
      hide I.Hydrate, I.Grammar, I.MarkHeld, StoreOk, PartOf, Extends;
      ParkExtends(Db(), h, amt, now);
      InvoiceCommandsOnLog(invoice.View(), amt, now);
      var loaded := |invoice.events|;
      var verdict := invoice.DoMarkHeld(amt, now);
      match verdict {
        case Ignored => return Duplicate;
        case Refused(_) => return Contradiction;
        case Ran =>
      }
      if !up || |invoices[h]| != loaded {
        return TxError;
      }
      invoices := invoices[h := invoices[h] + invoice.events[loaded..]];
      PublishInTx(h, HtlcHeld(Sats(amt), amt));
      r := Committed;
    }

    /** An Accepted report parks the amount once and always tries to settle; Canceled cancels; Open
        and the Settled echo are observed only. */
    method HandleInvoiceUpdate(u: InvoiceUpdate, up: bool, fault: Fault, now: Timestamp) returns (r: Reply)
      requires StoreOk(Db())
      modifies this
      ensures StoreOk(Db())
      ensures Db() == HandleInvoice(old(Db()), u, up, fault, now)
      ensures r == InvoiceReply(old(Db()), u, up)
      ensures u.hash in old(invoices) && old(invoices)[u.hash] != [] ==>
                var log := old(invoices)[u.hash];
                var last := log[|log| - 1];
                && (u.state.Accepted? ==>
                      && (r == Duplicate <==> EverHeld(log)) && (r == Contradiction <==> |log| > 1 && !EverHeld(log)))
                && (u.state.LndCanceled? ==>
                      && (r == Duplicate <==> last.WasCanceled?)
                      && (r == Contradiction <==> last.WasSettled? || last.WasSettledIntraledger?))
    {
      hide StoreOk, I.Hydrate, Reconcile;
      if u.hash !in invoices {
        return Skipped;
      }
      LogsInGrammar(Db(), u.hash);
      var invoice := FindInvoice(u.hash);
      match u.state {
        case Absent => r := Skipped;
        case LndOpen => r := Skipped;
        case LndSettled(_) => r := Skipped;
        case LndCanceled(amt) => r := CommitCancel(invoice, u.hash, amt, now, up);
        case Accepted(amt) =>
          r := TransitionToHeld(invoice, u.hash, amt, now, up);
          if r == Contradiction || r == TxError {
            return;
          }
          var _ := ReconcileHeldInvoice(u.hash, fault, now);
      }
    }
  }

  /** A terminal writer's answer, from the loaded log and whether the transaction goes through. */
  function Outcome(log: seq<P.PaymentEvent>, success: bool, commits: bool): Reply
    requires P.Grammar(log)
  {
    var last := log[|log| - 1];
    if Unfinished(log) then (if commits then Committed else TxError)
    else if last.WasFailed? then (if success then Contradiction else Duplicate)
    else (if success then Duplicate else Contradiction)
  }

  lemma InvoiceCommandsOnLog(v: I.InvoiceView, amt: U64, now: Timestamp)
    requires I.Consistent(v)
    ensures I.Grammar(v.events) && |v.events| >= 1 && v.held == ParkedBefore(v.events)
    ensures var o := I.Cancel(v, I.Expired, now);
            if |v.events| == 1 || HeldLog(v.events)
            then o.Executed? && o.after.events == v.events + [I.WasCanceled(now, I.Expired)] && o.after.held == v.held
            else if v.events[|v.events| - 1].WasCanceled? then o.AlreadyApplied?
            else o.InvalidTransition?
    ensures var o := I.Settle(v, now);
            if HeldLog(v.events)
            then o.Executed? && o.after.events == v.events + [I.WasSettled(now)] && o.after.held == v.held
            else if v.events[|v.events| - 1].WasSettled? then o.AlreadyApplied?
            else o.InvalidTransition?
    ensures var o := I.MarkHeld(v, amt, now);
            if |v.events| == 1 then o.Executed? && o.after.events == v.events + [I.WasHeld(now, amt)]
            else if EverHeld(v.events) then o.AlreadyApplied?
            else o.InvalidTransition?
  {
    I.StateOfGrammar(v.events);
    hide I.Hydrate;
    assert forall i :: 0 <= i < |v.events| ==> v.events[i] in v.events;
  }

  function SettleReply(log: seq<I.InvoiceEvent>, commits: bool): Reply {
    if HeldLog(log) then (if commits then Committed else TxError)
    else if log != [] && log[|log| - 1].WasSettled? then Duplicate
    else Contradiction
  }

  function CancelReply(log: seq<I.InvoiceEvent>, commits: bool): Reply {
    if |log| == 1 || HeldLog(log) then (if commits then Committed else TxError)
    else if log != [] && log[|log| - 1].WasCanceled? then Duplicate
    else Contradiction
  }

  function HeldReply(log: seq<I.InvoiceEvent>, commits: bool): Reply {
    if |log| == 1 then (if commits then Committed else TxError)
    else if EverHeld(log) then Duplicate
    else Contradiction
  }

  /** Committed exactly when the invoice was resolved; an RPC that failed or whose answer was lost is
      told apart from a transaction that did. */
  function ReconcileReply(st: Store, h: Hash, fault: Fault): Reply {
    if h !in Held(st) then Skipped
    else if fault.LookupFails? || LndOf(st, h).Absent? then RemoteError
    else if LndOf(st, h).LndOpen? then Skipped
    else if Resolves(LndOf(st, h), fault) then Committed
    else if fault.CommitFails? then TxError
    else RemoteError
  }

  /** An error is surfaced for a contradiction or a lost transaction; a failed settle afterwards is
      left to the sweep. */
  function InvoiceReply(st: Store, u: InvoiceUpdate, up: bool): Reply {
    if u.hash !in st.invoices then Skipped
    else if u.state.Accepted? then HeldReply(st.invoices[u.hash], up)
    else if u.state.LndCanceled? then CancelReply(st.invoices[u.hash], up)
    else Skipped
  }

  /** The two terminal commands, read off the loaded log. */
  lemma CommandsOnLog(v: P.PaymentView, preimage: Preimage, fees: U64, reason: FailureReason, now: Timestamp)
    requires P.Consistent(v)
    ensures P.Grammar(v.events) && v.header.amount == v.events[0].amount
    ensures var o := P.Settle(v, preimage, fees, now);
            if Unfinished(v.events)
            then o.Executed? && o.after.events == v.events + [P.WasCompleted(now, preimage, fees)]
            else if v.events[|v.events| - 1].WasFailed? then o.InvalidTransition?
            else o.AlreadyApplied?
    ensures var o := P.Fail(v, reason, now);
            if Unfinished(v.events) then o.Executed? && o.after.events == v.events + [P.WasFailed(now, reason)]
            else if v.events[|v.events| - 1].WasFailed? then o.AlreadyApplied?
            else o.InvalidTransition?
  {
    P.StateOfGrammar(v.events);
    hide P.Hydrate;
    assert forall i :: 0 <= i < |v.events| ==> v.events[i] in v.events;
  }
}
