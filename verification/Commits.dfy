/** What each terminal writer puts into its one transaction: the events pushed on top of the
    loaded entity and the outbox row published beside them. `None` means that the writer
    returns without opening a transaction (a duplicate, or a refused transition). */
module Commits {
  import opened Primitives
  import opened Amounts
  import opened Outbox
  import Payments
  import Invoices

  datatype PayWrite = PayWrite(push: seq<Payments.PaymentEvent>, body: Option<Body>)
  datatype InvWrite = InvWrite(push: seq<Invoices.InvoiceEvent>, body: Body)

  function Sats(msat: U64): I64 {
    AsI64(WholeSat(msat))
  }

  /** The satoshis of a row are the whole satoshis of the amount, as they reach the wire. */
  lemma SatsReachTheWire(msat: U64)
    ensures ProtoSats(Sats(msat)) * 1000 <= msat < ProtoSats(Sats(msat)) * 1000 + 1000
    ensures msat % 1000 == 0 ==> Sats(msat) * 1000 == msat
  {
    OutboxAmountReachesTheWire(msat);
  }

  /** `loaded` is how many of the view's events are already stored. */
  function CommitCompleted(v: Payments.PaymentView, loaded: nat, preimage: Preimage, fees: U64, now: Timestamp)
    : Option<PayWrite>
    requires loaded <= |v.events|
  {
    match Payments.Settle(v, preimage, fees, now)
    case Executed(after) =>
      Some(PayWrite(after.events[loaded..], Some(PaymentCompleted(Sats(v.header.amount), preimage, fees))))
    case _ => None
  }

  function CommitFailed(v: Payments.PaymentView, loaded: nat, reason: FailureReason, now: Timestamp): Option<PayWrite>
    requires loaded <= |v.events|
  {
    match Payments.Fail(v, reason, now)
    case Executed(after) =>
      Some(PayWrite(after.events[loaded..], Some(PaymentFailed(Sats(v.header.amount), reason))))
    case _ => None
  }

  function SettleInline(v: Payments.PaymentView, preimage: Preimage, fees: U64, now: Timestamp): Option<PayWrite> {
    match Payments.MarkPending(v, now)
    case Executed(after) => CommitCompleted(after, |v.events|, preimage, fees, now)
    case AlreadyApplied => CommitCompleted(v, |v.events|, preimage, fees, now)
    case InvalidTransition(_) => None
  }

  function FailInline(v: Payments.PaymentView, reason: FailureReason, now: Timestamp): Option<PayWrite> {
    match Payments.MarkPending(v, now)
    case Executed(after) => CommitFailed(after, |v.events|, reason, now)
    case AlreadyApplied => CommitFailed(v, |v.events|, reason, now)
    case InvalidTransition(_) => None
  }

  /** `transition_to_pending`: a state update without an outbox row. */
  function CommitPending(v: Payments.PaymentView, now: Timestamp): Option<PayWrite> {
    match Payments.MarkPending(v, now)
    case Executed(after) => Some(PayWrite(after.events[|v.events|..], None))
    case _ => None
  }

  function CommitHeld(v: Invoices.InvoiceView, paid: U64, now: Timestamp): Option<InvWrite> {
    match Invoices.MarkHeld(v, paid, now)
    case Executed(after) => Some(InvWrite(after.events[|v.events|..], HtlcHeld(Sats(paid), paid)))
    case _ => None
  }

  /** A missing parked amount is the `expect` panic: nothing is written. */
  function CommitSettle(v: Invoices.InvoiceView, paid: U64, now: Timestamp): Option<InvWrite> {
    match Invoices.Settle(v, now)
    case Executed(after) =>
      if after.held.None? then None
      else Some(InvWrite(after.events[|v.events|..], InvoiceSettled(Sats(paid), paid, after.held.value)))
    case _ => None
  }

  function CommitCancel(v: Invoices.InvoiceView, paid: U64, now: Timestamp): Option<InvWrite> {
    match Invoices.Cancel(v, Invoices.Expired, now)
    case Executed(after) => Some(InvWrite(after.events[|v.events|..], InvoiceCanceled(Sats(paid), paid, after.held)))
    case _ => None
  }

  // ---- What the writers do on a stored log ----

  /** Terminal writers run exactly on a log that is not yet terminal. */
  predicate Unfinished(events: seq<Payments.PaymentEvent>) {
    Payments.Grammar(events) && (events[|events| - 1].WasInitiated? || events[|events| - 1].WentPending?)
  }

  lemma PaymentWriters(events: seq<Payments.PaymentEvent>, preimage: Preimage, fees: U64, reason: FailureReason,
                       now: Timestamp)
    requires Payments.Grammar(events)
    ensures var v := Payments.Hydrate(events);
            v.Some? && v.value.events == events &&
            var n := |events|;
            var sats := Sats(events[0].amount);
            && CommitCompleted(v.value, n, preimage, fees, now) ==
                 (if Unfinished(events)
                  then Some(PayWrite([Payments.WasCompleted(now, preimage, fees)],
                                     Some(PaymentCompleted(sats, preimage, fees))))
                  else None)
            && CommitFailed(v.value, n, reason, now) ==
                 (if Unfinished(events)
                  then Some(PayWrite([Payments.WasFailed(now, reason)], Some(PaymentFailed(sats, reason))))
                  else None)
  {
    Payments.StateOfGrammar(events);
    assert forall i :: 0 <= i < |events| ==> events[i] in events;
  }

  /** The inline writers of the send path, on a freshly created payment. */
  lemma InlineWriters(events: seq<Payments.PaymentEvent>, preimage: Preimage, fees: U64, reason: FailureReason,
                      now: Timestamp)
    requires Payments.Grammar(events) && |events| == 1
    ensures var v := Payments.Hydrate(events);
            v.Some? && v.value.events == events &&
            var sats := Sats(events[0].amount);
            && CommitPending(v.value, now) == Some(PayWrite([Payments.WentPending(now)], None))
            && SettleInline(v.value, preimage, fees, now) ==
                 Some(PayWrite([Payments.WentPending(now), Payments.WasCompleted(now, preimage, fees)],
                               Some(PaymentCompleted(sats, preimage, fees))))
            && FailInline(v.value, reason, now) ==
                 Some(PayWrite([Payments.WentPending(now), Payments.WasFailed(now, reason)],
                               Some(PaymentFailed(sats, reason))))
  {
    Payments.StateOfGrammar(events);
    var v := Payments.Hydrate(events).value;
    var v1 := Payments.MarkPending(v, now).after;
    assert v1.events == [events[0], Payments.WentPending(now)];
    assert v1.header.amount == events[0].amount;
    assert !Payments.HasCompleted(v1.events) && !Payments.HasFailed(v1.events);
    assert (v1.events + [Payments.WasCompleted(now, preimage, fees)])[1..]
        == [Payments.WentPending(now), Payments.WasCompleted(now, preimage, fees)];
    assert (v1.events + [Payments.WasFailed(now, reason)])[1..]
        == [Payments.WentPending(now), Payments.WasFailed(now, reason)];
  }

  function ParkedBefore(events: seq<Invoices.InvoiceEvent>): Option<U64> {
    if |events| > 1 && events[1].WasHeld? then Some(events[1].parked) else None
  }

  lemma InvoiceWriters(events: seq<Invoices.InvoiceEvent>, paid: U64, now: Timestamp)
    requires Invoices.Grammar(events)
    ensures var v := Invoices.Hydrate(events);
            v.Some? && v.value.events == events &&
            var open := |events| == 1;
            var held := |events| == 2 && events[1].WasHeld?;
            && CommitHeld(v.value, paid, now) ==
                 (if open then Some(InvWrite([Invoices.WasHeld(now, paid)], HtlcHeld(Sats(paid), paid))) else None)
            && CommitSettle(v.value, paid, now) ==
                 (if held
                  then Some(InvWrite([Invoices.WasSettled(now)], InvoiceSettled(Sats(paid), paid, events[1].parked)))
                  else None)
            && CommitCancel(v.value, paid, now) ==
                 (if open || held
                  then Some(InvWrite([Invoices.WasCanceled(now, Invoices.Expired)],
                                     InvoiceCanceled(Sats(paid), paid, ParkedBefore(events))))
                  else None)
  {
    Invoices.StateOfGrammar(events);
    assert forall i :: 0 <= i < |events| ==> events[i] in events;
  }
}
