/** The wire status of an invoice, from the aggregate and from an outbox row. */
module Statuses {
  import opened Primitives
  import opened Outbox
  import I = Invoices

  datatype PaymentStatus = Pending | Paid | Expired

  predicate IsTerminal(s: PaymentStatus) {
    s.Paid? || s.Expired?
  }

  /** No invoice for the hash, or an open one past its expiry, is reported as expired. */
  function InitialStatus(invoice: Option<I.InvoiceView>, now: Timestamp): PaymentStatus {
    if invoice.None? then Expired else
      match invoice.value.state
      case Settled => Paid
      case Canceled => Expired
      case Held => Pending
      case Open => if now >= invoice.value.header.expiryAt then Expired else Pending
  }

  /** The first answer, read off the stored log and the clock. */
  lemma InitialStatusReadsTheLog(log: seq<I.InvoiceEvent>, now: Timestamp)
    requires log == [] || I.Grammar(log)
    ensures var status := InitialStatus(I.Hydrate(log), now);
            && (log == [] ==> status == Expired)
            && (|log| == 1 ==>
                  && (status == Expired <==> now >= log[0].expiryAt)
                  && (status == Pending <==> now < log[0].expiryAt))
            && (|log| > 1 ==>
                  var last := log[|log| - 1];
                  && (status == Pending <==> last.WasHeld?)
                  && (status == Paid <==> last.WasSettled? || last.WasSettledIntraledger?)
                  && (status == Expired <==> last.WasCanceled?))
  {
    I.NothingToHydrate();
    if log != [] {
      I.StateOfGrammar(log);
    }
  }

  function StatusFromBody(b: Body): Option<PaymentStatus> {
    match b
    case HtlcHeld(_, _) => Some(Pending)
    case InvoiceSettled(_, _, _) => Some(Paid)
    case IntraledgerCompleted(_, _, _, _) => Some(Paid)
    case InvoiceCanceled(_, _, _) => Some(Expired)
    case _ => None
  }
}
