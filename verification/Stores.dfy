/** The stored state of many hashes as the handlers and sweeps see it between two of their calls,
    and what each handler does to it, stated on the event logs. */
module Stores {
  import opened Primitives
  import opened Amounts
  import opened Outbox
  import opened Commits
  import opened Protocol
  import P = Payments
  import I = Invoices

  datatype Store = Store(
    payments: map<Hash, seq<P.PaymentEvent>>,
    invoices: map<Hash, seq<I.InvoiceEvent>>,
    outbox: seq<Row>,
    nextSeq: int,
    lnd: map<Hash, LndInvoice>)

  predicate StoreOk(st: Store) {
    && (forall h :: h in st.payments ==> P.Grammar(st.payments[h]))
    && (forall h :: h in st.invoices ==> I.Grammar(st.invoices[h]))
    && AllBelow(st.outbox, st.nextSeq)
  }

  function Publish(st: Store, h: Hash, b: Body): Store {
    st.(outbox := st.outbox + [Row(st.nextSeq, h, b)], nextSeq := st.nextSeq + 1)
  }

  lemma PublishedRows(st: Store, h: Hash, b: Body, k: Hash)
    ensures OfHash(Publish(st, h, b).outbox, k) ==
              if k == h then OfHash(st.outbox, k) + [Row(st.nextSeq, h, b)] else OfHash(st.outbox, k)
  {
    OfHashAppend(st.outbox, [Row(st.nextSeq, h, b)], k, h);
  }

  // ---- Payments ----

  datatype PaymentStatus = InFlight | Succeeded | Failed

  datatype PaymentUpdate = PaymentUpdate(
    hash: Hash, status: PaymentStatus, preimage: Option<Preimage>, fees: U64, reason: Option<FailureReason>)

  /** The terminal event an LND report stands for; a success without its preimage is an error. */
  function Verdict(u: PaymentUpdate, noReason: string, now: Timestamp): Option<P.PaymentEvent> {
    match u.status
    case InFlight => None
    case Succeeded => if u.preimage.None? then None else Some(P.WasCompleted(now, u.preimage.value, u.fees))
    case Failed => Some(P.WasFailed(now, if u.reason.Some? then u.reason.value else Other(noReason)))
  }

  predicate IsTerminalEvent(e: P.PaymentEvent) {
    e.WasCompleted? || e.WasFailed?
  }

  function TerminalRow(amount: U64, e: P.PaymentEvent): Body
    requires IsTerminalEvent(e)
  {
    if e.WasCompleted? then PaymentCompleted(Sats(amount), e.preimage, e.fees)
    else PaymentFailed(Sats(amount), e.reason)
  }

  /** A terminal event finishes an unfinished log, with its row; anything else changes nothing. */
  function Finish(st: Store, h: Hash, e: Option<P.PaymentEvent>): Store
    requires e.Some? ==> IsTerminalEvent(e.value)
  {
    if e.None? || h !in st.payments || !Unfinished(st.payments[h]) then st
    else
      var log := st.payments[h];
      Publish(st.(payments := st.payments[h := log + [e.value]]), h, TerminalRow(log[0].amount, e.value))
  }

  const TRACK_NO_REASON := "LND TrackPayments emitted Failed with no reason"
  const LOOKUP_NO_REASON := "LND reported Failed with no reason"

  function HandleUpdate(st: Store, u: PaymentUpdate, now: Timestamp): Store {
    Finish(st, u.hash, Verdict(u, TRACK_NO_REASON, now))
  }

  lemma FinishKeepsOk(st: Store, h: Hash, e: Option<P.PaymentEvent>)
    requires StoreOk(st) && (e.Some? ==> IsTerminalEvent(e.value))
    ensures StoreOk(Finish(st, h, e))
    ensures h in st.payments && e.Some? ==> !Unfinished(Finish(st, h, e).payments[h])
  {
  }

  /** One TrackPayments update of a payment that is not finished: a success with its preimage is stored as
      Completed with that preimage and fee, a failure as Failed with its reason, each with its row;
      in-flight updates and a success without its preimage store nothing. */
  lemma UpdateIsStored(st: Store, u: PaymentUpdate, now: Timestamp)
    requires StoreOk(st) && u.hash in st.payments && Unfinished(st.payments[u.hash])
    ensures var log, st' := st.payments[u.hash], HandleUpdate(st, u, now);
            var sats := Sats(log[0].amount);
            var silent := "LND TrackPayments emitted Failed with no reason";
            var reason := if u.reason.Some? then u.reason.value else Other(silent);
            if u.status.Succeeded? && u.preimage.Some? then
              && st'.payments[u.hash] == log + [P.WasCompleted(now, u.preimage.value, u.fees)]
              && st'.outbox == st.outbox + [Row(st.nextSeq, u.hash, PaymentCompleted(sats, u.preimage.value, u.fees))]
            else if u.status.Failed? then
              && st'.payments[u.hash] == log + [P.WasFailed(now, reason)]
              && st'.outbox == st.outbox + [Row(st.nextSeq, u.hash, PaymentFailed(sats, reason))]
            else st' == st
  {
  }

  // ---- Replay of TrackPayments ----

  datatype Delivery = Delivery(update: PaymentUpdate, at: Timestamp)

  function HandleAll(st: Store, ds: seq<Delivery>): Store
    decreases |ds|
  {
    if ds == [] then st else
      HandleAll(HandleUpdate(st, ds[0].update, ds[0].at), ds[1..])
  }

  function FirstVerdict(ds: seq<Delivery>): (e: Option<P.PaymentEvent>)
    ensures e.Some? ==> IsTerminalEvent(e.value)
    decreases |ds|
  {
    if ds == [] then None else
      var e := Verdict(ds[0].update, TRACK_NO_REASON, ds[0].at);
      if e.Some? then e else FirstVerdict(ds[1..])
  }

  /** Replay safety: however often the updates of a hash are delivered, wherever in-flight ones come
      in between, and even if later ones contradict, log and outbox are those of handling the
      first terminal update alone. */
  lemma {:induction false} ReplayIsItsFirstVerdict(st: Store, h: Hash, ds: seq<Delivery>)
    requires StoreOk(st) && forall k :: 0 <= k < |ds| ==> ds[k].update.hash == h
    ensures HandleAll(st, ds) == Finish(st, h, FirstVerdict(ds))
    decreases |ds|
  {
    if ds != [] {
      var e := Verdict(ds[0].update, TRACK_NO_REASON, ds[0].at);
      FinishKeepsOk(st, h, e);
      ReplayIsItsFirstVerdict(Finish(st, h, e), h, ds[1..]);
    }
  }

  /** LND reports an outcome opposite to the stored one; the handler surfaces it as an error. */
  predicate Contradicts(log: seq<P.PaymentEvent>, u: PaymentUpdate) {
    && P.Grammar(log)
    && ((u.status.Succeeded? && u.preimage.Some? && log[|log| - 1].WasFailed?)
        || (u.status.Failed? && (log[|log| - 1].WasCompleted? || log[|log| - 1].WasReversed?)))
  }

  /** Terminal updates that agree are never refused, whatever is repeated. */
  lemma {:induction false} AgreeingUpdatesNeverContradict(st: Store, h: Hash, ds: seq<Delivery>, k: nat)
    requires StoreOk(st) && h in st.payments && Unfinished(st.payments[h]) && k < |ds|
    requires forall i :: 0 <= i < |ds| ==> ds[i].update.hash == h
    requires forall i, j :: 0 <= i < |ds| && 0 <= j < |ds| ==>
               || ds[i].update.status.InFlight? || ds[j].update.status.InFlight?
               || ds[i].update.status == ds[j].update.status
    ensures var after := HandleAll(st, ds[..k]).payments; h in after && !Contradicts(after[h], ds[k].update)
  {
    ReplayIsItsFirstVerdict(st, h, ds[..k]);
    FirstVerdictIsDelivered(ds[..k]);
  }

  lemma {:induction false} FirstVerdictIsDelivered(ds: seq<Delivery>)
    ensures FirstVerdict(ds).Some? ==>
              exists i :: 0 <= i < |ds| && Verdict(ds[i].update, TRACK_NO_REASON, ds[i].at) == FirstVerdict(ds)
    decreases |ds|
  {
    if ds != [] && Verdict(ds[0].update, TRACK_NO_REASON, ds[0].at).None? {
      FirstVerdictIsDelivered(ds[1..]);
      if FirstVerdict(ds).Some? {
        var i :| 0 <= i < |ds[1..]| && Verdict(ds[1..][i].update, TRACK_NO_REASON, ds[1..][i].at) == FirstVerdict(ds);
        assert ds[i + 1] == ds[1..][i];
      }
    }
  }

  // ---- The orphan-hold sweep ----

  /** How the lookup of one stranded payment, and the commit after it, went. */
  datatype Lookup = NotFound | RpcError | TimedOut | Found(report: PaymentUpdate, commits: bool)

  function LookupVerdict(l: Lookup, now: Timestamp): (e: Option<P.PaymentEvent>)
    ensures e.Some? ==> IsTerminalEvent(e.value)
  {
    if l.Found? && l.commits then Verdict(l.report, LOOKUP_NO_REASON, now) else None
  }

  predicate InitiatedLog(log: seq<P.PaymentEvent>) {
    log != [] && log[|log| - 1].WasInitiated?
  }

  function Stranded(st: Store): set<Hash> {
    set h | h in st.payments && InitiatedLog(st.payments[h])
  }

  function LookupOf(lookups: map<Hash, Lookup>, h: Hash): Lookup {
    if h in lookups then lookups[h] else NotFound
  }

  function ReconcileOrphan(st: Store, h: Hash, l: Lookup, now: Timestamp): Store {
    if h in Stranded(st) then Finish(st, h, LookupVerdict(l, now)) else st
  }

  /** What a store says about one outgoing payment. */
  datatype PayPart = PayPart(log: Option<seq<P.PaymentEvent>>, bodies: seq<Body>)

  function PayPartOf(st: Store, h: Hash): PayPart {
    PayPart(if h in st.payments then Some(st.payments[h]) else None, Bodies(OfHash(st.outbox, h)))
  }

  predicate PartStranded(p: PayPart) {
    p.log.Some? && P.Grammar(p.log.value) && InitiatedLog(p.log.value)
  }

  /** A stranded payment whose real outcome is known and committed gets that event and its row. */
  function OrphanPart(p: PayPart, l: Lookup, now: Timestamp): PayPart {
    var e := LookupVerdict(l, now);
    if !PartStranded(p) || e.None? then p
    else PayPart(Some(p.log.value + [e.value]), p.bodies + [TerminalRow(p.log.value[0].amount, e.value)])
  }

  /** A terminal event on an unfinished log, with its row. */
  function FinishPart(p: PayPart, e: Option<P.PaymentEvent>): PayPart
    requires e.Some? ==> IsTerminalEvent(e.value)
  {
    if e.None? || p.log.None? || !Unfinished(p.log.value) then p
    else PayPart(Some(p.log.value + [e.value]), p.bodies + [TerminalRow(p.log.value[0].amount, e.value)])
  }

  lemma FinishIsLocal(st: Store, h: Hash, e: Option<P.PaymentEvent>)
    requires e.Some? ==> IsTerminalEvent(e.value)
    ensures PayPartOf(Finish(st, h, e), h) == FinishPart(PayPartOf(st, h), e)
  {
    hide OfHash, Bodies;
    if e.Some? && h in st.payments && Unfinished(st.payments[h]) {
      var body := TerminalRow(st.payments[h][0].amount, e.value);
      PublishedRows(st, h, body, h);
      PublishedBodies(st, h, body);
    }
  }

  /** One reconcile does exactly that to its payment, and touches no other and no invoice. */
  lemma OrphanOutcome(st: Store, h: Hash, l: Lookup, now: Timestamp, k: Hash)
    requires StoreOk(st)
    ensures var st' := ReconcileOrphan(st, h, l, now);
            && StoreOk(st') && st'.invoices == st.invoices && st'.lnd == st.lnd
            && PayPartOf(st', k) == (if k == h then OrphanPart(PayPartOf(st, k), l, now) else PayPartOf(st, k))
  {
    var e := LookupVerdict(l, now);
    FinishKeepsOk(st, h, e);
    if h in Stranded(st) && e.Some? {
      hide OfHash, Bodies, StoreOk;
      var body := TerminalRow(st.payments[h][0].amount, e.value);
      PublishedRows(st, h, body, k);
      PublishedBodies(st, h, body);
    }
  }

  lemma OrphanLeavesInitiated(st: Store, h: Hash, l: Lookup, now: Timestamp)
    requires StoreOk(st)
    ensures Stranded(ReconcileOrphan(st, h, l, now)) ==
              if LookupVerdict(l, now).Some? then Stranded(st) - {h} else Stranded(st)
  {
    hide StoreOk, P.Grammar;
    assert h in Stranded(st) ==> Unfinished(st.payments[h]) by {
      LogsInGrammar(st, h);
    }
  }

  lemma LogsInGrammar(st: Store, h: Hash)
    requires StoreOk(st)
    ensures h in st.payments ==> P.Grammar(st.payments[h])
    ensures h in st.invoices ==> I.Grammar(st.invoices[h])
  {
  }

  function OrphanAll(st: Store, hs: seq<Hash>, lookups: map<Hash, Lookup>, now: Timestamp): Store {
    if hs == [] then st else
      var last := hs[|hs| - 1];
      ReconcileOrphan(OrphanAll(st, hs[..|hs| - 1], lookups, now), last, LookupOf(lookups, last), now)
  }

  /** A sweep, over any list with any repetition, is each listed payment reconciled alone: its event,
      its row, and nothing on the payments that are not listed. */
  lemma {:induction false} OrphanSweepIsPointwise(
      st: Store, hs: seq<Hash>, lookups: map<Hash, Lookup>, now: Timestamp, k: Hash)
    requires StoreOk(st)
    ensures var st' := OrphanAll(st, hs, lookups, now);
            && StoreOk(st') && st'.invoices == st.invoices && st'.lnd == st.lnd
            && PayPartOf(st', k) ==
                 (if k in hs then OrphanPart(PayPartOf(st, k), LookupOf(lookups, k), now) else PayPartOf(st, k))
  {
    hide StoreOk, PayPartOf, ReconcileOrphan, OrphanPart;
    if hs != [] {
      var front, last := hs[..|hs| - 1], hs[|hs| - 1];
      assert hs == front + [last];
      OrphanSweepIsPointwise(st, front, lookups, now, k);
      OrphanOutcome(OrphanAll(st, front, lookups, now), last, LookupOf(lookups, last), now, k);
      OrphanPartOnce(PayPartOf(st, k), LookupOf(lookups, k), now);
    }
  }

  lemma OrphanPartOnce(p: PayPart, l: Lookup, now: Timestamp)
    ensures OrphanPart(OrphanPart(p, l, now), l, now) == OrphanPart(p, l, now)
  {
  }

  // ---- Held invoices ----

  /** What goes wrong while one held invoice is reconciled. */
  datatype Fault = NoFault | LookupFails | SettleFails | AnswerLost | CommitFails

  function FaultOf(faults: map<Hash, Fault>, h: Hash): Fault {
    if h in faults then faults[h] else NoFault
  }

  function LndOf(st: Store, h: Hash): LndInvoice {
    if h in st.lnd then st.lnd[h] else Absent
  }

  predicate HeldLog(log: seq<I.InvoiceEvent>) {
    |log| == 2 && log[1].WasHeld?
  }

  function Held(st: Store): set<Hash> {
    set h | h in st.invoices && HeldLog(st.invoices[h])
  }

  function ClosingRow(parked: U64, settled: bool, amt: U64): Body {
    if settled then InvoiceSettled(Sats(amt), amt, parked) else InvoiceCanceled(Sats(amt), amt, Some(parked))
  }

  function ClosingEvent(settled: bool, now: Timestamp): I.InvoiceEvent {
    if settled then I.WasSettled(now) else I.WasCanceled(now, I.Expired)
  }

  function CloseHeld(st: Store, h: Hash, settled: bool, amt: U64, now: Timestamp): Store
    requires h in Held(st)
  {
    var log := st.invoices[h];
    Publish(st.(invoices := st.invoices[h := log + [ClosingEvent(settled, now)]]), h,
            ClosingRow(log[1].parked, settled, amt))
  }

  function Reconcile(st: Store, h: Hash, fault: Fault, now: Timestamp): Store {
    if h !in Held(st) || fault.LookupFails? then st else
      match LndOf(st, h)
      case Absent => st
      case LndOpen => st
      case LndSettled(amt) => if fault.CommitFails? then st else CloseHeld(st, h, true, amt, now)
      case LndCanceled(amt) => if fault.CommitFails? then st else CloseHeld(st, h, false, amt, now)
      case Accepted(amt) =>
        if fault.SettleFails? then st else
          var st1 := st.(lnd := st.lnd[h := LndSettled(amt)]);
          if fault.NoFault? then CloseHeld(st1, h, true, amt, now) else st1
  }

  predicate Resolves(l: LndInvoice, fault: Fault) {
    match l
    case Accepted(_) => fault.NoFault?
    case LndSettled(_) => !fault.LookupFails? && !fault.CommitFails?
    case LndCanceled(_) => !fault.LookupFails? && !fault.CommitFails?
    case Absent => false
    case LndOpen => false
  }

  /** What a store says about one hash. */
  datatype Part = Part(log: Option<seq<I.InvoiceEvent>>, lnd: LndInvoice, bodies: seq<Body>)

  function PartOf(st: Store, h: Hash): Part {
    Part(if h in st.invoices then Some(st.invoices[h]) else None, LndOf(st, h), Bodies(OfHash(st.outbox, h)))
  }

  predicate PartHeld(p: Part) {
    p.log.Some? && HeldLog(p.log.value)
  }

  lemma CloseOutcome(st: Store, h: Hash, settled: bool, amt: U64, now: Timestamp)
    requires StoreOk(st) && h in Held(st)
    ensures var st' := CloseHeld(st, h, settled, amt, now);
            var p := PartOf(st, h);
            && StoreOk(st') && st'.payments == st.payments
            && PartOf(st', h) == Part(Some(p.log.value + [ClosingEvent(settled, now)]), p.lnd,
                                      p.bodies + [ClosingRow(p.log.value[1].parked, settled, amt)])
  {
    hide OfHash, Bodies, ClosingRow;
    var body := ClosingRow(st.invoices[h][1].parked, settled, amt);
    PublishedRows(st, h, body, h);
    PublishedBodies(st, h, body);
  }

  lemma LndIsNotStored(st: Store, lnd: map<Hash, LndInvoice>)
    requires StoreOk(st)
    ensures StoreOk(st.(lnd := lnd))
  {
  }

  /** What one reconcile makes of what the store says about a hash. */
  function ReconcilePart(p: Part, fault: Fault, now: Timestamp): Part {
    if !PartHeld(p) then p
    else if Resolves(p.lnd, fault) then
      var settled := !p.lnd.LndCanceled?;
      Part(Some(p.log.value + [ClosingEvent(settled, now)]), if p.lnd.Accepted? then LndSettled(p.lnd.amt) else p.lnd,
           p.bodies + [ClosingRow(p.log.value[1].parked, settled, p.lnd.amt)])
    else if p.lnd.Accepted? && (fault.AnswerLost? || fault.CommitFails?) then p.(lnd := LndSettled(p.lnd.amt))
    else p
  }

  lemma ReconcileIsLocal(st: Store, h: Hash, fault: Fault, now: Timestamp)
    requires StoreOk(st)
    ensures var st' := Reconcile(st, h, fault, now);
            StoreOk(st') && st'.payments == st.payments && PartOf(st', h) == ReconcilePart(PartOf(st, h), fault, now)
  {
    hide StoreOk, CloseHeld, OfHash, Bodies, ClosingRow, ClosingEvent;
    if h in Held(st) {
      match LndOf(st, h)
      case LndSettled(amt) => CloseOutcome(st, h, true, amt, now);
      case LndCanceled(amt) => CloseOutcome(st, h, false, amt, now);
      case Accepted(amt) =>
        LndIsNotStored(st, st.lnd[h := LndSettled(amt)]);
        CloseOutcome(st.(lnd := st.lnd[h := LndSettled(amt)]), h, true, amt, now);
      case _ =>
    }
  }

  /** One reconcile: the invoice becomes terminal with LND's outcome and one more row, exactly when
      nothing goes wrong before the commit; the pending amount released is the parked one. */
  lemma ReconcileOutcome(st: Store, h: Hash, fault: Fault, now: Timestamp)
    requires StoreOk(st)
    ensures var st' := Reconcile(st, h, fault, now);
            var p, q := PartOf(st, h), PartOf(st', h);
            && StoreOk(st') && st'.payments == st.payments
            && (if PartHeld(p) && Resolves(p.lnd, fault)
                then
                  && (q.lnd.LndSettled? || q.lnd.LndCanceled?)
                  && (q.lnd.LndCanceled? <==> p.lnd.LndCanceled?)
                  && q.log == Some(p.log.value + [ClosingEvent(q.lnd.LndSettled?, now)])
                  && q.bodies == p.bodies + [ClosingRow(p.log.value[1].parked, q.lnd.LndSettled?, q.lnd.amt)]
                else q.log == p.log && q.bodies == p.bodies)
  {
    hide StoreOk, Reconcile, PartOf;
    ReconcileIsLocal(st, h, fault, now);
  }

  lemma PublishedBodies(st: Store, h: Hash, b: Body)
    ensures Bodies(OfHash(st.outbox, h) + [Row(st.nextSeq, h, b)]) == Bodies(OfHash(st.outbox, h)) + [b]
  {
  }

  lemma CloseLeavesOthers(st: Store, h: Hash, settled: bool, amt: U64, now: Timestamp, k: Hash)
    requires h in Held(st) && k != h
    ensures PartOf(CloseHeld(st, h, settled, amt, now), k) == PartOf(st, k)
  {
    hide OfHash, Bodies, ClosingEvent, ClosingRow;
    PublishedRows(st, h, ClosingRow(st.invoices[h][1].parked, settled, amt), k);
  }

  lemma ReconcileLeavesOthers(st: Store, h: Hash, fault: Fault, now: Timestamp, k: Hash)
    requires k != h
    ensures PartOf(Reconcile(st, h, fault, now), k) == PartOf(st, k)
  {
    hide OfHash, Bodies, CloseHeld;
    if h in Held(st) {
      match LndOf(st, h)
      case LndSettled(amt) => CloseLeavesOthers(st, h, true, amt, now, k);
      case LndCanceled(amt) => CloseLeavesOthers(st, h, false, amt, now, k);
      case Accepted(amt) => CloseLeavesOthers(st.(lnd := st.lnd[h := LndSettled(amt)]), h, true, amt, now, k);
      case _ =>
    }
  }

  function ReconcileAll(st: Store, hs: seq<Hash>, faults: map<Hash, Fault>, now: Timestamp): Store {
    if hs == [] then st else
      var last := hs[|hs| - 1];
      Reconcile(ReconcileAll(st, hs[..|hs| - 1], faults, now), last, FaultOf(faults, last), now)
  }

  predicate Distinct(hs: seq<Hash>) {
    forall i, j :: 0 <= i < j < |hs| ==> hs[i] != hs[j]
  }

  /** A sweep over distinct hashes is each of them reconciled alone: an error in one is skipped
      without a trace in the others, and hashes not listed are untouched. */
  lemma {:induction false} SweepIsPointwise(st: Store, hs: seq<Hash>, faults: map<Hash, Fault>, now: Timestamp, k: Hash)
    requires StoreOk(st) && Distinct(hs)
    ensures var st' := ReconcileAll(st, hs, faults, now);
            && StoreOk(st')
            && PartOf(st', k) ==
                 (if k in hs then ReconcilePart(PartOf(st, k), FaultOf(faults, k), now) else PartOf(st, k))
  {
    hide Reconcile, PartOf, StoreOk, ReconcilePart;
    if hs != [] {
      var front, last := hs[..|hs| - 1], hs[|hs| - 1];
      var mid := ReconcileAll(st, front, faults, now);
      assert hs == front + [last] && last !in front;
      SweepIsPointwise(st, front, faults, now, k);
      ReconcileIsLocal(mid, last, FaultOf(faults, last), now);
      if k != last {
        ReconcileLeavesOthers(mid, last, FaultOf(faults, last), now, k);
      }
    }
  }

  // ---- How many stay held ----

  /** After a sweep exactly those are still held that were held and not listed, or that met a fault
      or an LND invoice not past Open. */
  lemma SweepHeld(st: Store, hs: seq<Hash>, faults: map<Hash, Fault>, now: Timestamp)
    requires StoreOk(st) && Distinct(hs)
    ensures Held(ReconcileAll(st, hs, faults, now)) ==
              set h | h in Held(st) && !(h in hs && Resolves(LndOf(st, h), FaultOf(faults, h)))
  {
    hide Reconcile, StoreOk, ReconcileAll;
    var st' := ReconcileAll(st, hs, faults, now);
    forall k
      ensures k in Held(st') <==> k in Held(st) && !(k in hs && Resolves(LndOf(st, k), FaultOf(faults, k)))
    {
      SweepIsPointwise(st, hs, faults, now, k);
      assert k in Held(st') <==> PartHeld(PartOf(st', k));
      assert k in Held(st) <==> PartHeld(PartOf(st, k));
    }
  }

  function Listed(hs: seq<Hash>): set<Hash> {
    set h | h in hs
  }

  lemma {:induction false} ListedSize(hs: seq<Hash>)
    requires Distinct(hs)
    ensures |Listed(hs)| == |hs|
  {
    if hs != [] {
      var front, last := hs[..|hs| - 1], hs[|hs| - 1];
      assert hs == front + [last] && last !in front;
      assert Listed(hs) == Listed(front) + {last};
      ListedSize(front);
    } else {
      assert Listed(hs) == {};
    }
  }

  /** A failure-free sweep takes every listed invoice out of Held. */
  lemma CleanSweepCounts(st: Store, hs: seq<Hash>, now: Timestamp)
    requires StoreOk(st) && Distinct(hs)
    requires forall h :: h in hs ==> h in Held(st) && Resolves(LndOf(st, h), NoFault)
    ensures |Held(ReconcileAll(st, hs, map[], now))| == |Held(st)| - |hs|
  {
    SweepHeld(st, hs, map[], now);
    ListedSize(hs);
    hide ReconcileAll, Held, StoreOk;
    assert Held(ReconcileAll(st, hs, map[], now)) == Held(st) - Listed(hs);
    assert Listed(hs) <= Held(st);
  }

  // ---- Invoice updates ----

  datatype InvoiceUpdate = InvoiceUpdate(hash: Hash, state: LndInvoice)

  /** `transition_to_held`: the first Accepted parks the amount; a later one changes nothing. */
  function Park(st: Store, h: Hash, amt: U64, now: Timestamp): Store
    requires h in st.invoices
  {
    if |st.invoices[h]| != 1 then st
    else Publish(st.(invoices := st.invoices[h := st.invoices[h] + [I.WasHeld(now, amt)]]), h, HtlcHeld(Sats(amt), amt))
  }

  predicate EverHeld(log: seq<I.InvoiceEvent>) {
    |log| > 1 && log[1].WasHeld?
  }

  /** Cancel of an Open invoice or a Held one; of any other it is a duplicate or refused. */
  function CancelRow(st: Store, h: Hash, amt: U64, now: Timestamp): Store
    requires h in st.invoices
  {
    if h in Held(st) then CloseHeld(st, h, false, amt, now)
    else if |st.invoices[h]| != 1 then st
    else Publish(st.(invoices := st.invoices[h := st.invoices[h] + [ClosingEvent(false, now)]]), h,
                 InvoiceCanceled(Sats(amt), amt, None))
  }

  /** `up` is whether the handler's own transaction is served, `fault` how the settle after it goes. */
  function HandleInvoice(st: Store, u: InvoiceUpdate, up: bool, fault: Fault, now: Timestamp): Store {
    var h := u.hash;
    if h !in st.invoices then st else
      match u.state
      case Accepted(amt) =>
        if |st.invoices[h]| == 1 then (if up then Reconcile(Park(st, h, amt, now), h, fault, now) else st)
        else if EverHeld(st.invoices[h]) then Reconcile(st, h, fault, now)
        else st
      case LndCanceled(amt) => if up then CancelRow(st, h, amt, now) else st
      case Absent => st
      case LndOpen => st
      case LndSettled(_) => st
  }

  // ---- Replay of invoice updates ----

  /** The row that goes with an event on top of a log. */
  predicate RowFor(log: seq<I.InvoiceEvent>, e: I.InvoiceEvent, b: Body) {
    match e
    case WasHeld(_, parked) => b == HtlcHeld(Sats(parked), parked)
    case WasSettled(_) => HeldLog(log) && b.InvoiceSettled? && b.held == log[1].parked
    case WasCanceled(_, _) => b.InvoiceCanceled? && b.heldBefore == ParkedBefore(log)
    case _ => false
  }

  /** A part before its last event and row. */
  function Front(q: Part): Part
    requires q.log.Some? && q.log.value != [] && q.bodies != []
  {
    Part(Some(q.log.value[..|q.log.value| - 1]), q.lnd, q.bodies[..|q.bodies| - 1])
  }

  predicate LastFits(q: Part) {
    && q.log.Some? && q.log.value != [] && q.bodies != [] && I.Grammar(q.log.value)
    && RowFor(Front(q).log.value, q.log.value[|q.log.value| - 1], q.bodies[|q.bodies| - 1])
  }

  /** The invoice only moved forward, and every new event published its row. */
  predicate Extends(p: Part, q: Part)
    decreases |q.bodies|
  {
    (q.log == p.log && q.bodies == p.bodies) || (LastFits(q) && Extends(p, Front(q)))
  }

  lemma {:induction false} ExtendsTrans(p: Part, q: Part, r: Part)
    requires Extends(p, q) && Extends(q, r)
    ensures Extends(p, r)
    decreases |r.bodies|
  {
    if r.log == q.log && r.bodies == q.bodies {
      ExtendsIgnoresLnd(p, q, r);
    } else {
      ExtendsTrans(p, q, Front(r));
    }
  }

  lemma {:induction false} ExtendsIgnoresLnd(p: Part, q: Part, r: Part)
    requires Extends(p, q) && r.log == q.log && r.bodies == q.bodies
    ensures Extends(p, r)
    decreases |q.bodies|
  {
    if !(q.log == p.log && q.bodies == p.bodies) {
      ExtendsIgnoresLnd(p, Front(q), Front(r));
    }
  }

  /** One event and its row on top of a log. */
  lemma ExtendsByOne(p: Part, e: I.InvoiceEvent, b: Body, lnd: LndInvoice)
    requires p.log.Some? && I.Grammar(p.log.value + [e]) && RowFor(p.log.value, e, b)
    ensures Extends(p, Part(Some(p.log.value + [e]), lnd, p.bodies + [b]))
  {
    var q := Part(Some(p.log.value + [e]), lnd, p.bodies + [b]);
    assert Front(q).log.value == p.log.value && Front(q).bodies == p.bodies;
  }

  lemma ReconcileExtends(st: Store, h: Hash, fault: Fault, now: Timestamp)
    requires StoreOk(st)
    ensures Extends(PartOf(st, h), PartOf(Reconcile(st, h, fault, now), h))
  {
    ReconcileIsLocal(st, h, fault, now);
    LogsInGrammar(st, h);
    var p := PartOf(st, h);
    hide StoreOk, Reconcile, PartOf;
    if PartHeld(p) && Resolves(p.lnd, fault) {
      var log, settled := p.log.value, !p.lnd.LndCanceled?;
      ExtendsByOne(p, ClosingEvent(settled, now), ClosingRow(log[1].parked, settled, p.lnd.amt),
                   ReconcilePart(p, fault, now).lnd);
    }
  }

  lemma ParkExtends(st: Store, h: Hash, amt: U64, now: Timestamp)
    requires StoreOk(st) && h in st.invoices
    ensures StoreOk(Park(st, h, amt, now)) && Extends(PartOf(st, h), PartOf(Park(st, h, amt, now), h))
  {
    if |st.invoices[h]| == 1 {
      ParkOutcome(st, h, amt, now);
      hide OfHash, Bodies, Park, StoreOk;
      ExtendsByOne(PartOf(st, h), I.WasHeld(now, amt), HtlcHeld(Sats(amt), amt), LndOf(st, h));
    }
  }

  lemma CancelExtends(st: Store, h: Hash, amt: U64, now: Timestamp)
    requires StoreOk(st) && h in st.invoices
    ensures StoreOk(CancelRow(st, h, amt, now)) && Extends(PartOf(st, h), PartOf(CancelRow(st, h, amt, now), h))
  {
    hide OfHash, Bodies;
    var p := PartOf(st, h);
    var log, e := st.invoices[h], ClosingEvent(false, now);
    if h in Held(st) {
      CloseOutcome(st, h, false, amt, now);
      ExtendsByOne(p, e, ClosingRow(log[1].parked, false, amt), p.lnd);
    } else if |log| == 1 {
      PublishedRows(st, h, InvoiceCanceled(Sats(amt), amt, None), h);
      PublishedBodies(st, h, InvoiceCanceled(Sats(amt), amt, None));
      ExtendsByOne(p, e, InvoiceCanceled(Sats(amt), amt, None), p.lnd);
    }
  }

  lemma AcceptedExtends(st: Store, h: Hash, amt: U64, fault: Fault, now: Timestamp)
    requires StoreOk(st) && h in st.invoices
    ensures var st' := Reconcile(Park(st, h, amt, now), h, fault, now);
            StoreOk(st') && Extends(PartOf(st, h), PartOf(st', h))
  {
    hide StoreOk, Reconcile, Park, PartOf, ReconcilePart, Extends;
    var parked := Park(st, h, amt, now);
    ParkExtends(st, h, amt, now);
    ReconcileIsLocal(parked, h, fault, now);
    ReconcileExtends(parked, h, fault, now);
    ExtendsTrans(PartOf(st, h), PartOf(parked, h), PartOf(Reconcile(parked, h, fault, now), h));
  }

  /** Handling one update of any kind, with any fault, moves the invoice forward. */
  lemma HandleInvoiceExtends(st: Store, u: InvoiceUpdate, up: bool, fault: Fault, now: Timestamp)
    requires StoreOk(st)
    ensures var st' := HandleInvoice(st, u, up, fault, now);
            StoreOk(st') && Extends(PartOf(st, u.hash), PartOf(st', u.hash))
  {
    hide StoreOk, Reconcile, Park, CancelRow, PartOf, ReconcilePart, LastFits;
    if u.hash in st.invoices {
      if u.state.Accepted? {
        AcceptedExtends(st, u.hash, u.state.amt, fault, now);
        ReconcileIsLocal(st, u.hash, fault, now);
        ReconcileExtends(st, u.hash, fault, now);
      } else if u.state.LndCanceled? {
        CancelExtends(st, u.hash, u.state.amt, now);
      }
    }
  }

  function ParkPart(p: Part, amt: U64, now: Timestamp): Part {
    if p.log.None? || |p.log.value| != 1 then p
    else Part(Some(p.log.value + [I.WasHeld(now, amt)]), p.lnd, p.bodies + [HtlcHeld(Sats(amt), amt)])
  }

  function CancelPart(p: Part, amt: U64, now: Timestamp): Part {
    if p.log.None? || !(|p.log.value| == 1 || HeldLog(p.log.value)) then p
    else Part(Some(p.log.value + [ClosingEvent(false, now)]), p.lnd,
              p.bodies + [InvoiceCanceled(Sats(amt), amt, ParkedBefore(p.log.value))])
  }

  /** What one update makes of what the store says about its hash. */
  function HandlePart(p: Part, state: LndInvoice, up: bool, fault: Fault, now: Timestamp): Part {
    if p.log.None? then p else
      match state
      case Accepted(amt) =>
        if |p.log.value| == 1 then (if up then ReconcilePart(ParkPart(p, amt, now), fault, now) else p)
        else if EverHeld(p.log.value) then ReconcilePart(p, fault, now)
        else p
      case LndCanceled(amt) => if up then CancelPart(p, amt, now) else p
      case Absent => p
      case LndOpen => p
      case LndSettled(_) => p
  }

  lemma CancelIsLocal(st: Store, h: Hash, amt: U64, now: Timestamp)
    requires StoreOk(st) && h in st.invoices
    ensures PartOf(CancelRow(st, h, amt, now), h) == CancelPart(PartOf(st, h), amt, now)
  {
    hide OfHash, Bodies, StoreOk, ClosingEvent, Sats;
    if h in Held(st) {
      CloseOutcome(st, h, false, amt, now);
    } else if |st.invoices[h]| == 1 {
      PublishedRows(st, h, InvoiceCanceled(Sats(amt), amt, None), h);
      PublishedBodies(st, h, InvoiceCanceled(Sats(amt), amt, None));
    }
  }

  lemma HandleInvoiceIsLocal(st: Store, u: InvoiceUpdate, up: bool, fault: Fault, now: Timestamp)
    requires StoreOk(st)
    ensures PartOf(HandleInvoice(st, u, up, fault, now), u.hash)
         == HandlePart(PartOf(st, u.hash), u.state, up, fault, now)
  {
    hide StoreOk, Reconcile, Park, CancelRow, PartOf, ReconcilePart, CancelPart;
    var h := u.hash;
    PartFields(st, h);
    if h in st.invoices {
      if u.state.Accepted? && |st.invoices[h]| == 1 {
        ParkOutcome(st, h, u.state.amt, now);
        ReconcileIsLocal(Park(st, h, u.state.amt, now), h, fault, now);
      } else if u.state.Accepted? {
        ReconcileIsLocal(st, h, fault, now);
      } else if u.state.LndCanceled? {
        CancelIsLocal(st, h, u.state.amt, now);
      }
    }
  }

  lemma HandleInvoiceLeavesOthers(st: Store, u: InvoiceUpdate, up: bool, fault: Fault, now: Timestamp, k: Hash)
    requires k != u.hash
    ensures PartOf(HandleInvoice(st, u, up, fault, now), k) == PartOf(st, k)
  {
    var h := u.hash;
    hide Reconcile, OfHash, Bodies, ClosingEvent, ClosingRow;
    if h in st.invoices {
      if u.state.Accepted? {
        var amt := u.state.amt;
        PublishedRows(st, h, HtlcHeld(Sats(amt), amt), k);
        ReconcileLeavesOthers(Park(st, h, amt, now), h, fault, now, k);
        ReconcileLeavesOthers(st, h, fault, now, k);
      } else if u.state.LndCanceled? && h in Held(st) {
        CloseLeavesOthers(st, h, false, u.state.amt, now, k);
      } else if u.state.LndCanceled? {
        PublishedRows(st, h, InvoiceCanceled(Sats(u.state.amt), u.state.amt, None), k);
      }
    }
  }

  /** One delivery: what LND's invoice is at that moment, whether the handler's transaction is
      served, and what goes wrong in the settle after it. */
  datatype InvoiceDelivery =
    InvoiceDelivery(state: LndInvoice, atLnd: LndInvoice, up: bool, fault: Fault, at: Timestamp)

  function HandleInvoices(st: Store, h: Hash, ds: seq<InvoiceDelivery>): Store {
    if ds == [] then st else
      var d := ds[|ds| - 1];
      var before := HandleInvoices(st, h, ds[..|ds| - 1]);
      HandleInvoice(before.(lnd := before.lnd[h := d.atLnd]), InvoiceUpdate(h, d.state), d.up, d.fault, d.at)
  }

  lemma {:induction false} DeliveriesExtend(st: Store, h: Hash, ds: seq<InvoiceDelivery>)
    requires StoreOk(st)
    ensures var st' := HandleInvoices(st, h, ds); StoreOk(st') && Extends(PartOf(st, h), PartOf(st', h))
  {
    hide StoreOk, HandleInvoice, OfHash, Bodies, LastFits;
    if ds != [] {
      var d := ds[|ds| - 1];
      var mid := HandleInvoices(st, h, ds[..|ds| - 1]);
      DeliveriesExtend(st, h, ds[..|ds| - 1]);
      LndIsNotStored(mid, mid.lnd[h := d.atLnd]);
      var seen := mid.(lnd := mid.lnd[h := d.atLnd]);
      HandleInvoiceExtends(seen, InvoiceUpdate(h, d.state), d.up, d.fault, d.at);
      ExtendsIgnoresLnd(PartOf(st, h), PartOf(mid, h), PartOf(seen, h));
      ExtendsTrans(PartOf(st, h), PartOf(seen, h), PartOf(HandleInvoices(st, h, ds), h));
    }
  }

  /** What a list of updates can add to the outbox for an invoice that stood at `log`. */
  predicate AddedForm(log: seq<I.InvoiceEvent>, added: seq<Body>) {
    if |log| == 1 then
      || added == []
      || (|added| == 1 && (added[0].HtlcHeld? || (added[0].InvoiceCanceled? && added[0].heldBefore == None)))
      || (|added| == 2 && added[0].HtlcHeld? && ClosesFor(added[1], added[0].paid))
    else if HeldLog(log) then added == [] || (|added| == 1 && ClosesFor(added[0], log[1].parked))
    else added == []
  }

  predicate ClosesFor(b: Body, parked: U64) {
    || (b.InvoiceSettled? && b.held == parked)
    || (b.InvoiceCanceled? && b.heldBefore == Some(parked))
  }

  /** Replay safety of the receive side: whatever list of updates of one hash is delivered, with any
      repetition, any order, any faults and whatever LND says in between, the hash gets at most one
      HtlcHeld row and one closing row, which releases exactly what was parked; a finished invoice
      gets none. */
  lemma InvoiceReplayAddsOneHeldOneClosing(st: Store, h: Hash, ds: seq<InvoiceDelivery>)
    requires StoreOk(st) && h in st.invoices
    ensures var p, q := PartOf(st, h), PartOf(HandleInvoices(st, h, ds), h);
            p.bodies <= q.bodies && AddedForm(p.log.value, q.bodies[|p.bodies|..])
  {
    DeliveriesExtend(st, h, ds);
    LogsInGrammar(st, h);
    hide StoreOk, HandleInvoices;
    var p, q := PartOf(st, h), PartOf(HandleInvoices(st, h, ds), h);
    ExtendsForm(p, q);
  }

  predicate SameStand(p: Part, q: Part) {
    q.log == p.log && q.bodies == p.bodies
  }

  /** A log has at most three events, so at most two were added. */
  lemma ExtendsByAtMostTwo(p: Part, q: Part)
    requires Extends(p, q) && p.log.Some? && |p.log.value| >= 1
    ensures || SameStand(p, q)
            || (LastFits(q) && SameStand(p, Front(q)))
            || (LastFits(q) && LastFits(Front(q)) && SameStand(p, Front(Front(q))))
  {
    if !SameStand(p, q) && !SameStand(p, Front(q)) {
      ExtendsGrows(p, Front(Front(q)));
    }
  }

  lemma ExtendsForm(p: Part, q: Part)
    requires Extends(p, q) && p.log.Some? && I.Grammar(p.log.value)
    ensures p.bodies <= q.bodies && AddedForm(p.log.value, q.bodies[|p.bodies|..])
  {
    ExtendsByAtMostTwo(p, q);
    hide Extends, LastFits, AddedForm;
    if SameStand(p, q) {
      assert q.bodies[|p.bodies|..] == [];
      NoneAdded(p.log.value);
    } else if SameStand(p, Front(q)) {
      assert q.bodies == p.bodies + [q.bodies[|p.bodies|]];
      OneAdded(p, q);
    } else {
      assert q.bodies == p.bodies + [q.bodies[|p.bodies|], q.bodies[|p.bodies| + 1]];
      TwoAdded(p, q);
    }
  }

  lemma NoneAdded(log: seq<I.InvoiceEvent>)
    ensures AddedForm(log, [])
  {
  }

  lemma OneAdded(p: Part, q: Part)
    requires p.log.Some? && I.Grammar(p.log.value) && LastFits(q) && SameStand(p, Front(q))
    ensures AddedForm(p.log.value, [q.bodies[|p.bodies|]])
  {
    assert q.log.value == p.log.value + [q.log.value[|p.log.value|]];
  }

  lemma TwoAdded(p: Part, q: Part)
    requires p.log.Some? && I.Grammar(p.log.value) && LastFits(q) && LastFits(Front(q)) && SameStand(p, Front(Front(q)))
    ensures AddedForm(p.log.value, [q.bodies[|p.bodies|], q.bodies[|p.bodies| + 1]])
  {
    var a, m := p.log.value, Front(q);
    assert m.log.value == a + [m.log.value[|a|]] && q.log.value == m.log.value + [q.log.value[|a| + 1]];
  }

  lemma {:induction false} ExtendsGrows(p: Part, q: Part)
    requires Extends(p, q) && p.log.Some?
    ensures q.log.Some? && |q.log.value| >= |p.log.value|
    ensures |q.log.value| == |p.log.value| ==> q.log == p.log && q.bodies == p.bodies
    decreases |q.bodies|
  {
    if !(q.log == p.log && q.bodies == p.bodies) {
      ExtendsGrows(p, Front(q));
    }
  }

  /** A parked HTLC is settled in the same call: from Open, an Accepted report that meets no fault
      leaves both rows and the invoice settled at LND. */
  lemma AcceptedSettlesAtOnce(st: Store, h: Hash, amt: U64, now: Timestamp)
    requires StoreOk(st) && h in st.invoices && |st.invoices[h]| == 1 && LndOf(st, h) == Accepted(amt)
    ensures var st' := HandleInvoice(st, InvoiceUpdate(h, Accepted(amt)), true, NoFault, now);
            var p, q := PartOf(st, h), PartOf(st', h);
            && q.lnd == LndSettled(amt)
            && q.bodies == p.bodies + [HtlcHeld(Sats(amt), amt), InvoiceSettled(Sats(amt), amt, amt)]
            && q.log == Some(p.log.value + [I.WasHeld(now, amt), I.WasSettled(now)])
  {
    var parked := Park(st, h, amt, now);
    ParkOutcome(st, h, amt, now);
    ReconcileIsLocal(parked, h, NoFault, now);
    hide StoreOk, Reconcile, OfHash, Bodies, Park, PartOf;
    var p := PartOf(st, h);
    assert p.log == Some(st.invoices[h]) && p.lnd == Accepted(amt) by {
      PartFields(st, h);
    }
    ReconcileParked(p, amt, now);
    assert HandleInvoice(st, InvoiceUpdate(h, Accepted(amt)), true, NoFault, now) == Reconcile(parked, h, NoFault, now);
  }

  /** A Canceled report closes an open invoice, releasing nothing, or a held one, releasing what was parked. */
  lemma CanceledReportCloses(st: Store, h: Hash, amt: U64, fault: Fault, now: Timestamp)
    requires StoreOk(st) && h in st.invoices && (|st.invoices[h]| == 1 || HeldLog(st.invoices[h]))
    ensures var st' := HandleInvoice(st, InvoiceUpdate(h, LndCanceled(amt)), true, fault, now);
            var p, q := PartOf(st, h), PartOf(st', h);
            var parked := if |st.invoices[h]| == 1 then None else Some(st.invoices[h][1].parked);
            && q.log == Some(st.invoices[h] + [I.WasCanceled(now, I.Expired)])
            && q.bodies == p.bodies + [InvoiceCanceled(Sats(amt), amt, parked)]
  {
    hide StoreOk, CancelRow, OfHash, Bodies;
    CancelIsLocal(st, h, amt, now);
  }

  lemma PartFields(st: Store, h: Hash)
    ensures PartOf(st, h).log == (if h in st.invoices then Some(st.invoices[h]) else None)
    ensures PartOf(st, h).lnd == LndOf(st, h)
  {
  }

  lemma ReconcileParked(p: Part, amt: U64, now: Timestamp)
    requires p.log.Some? && |p.log.value| == 1 && p.lnd == Accepted(amt)
    ensures var m := Part(Some(p.log.value + [I.WasHeld(now, amt)]), p.lnd, p.bodies + [HtlcHeld(Sats(amt), amt)]);
            ReconcilePart(m, NoFault, now) ==
              Part(Some(p.log.value + [I.WasHeld(now, amt), I.WasSettled(now)]), LndSettled(amt),
                   p.bodies + [HtlcHeld(Sats(amt), amt), InvoiceSettled(Sats(amt), amt, amt)])
  {
    hide Sats;
    var m := Part(Some(p.log.value + [I.WasHeld(now, amt)]), p.lnd, p.bodies + [HtlcHeld(Sats(amt), amt)]);
    assert m.log.value + [I.WasSettled(now)] == p.log.value + [I.WasHeld(now, amt), I.WasSettled(now)];
    assert m.bodies + [InvoiceSettled(Sats(amt), amt, amt)]
        == p.bodies + [HtlcHeld(Sats(amt), amt), InvoiceSettled(Sats(amt), amt, amt)];
  }

  lemma ParkOutcome(st: Store, h: Hash, amt: U64, now: Timestamp)
    requires StoreOk(st) && h in st.invoices && |st.invoices[h]| == 1
    ensures var p := PartOf(st, h);
            && StoreOk(Park(st, h, amt, now))
            && PartOf(Park(st, h, amt, now), h) ==
                 Part(Some(p.log.value + [I.WasHeld(now, amt)]), p.lnd, p.bodies + [HtlcHeld(Sats(amt), amt)])
  {
    hide OfHash, Bodies;
    PublishedRows(st, h, HtlcHeld(Sats(amt), amt), h);
    PublishedBodies(st, h, HtlcHeld(Sats(amt), amt));
  }
}
