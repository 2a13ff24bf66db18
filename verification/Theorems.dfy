/** What holds in every run of the step system: any number of requests, reports, sweeps, stale
    copies and crashes, in any order. */
module Theorems {
  import opened Primitives
  import opened Amounts
  import opened Outbox
  import opened Commits
  import opened Protocol
  import opened Invariant
  import opened Steps
  import opened Statuses
  import P = Payments
  import I = Invoices

  ghost predicate Reachable(s: Shared) {
    exists steps :: Run(Init(s.hash), steps).s == s
  }

  lemma ReachableIsCore(s: Shared)
    requires Reachable(s)
    ensures Core(s)
  {
    var steps :| Run(Init(s.hash), steps).s == s;
    InitIsInv(s.hash);
    RunKeepsInv(Init(s.hash), steps);
  }

  // ---- Outgoing payments ----

  predicate Completed(log: seq<P.PaymentEvent>) { log != [] && Last(log).WasCompleted? }
  predicate Failed(log: seq<P.PaymentEvent>) { log != [] && Last(log).WasFailed? }

  /** An LN payment has exactly one Initiated row, and one terminal row exactly when its log is
      terminal; that row is of the same kind, for the same amount, and has a later sequence even
      though sequences are drawn before commits. Without an LN payment there are no such rows. */
  lemma PaymentRowsFollowTheLog(s: Shared)
    requires Reachable(s)
    ensures var rows := PayRows(s.rows);
            if !LnLog(s.pay) then rows == [] else
              && (|rows| == 1 || |rows| == 2)
              && rows[0].body == PaymentInitiated(Sats(s.pay[0].amount), s.pay[0].maxFee)
              && (|rows| == 2 <==> Completed(s.pay) || Failed(s.pay))
              && (|rows| == 2 ==>
                    && rows[0].sequence < rows[1].sequence
                    && rows[1].body.sats == rows[0].body.sats
                    && (rows[1].body.PaymentCompleted? <==> Completed(s.pay))
                    && (rows[1].body.PaymentFailed? <==> Failed(s.pay)))
  {
    ReachableIsCore(s);
    var rows := PayRows(s.rows);
    assert |Bodies(rows)| == |rows|;
    assert forall k :: 0 <= k < |rows| ==> Bodies(rows)[k] == rows[k].body;
  }

  /** On the LN path AuthorizeSpend and LND's send each happen at most once per hash; the send has
      an approved hold of exactly `amount + max_fee` behind it; and every authorize call, whatever
      was answered, has a durable payment row, with its one terminal row once it is finished. */
  lemma SpendOnceAndCovered(s: Shared)
    requires Reachable(s)
    ensures |s.holds| <= 1 && s.sends <= 1
    ensures s.sends == 1 ==> |s.holds| == 1 && s.holds[0].reply.Approved?
    ensures s.holds != [] ==>
              && LnLog(s.pay) && s.pay[0].hash == s.hash
              && s.holds[0].sats * 1000 == s.pay[0].amount + s.pay[0].maxFee
              && |PayRows(s.rows)| == (if Completed(s.pay) || Failed(s.pay) then 2 else 1)
  {
    ReachableIsCore(s);
    if s.holds != [] {
      PaymentRowsFollowTheLog(s);
      FeeCapFits(s.pay[0].amount);
      WholeHoldIsExact(s.pay[0].amount, s.pay[0].maxFee);
    }
  }

  predicate LiveAtLnd(s: Shared) {
    s.lndPay.InFlight? || s.lndPay.Succeeded?
  }

  predicate HoldReleasedUnderPayment(s: Shared) {
    LnLog(s.pay) && Failed(s.pay) && LiveAtLnd(s)
  }

  /** Completed only with LND's own preimage and fee. Failed, when LND's answer was good and nobody
      else used LND for this hash, only if LND was never called or itself failed the payment. And
      exactly: as long as nobody else uses LND for this hash, a failed payment's hold has been
      released under a live payment if and only if LND took the call, its answer errored or named
      another hash, and LND has not failed the payment. */
  lemma TerminalStatesFollowLnd(s: Shared)
    requires Reachable(s)
    ensures LnLog(s.pay) && Completed(s.pay) ==> s.lndPay == Succeeded(Last(s.pay).preimage, Last(s.pay).fees)
    ensures LnLog(s.pay) && Failed(s.pay) && !s.answerBad && !s.foreign ==> s.sends == 0 || s.lndPay.LndFailed?
    ensures LnLog(s.pay) && Failed(s.pay) && !s.foreign ==>
              (HoldReleasedUnderPayment(s) <==> s.answerBad && s.taken && !s.lndPay.LndFailed?)
  {
    hide Reachable, PayCore, HistoryCore, LndInvCore, IntraledgerCore, RecvCore, RowsCore;
    ReachableIsCore(s);
  }

  /** When a stored Initiated payment may be voided, exactly: as long as nobody else uses LND for this
      hash, it is live at LND if and only if LND took the call and has not failed it. The age of the
      row plays no part. */
  lemma InitiatedIsLiveIff(s: Shared)
    requires Reachable(s) && LnLog(s.pay) && |s.pay| == 1 && !s.foreign
    ensures LiveAtLnd(s) <==> s.taken && !s.lndPay.LndFailed?
    ensures s.sends == 0 ==> !LiveAtLnd(s)
  {
    hide Reachable, PayCore, HistoryCore, LndInvCore, IntraledgerCore, RecvCore, RowsCore;
    ReachableIsCore(s);
  }

  // ---- Runs of a single actor ----

  lemma {:induction false} RunThen(c: Cell, first: seq<Step>, second: seq<Step>)
    ensures Run(c, first + second) == Run(Run(c, first), second)
    decreases |first|
  {
    if first == [] {
      assert first + second == second;
    } else {
      assert (first + second)[1..] == first[1..] + second;
      RunThen(Do(c, first[0]), first[1..], second);
    }
  }

  function Alone(r: After): Cell {
    Cell(r.s, if r.next.None? then map[] else map[0 := r.next.value])
  }

  /** One more step of the only actor. */
  lemma AdvanceAlone(c: Cell, steps: seq<Step>, s: Shared, a: Actor, env: Env)
    requires Run(c, steps) == Alone(Goto(s, a))
    ensures Run(c, steps + [Advance(0, env)]) == Alone(Move(s, 0, a, env))
  {
    hide Move, Init;
    RunThen(c, steps, [Advance(0, env)]);
    var d := Alone(Goto(s, a));
    assert Run(d, [Advance(0, env)]) == Run(Do(d, Advance(0, env)), []);
    assert Do(d, Advance(0, env)) == Alone(Move(s, 0, a, env));
  }

  lemma DrawAlone(c: Cell, steps: seq<Step>, s: Shared, a: Actor)
    requires Run(c, steps) == Alone(Goto(s, a))
    ensures Run(c, steps + [Draw(0)]) == Alone(DrawTicket(s, a))
  {
    hide DrawTicket, Init;
    RunThen(c, steps, [Draw(0)]);
    var d := Alone(Goto(s, a));
    assert Run(d, [Draw(0)]) == Run(Do(d, Draw(0)), []);
    assert Do(d, Draw(0)) == Alone(DrawTicket(s, a));
  }

  lemma BeginAlone(s: Shared, step: Step)
    requires step.SendRequest? || step.OrphanListed? || step.HeldListed?
    requires step.id == 0 && FirstStage(s, step).Some?
    ensures Run(Cell(s, map[]), [step]) == Alone(Goto(s, FirstStage(s, step).value))
  {
    var d := Do(Cell(s, map[]), step);
    assert Run(Cell(s, map[]), [step]) == Run(d, []);
    assert d.actors == map[0 := FirstStage(s, step).value];
  }

  const CALM := Env(0, Approved, true, FirstMessage, true, true, 0)

  /** From a fresh hash to an approved hold. */
  function ToHolding(): seq<Step> {
    [SendRequest(0, 7, Some(1_000), "lnbc")] + [Advance(0, CALM)] + [Draw(0)] + [Advance(0, CALM)] + [Advance(0, CALM)]
  }

  lemma SendReachesHolding() returns (s: Shared, v: P.PaymentView)
    ensures Run(Init(0), ToHolding()) == Alone(Goto(s, Holding(v)))
    ensures |s.pay| == 1 && LnLog(s.pay) && P.Hydrate(s.pay) == Some(v)
    ensures s.lndPay.Unknown? && s.hash == 0 && !Exposed(s)
  {
    var s0 := Init(0).s;
    var np := P.NewPayment(0, 7, 1_000, MaxFor(1_000), 0);
    var log := P.IntoEvents(np);
    P.StateOfGrammar(log);
    v := P.Hydrate(log).value;
    var request := SendRequest(0, 7, Some(1_000), "lnbc");
    BeginAlone(s0, request);
    var done := [request];
    AdvanceAlone(Init(0), done, s0, Request(7, P.Decode(0, Some(1_000), "lnbc")), CALM);
    done := done + [Advance(0, CALM)];
    DrawAlone(Init(0), done, s0, Creating(np, None));
    done := done + [Draw(0)];
    var s1 := s0.(nextSeq := 2);
    AdvanceAlone(Init(0), done, s1, Creating(np, Some(1)), CALM);
    done := done + [Advance(0, CALM)];
    var s2 := Create(s1, 0, Creating(np, Some(1))).s;
    AdvanceAlone(Init(0), done, s2, Created(v), CALM);
    s := Authorize(s2, v, CALM).s;
  }

  /** And one step further: in flight at LND with the stored payment still Initiated. */
  lemma InFlightWhileInitiated() returns (steps: seq<Step>)
    ensures var s := Run(Init(0), steps).s; s.lndPay.InFlight? && LnLog(s.pay) && |s.pay| == 1
  {
    hide Run, Init, ToHolding, P.Hydrate;
    var s, v := SendReachesHolding();
    steps := ToHolding() + [Advance(0, CALM)];
    AdvanceAlone(Init(0), ToHolding(), s, Holding(v), CALM);
  }

  /** The reason an answer from LND gives when it is an error or names another hash. */
  function AnswerReason(reply: SendReply): FailureReason
    requires reply.SendError? || reply.WrongHash?
  {
    if reply.SendError? then reply.reason else Other("LND payment_hash mismatch")
  }

  /** The request with an approved hold calls LND, which may or may not take the call and may or may
      not resolve the payment before the bad answer is heard and the failure committed. */
  function BadAnswer(taken: bool, resolves: Option<LndPayment>, reply: SendReply): seq<Step> {
    [Advance(0, CALM.(taken := taken))]
    + (if resolves.Some? then [PaymentResolves(resolves.value)] else [])
    + [Advance(0, CALM.(reply := reply))] + [Draw(0)] + [Advance(0, CALM)]
  }

  lemma SurroundingsAlone(c: Cell, steps: seq<Step>, s: Shared, a: Actor, outcome: LndPayment)
    requires Run(c, steps) == Alone(Goto(s, a))
    ensures Run(c, steps + [PaymentResolves(outcome)]) == Alone(Goto(Surroundings(s, PaymentResolves(outcome)), a))
  {
    hide Surroundings, Init;
    var step := PaymentResolves(outcome);
    RunThen(c, steps, [step]);
    var d := Alone(Goto(s, a));
    assert Run(d, [step]) == Run(Do(d, step), []);
    assert Do(d, step) == Alone(Goto(Surroundings(s, step), a));
  }

  lemma HoldingIsFresh(s: Shared, v: P.PaymentView)
    requires Core(s) && ActorOk(s, 0, Holding(v)) && !Exposed(s)
    ensures s.lndPay.Unknown? && v.events == s.pay && |s.pay| == 1 && LnLog(s.pay) && P.Grammar(s.pay)
    ensures P.Hydrate(s.pay) == Some(v)
  {
    hide PayCore, LndInvCore, IntraledgerCore, RecvCore, RowsCore, P.Hydrate;
  }

  /** Exactly when a bad answer releases the hold under a live payment: the request fails the payment
      whatever LND did, so it depends on LND alone, on whether the call was taken and whether the
      payment failed there before the answer was heard. */
  lemma BadAnswerReleasesHoldIffLndTookIt(
      s: Shared, v: P.PaymentView, taken: bool, resolves: Option<LndPayment>, reply: SendReply)
    requires Core(s) && ActorOk(s, 0, Holding(v)) && !Exposed(s)
    requires reply.SendError? || reply.WrongHash?
    ensures var d := Run(Alone(Goto(s, Holding(v))), BadAnswer(taken, resolves, reply)).s;
            var row := Row(s.nextSeq, s.hash, PaymentFailed(Sats(s.pay[0].amount), AnswerReason(reply)));
            && Failed(d.pay) && PayRows(d.rows) == PayRows(s.rows) + [row]
            && (HoldReleasedUnderPayment(d) <==> taken && !(resolves.Some? && resolves.value.LndFailed?))
  {
    hide Core, ActorOk, Init, P.Hydrate, Run, P.MarkPending, P.Fail, FailInline, SettleInline, CommitPending, PayRows;
    var c := Alone(Goto(s, Holding(v)));
    HoldingIsFresh(s, v);
    InlineWriters(s.pay, 0, 0, AnswerReason(reply), 0);
    var w := FailInline(v, AnswerReason(reply), 0).value;
    RunNothing(c);
    var call, hear := CALM.(taken := taken), CALM.(reply := reply);
    var done := [Advance(0, call)];
    assert [] + done == done;
    AdvanceAlone(c, [], s, Holding(v), call);
    var s1 := CallLnd(s, v, call).s;
    if resolves.Some? {
      SurroundingsAlone(c, done, s1, Sending(v), resolves.value);
      done := done + [PaymentResolves(resolves.value)];
      s1 := Surroundings(s1, PaymentResolves(resolves.value));
    } else {
      assert done + [] == done;
    }
    AdvanceAlone(c, done, s1, Sending(v), hear);
    FinishPay(c, done + [Advance(0, hear)], s1.(answerBad := true), v, w);
  }

  lemma RunNothing(c: Cell)
    ensures Run(c, []) == c
  {
  }

  /** So the proviso is needed: a run from the empty state ends that way. */
  lemma LostAnswerRun() returns (steps: seq<Step>)
    ensures HoldReleasedUnderPayment(Run(Init(0), steps).s)
  {
    hide Run, Init, ToHolding, P.Hydrate;
    var s, v := SendReachesHolding();
    var tail := BadAnswer(true, None, SendError(Timeout));
    steps := ToHolding() + tail;
    RunThen(Init(0), ToHolding(), tail);
    InitIsInv(0);
    RunKeepsInv(Init(0), ToHolding());
    var c := Run(Init(0), ToHolding());
    assert 0 in c.actors && ActorOk(c.s, 0, c.actors[0]);
    BadAnswerReleasesHoldIffLndTookIt(s, v, true, None, SendError(Timeout));
  }

  lemma FinishPay(c: Cell, steps: seq<Step>, s: Shared, v: P.PaymentView, w: PayWrite)
    requires Run(c, steps) == Alone(Goto(s, PayTx(v, w, None)))
    requires |s.pay| == |v.events| && w.body.Some? && IsPaymentSide(w.body.value)
    ensures var row := Row(s.nextSeq, s.hash, w.body.value);
            && PayRows(s.rows + [row]) == PayRows(s.rows) + [row]
            && Run(c, steps + [Draw(0)] + [Advance(0, CALM)]) ==
                 Cell(s.(nextSeq := s.nextSeq + 1, pay := s.pay + w.push, rows := s.rows + [row]), map[])
  {
    DrawAlone(c, steps, s, PayTx(v, w, None));
    AdvanceAlone(c, steps + [Draw(0)], s.(nextSeq := s.nextSeq + 1), PayTx(v, w, Some(s.nextSeq)), CALM);
    SidesOfAppend(s.rows, Row(s.nextSeq, s.hash, w.body.value));
  }

  lemma FreshLnPayment(s: Shared)
    requires Reachable(s) && LnLog(s.pay) && |s.pay| == 1
    ensures P.Grammar(s.pay) && Unfinished(s.pay) && |PayRows(s.rows)| == 1
  {
    ReachableIsCore(s);
    PaymentRowsFollowTheLog(s);
  }

  /** One failure-free reconcile of a stranded payment, await by await. */
  function OrphanPass(): seq<Step> {
    [OrphanListed(0)] + [Advance(0, CALM)] + [Advance(0, CALM)] + [Draw(0)] + [Advance(0, CALM)]
  }

  /** Recovery: from any reachable state without actors (after a crash) with the payment still
      Initiated and LND finished with it, one failure-free pass of the orphan sweep writes LND's
      outcome and its one row. */
  lemma OrphanSweepRecovers(s: Shared)
    requires Reachable(s) && LnLog(s.pay) && |s.pay| == 1
    requires s.lndPay.Succeeded? || s.lndPay.LndFailed?
    ensures var d := Run(Cell(s, map[]), OrphanPass());
            && d.actors == map[] && d.s.lndPay == s.lndPay
            && (Completed(d.s.pay) <==> s.lndPay.Succeeded?)
            && (Failed(d.s.pay) <==> s.lndPay.LndFailed?)
            && |PayRows(d.s.rows)| == 2
            && var sats := Sats(s.pay[0].amount);
               if s.lndPay.Succeeded? then
                 var p, f := s.lndPay.preimage, s.lndPay.fees;
                 && d.s.pay == s.pay + [P.WasCompleted(0, p, f)]
                 && d.s.rows == s.rows + [Row(s.nextSeq, s.hash, PaymentCompleted(sats, p, f))]
               else
                 && d.s.pay == s.pay + [P.WasFailed(0, s.lndPay.reason)]
                 && d.s.rows == s.rows + [Row(s.nextSeq, s.hash, PaymentFailed(sats, s.lndPay.reason))]
  {
    hide Reachable, Init, P.Hydrate, Run, P.Settle, P.Fail, CommitCompleted, CommitFailed, PayRows;
    FreshLnPayment(s);
    P.StateOfGrammar(s.pay);
    var v := P.Hydrate(s.pay).value;
    var c := Cell(s, map[]);
    BeginAlone(s, OrphanListed(0));
    AdvanceAlone(c, [OrphanListed(0)], s, OrphanLoad, CALM);
    AdvanceAlone(c, [OrphanListed(0)] + [Advance(0, CALM)], s, OrphanLookup(v), CALM);
    var load := [OrphanListed(0)] + [Advance(0, CALM)] + [Advance(0, CALM)];
    if s.lndPay.Succeeded? {
      PaymentWriters(s.pay, s.lndPay.preimage, s.lndPay.fees, Timeout, 0);
      FinishPay(c, load, s, v, CommitCompleted(v, 1, s.lndPay.preimage, s.lndPay.fees, 0).value);
    } else {
      PaymentWriters(s.pay, 0, 0, s.lndPay.reason, 0);
      FinishPay(c, load, s, v, CommitFailed(v, 1, s.lndPay.reason, 0).value);
    }
  }

  // ---- Incoming invoices ----

  /** The receive-side rows, in sequence order, are one of: none, Held, Held Settled, Held
      Canceled, Canceled, Intraledger. In particular Settled and Intraledger exclude each other. */
  lemma ReceiveRowsHaveSixForms(s: Shared)
    requires Reachable(s)
    ensures var rows := RecvRows(s.rows);
            && Ascending(rows)
            && (|| rows == []
                || (&& |rows| == 1
                    && (rows[0].body.HtlcHeld? || rows[0].body.InvoiceCanceled? || rows[0].body.IntraledgerCompleted?))
                || (&& |rows| == 2 && rows[0].body.HtlcHeld?
                    && (rows[1].body.InvoiceSettled? || rows[1].body.InvoiceCanceled?)))
  {
    ReachableIsCore(s);
    var rows := RecvRows(s.rows);
    assert |Bodies(rows)| == |rows|;
    assert forall k :: 0 <= k < |rows| ==> Bodies(rows)[k] == rows[k].body;
  }

  function Delta(b: Body): int {
    match b
    case HtlcHeld(_, paid) => paid
    case InvoiceSettled(_, _, held) => 0 - held
    case InvoiceCanceled(_, _, before) => if before.Some? then 0 - before.value else 0
    case _ => 0
  }

  /** What Symphony has pending for the invoice after these rows. */
  function PendingMsat(bodies: seq<Body>): int {
    if bodies == [] then 0 else PendingMsat(bodies[..|bodies| - 1]) + Delta(bodies[|bodies| - 1])
  }

  lemma PendingOfShort(b: seq<Body>)
    requires |b| <= 2
    ensures PendingMsat(b) == (if |b| > 0 then Delta(b[0]) else 0) + (if |b| > 1 then Delta(b[1]) else 0)
  {
    if |b| == 2 {
      assert b[..1] == [b[0]];
      PendingOfShort([b[0]]);
    }
  }

  function ParkedMsat(inv: seq<I.InvoiceEvent>): int {
    if |inv| == 2 && inv[1].WasHeld? then inv[1].parked else 0
  }

  /** Pending funds are conserved: never negative after any prefix of the rows, equal to the parked
      amount while the invoice is Held, and zero in every other state. */
  lemma PendingFundsConserved(s: Shared, k: nat)
    requires Reachable(s) && k <= |RecvRows(s.rows)|
    ensures PendingMsat(Bodies(RecvRows(s.rows)[..k])) >= 0
    ensures PendingMsat(Bodies(RecvRows(s.rows))) == ParkedMsat(s.inv)
  {
    hide Reachable, RecvRows, PendingMsat, PayCore, HistoryCore, LndPayCore, RowsCore, Sats;
    ReachableIsCore(s);
    var b := Bodies(RecvRows(s.rows));
    assert |b| <= 2;
    assert Bodies(RecvRows(s.rows)[..k]) == b[..k];
    PendingOfShort(b);
    PendingOfShort(b[..k]);
  }

  /** The stored invoice never contradicts LND, a Held invoice is past Open at LND (so the
      divergence branch of reconciliation is dead), and SettleInvoice is called only once the
      HtlcHeld event and its row are committed. */
  lemma InvoiceNeverContradictsLnd(s: Shared)
    requires Reachable(s)
    ensures s.inv != [] && Last(s.inv).WasSettled? ==> s.lndInv.LndSettled?
    ensures s.inv != [] && Last(s.inv).WasCanceled? ==> s.lndInv.LndCanceled?
    ensures s.inv != [] && Last(s.inv).WasSettledIntraledger? ==> s.lndInv.LndCanceled?
    ensures s.inv != [] && Last(s.inv).WasHeld? ==> PastAccepted(s.lndInv)
    ensures s.settleCalls > 0 ==> |s.inv| >= 2 && s.inv[1].WasHeld? && |RecvRows(s.rows)| >= 1
                                  && RecvRows(s.rows)[0].body == HtlcHeld(Sats(s.inv[1].parked), s.inv[1].parked)
  {
    ReachableIsCore(s);
    var rows := RecvRows(s.rows);
    assert |Bodies(rows)| == |rows|;
    assert forall k :: 0 <= k < |rows| ==> Bodies(rows)[k] == rows[k].body;
  }

  /** The completed intraledger payment, the invoice's SettledIntraledger event and the reporting
      row exist together or not at all; the authorized, reported and paid amounts agree with each
      other and with the invoice's committed amount rounded up, if it has one. */
  lemma IntraledgerIsAtomic(s: Shared)
    requires Reachable(s)
    ensures var rows := RecvRows(s.rows);
            && (IntraledgerLog(s.pay) <==> (s.inv != [] && Last(s.inv).WasSettledIntraledger?))
            && (IntraledgerLog(s.pay) <==> (|rows| > 0 && rows[0].body.IntraledgerCompleted?))
            && (IntraledgerLog(s.pay) ==>
                  var amount := s.pay[0].amount;
                  && s.inv[0].WasCreated?
                  && rows[0].body == IntraledgerCompleted(Sats(amount), s.pay[0].wallet, s.inv[0].wallet, amount)
                  && s.pay[0].wallet != s.inv[0].wallet
                  && s.pay[1].preimage == s.inv[0].preimage && s.pay[1].fees == 0
                  && Hold(WholeSat(amount), Approved) in s.transfers
                  && (s.inv[0].amount.Some? ==> amount == RoundUpToSat(s.inv[0].amount.value)))
            && (forall t :: t in s.transfers ==>
                  && s.inv != [] && s.inv[0].WasCreated?
                  && (s.inv[0].amount.Some? ==> t.sats == WholeSat(RoundUpToSat(s.inv[0].amount.value))))
  {
    ReachableIsCore(s);
    var rows := RecvRows(s.rows);
    assert |Bodies(rows)| == |rows|;
    assert forall k :: 0 <= k < |rows| ==> Bodies(rows)[k] == rows[k].body;
  }

  /** The status derived from the aggregate is that of the last receive-side row, whatever the
      clock says; an open invoice has no such row; and no row but the last is terminal. So a late
      subscriber and a replaying one get the same answer. */
  lemma StatusAgreesWithOutbox(s: Shared, now: Timestamp)
    requires Reachable(s)
    ensures var rows := RecvRows(s.rows);
            var v := I.Hydrate(s.inv);
            && (v.None? || v.value.state == I.Open <==> rows == [])
            && (rows != [] ==> Some(InitialStatus(v, now)) == StatusFromBody(Last(rows).body))
            && (forall k :: 0 <= k < |rows| - 1 ==> StatusFromBody(rows[k].body) == Some(Pending))
  {
    hide Reachable, I.Hydrate, RecvRows, PayCore, HistoryCore, LndPayCore, RowsCore;
    ReachableIsCore(s);
    var rows := RecvRows(s.rows);
    assert |Bodies(rows)| == |rows|;
    assert forall k :: 0 <= k < |rows| ==> Bodies(rows)[k] == rows[k].body;
    I.NothingToHydrate();
    if s.inv != [] {
      I.StateOfGrammar(s.inv);
    }
  }

  /** One failure-free reconcile, await by await. */
  function ReconcilePass(s: Shared): seq<Step> {
    var load := [HeldListed(0)] + [Advance(0, CALM)] + [Advance(0, CALM)];
    if s.lndInv.Accepted? then load + [Advance(0, CALM)] + [Draw(0)] + [Advance(0, CALM)]
    else load + [Draw(0)] + [Advance(0, CALM)]
  }

  /** Recovery: from any reachable state without actors (after a crash) with the invoice Held, one
      failure-free reconcile settles it at LND if the HTLC is still parked, and makes the row
      terminal with LND's outcome and exactly one terminal outbox row. */
  lemma ReconcileRecovers(s: Shared)
    requires Reachable(s) && |s.inv| == 2 && s.inv[1].WasHeld?
    ensures PastAccepted(s.lndInv)
    ensures var d := Run(Cell(s, map[]), ReconcilePass(s));
            && d.actors == map[]
            && |d.s.inv| == 3 && |RecvRows(d.s.rows)| == 2
            && (d.s.lndInv.LndSettled? <==> s.lndInv.Accepted? || s.lndInv.LndSettled?)
            && (d.s.inv[2].WasSettled? <==> d.s.lndInv.LndSettled?)
            && (d.s.inv[2].WasCanceled? <==> d.s.lndInv.LndCanceled?)
            && (RecvRows(d.s.rows)[1].body.InvoiceSettled? <==> d.s.lndInv.LndSettled?)
            && (RecvRows(d.s.rows)[1].body.InvoiceCanceled? <==> d.s.lndInv.LndCanceled?)
            && var amt, parked := s.lndInv.amt, s.inv[1].parked;
               if s.lndInv.LndCanceled? then
                 && d.s.inv == s.inv + [I.WasCanceled(0, I.Expired)] && d.s.lndInv == s.lndInv
                 && d.s.rows == s.rows + [Row(s.nextSeq, s.hash, InvoiceCanceled(Sats(amt), amt, Some(parked)))]
               else
                 && d.s.inv == s.inv + [I.WasSettled(0)] && d.s.lndInv == LndSettled(amt)
                 && d.s.rows == s.rows + [Row(s.nextSeq, s.hash, InvoiceSettled(Sats(amt), amt, parked))]
  {
    hide Reachable, Init, I.Hydrate, Run, RecvRows, ReconcilePass;
    InvoiceNeverContradictsLnd(s);
    HeldHasOneRow(s);
    ReconcileRuns(s);
  }

  /** The write of that pass. */
  function ReconcileWrite(s: Shared): InvWrite
    requires |s.inv| == 2 && s.inv[1].WasHeld? && PastAccepted(s.lndInv)
  {
    var amt, parked := s.lndInv.amt, s.inv[1].parked;
    if s.lndInv.LndCanceled? then InvWrite([I.WasCanceled(0, I.Expired)], InvoiceCanceled(Sats(amt), amt, Some(parked)))
    else InvWrite([I.WasSettled(0)], InvoiceSettled(Sats(amt), amt, parked))
  }

  predicate Reconciles(s: Shared, d: Cell)
    requires |s.inv| == 2 && s.inv[1].WasHeld? && PastAccepted(s.lndInv)
  {
    var w := ReconcileWrite(s);
    var row := Row(s.nextSeq, s.hash, w.body);
    && d.actors == map[] && d.s.inv == s.inv + w.push && d.s.rows == s.rows + [row]
    && RecvRows(d.s.rows) == RecvRows(s.rows) + [row]
    && d.s.lndInv == (if s.lndInv.Accepted? then LndSettled(s.lndInv.amt) else s.lndInv)
  }

  /** Loaded and about to ask LND, with the write that LND's answer will lead to. */
  lemma ReconcileLoads(s: Shared) returns (v: I.InvoiceView)
    requires |s.inv| == 2 && s.inv[1].WasHeld? && I.Grammar(s.inv) && PastAccepted(s.lndInv)
    ensures Run(Cell(s, map[]), [HeldListed(0)] + [Advance(0, CALM)]) == Alone(Goto(s, HoldLookup(v)))
    ensures v.events == s.inv
    ensures if s.lndInv.LndCanceled? then CommitCancel(v, s.lndInv.amt, 0) == Some(ReconcileWrite(s))
            else CommitSettle(v, s.lndInv.amt, 0) == Some(ReconcileWrite(s))
  {
    hide Init, I.Hydrate, Run, CommitSettle, CommitCancel;
    I.StateOfGrammar(s.inv);
    v := I.Hydrate(s.inv).value;
    InvoiceWriters(s.inv, s.lndInv.amt, 0);
    BeginAlone(s, HeldListed(0));
    AdvanceAlone(Cell(s, map[]), [HeldListed(0)], s, HoldLoad, CALM);
  }

  lemma ReconcileRuns(s: Shared)
    requires |s.inv| == 2 && s.inv[1].WasHeld? && I.Grammar(s.inv) && PastAccepted(s.lndInv)
    ensures Reconciles(s, Run(Cell(s, map[]), ReconcilePass(s)))
  {
    hide Init, Run, I.Grammar, CommitSettle, CommitCancel, RecvRows;
    var v := ReconcileLoads(s);
    var c, w := Cell(s, map[]), ReconcileWrite(s);
    var load := [HeldListed(0)] + [Advance(0, CALM)];
    AdvanceAlone(c, load, s, HoldLookup(v), CALM);
    load := load + [Advance(0, CALM)];
    if s.lndInv.Accepted? {
      AdvanceAlone(c, load, s, HoldSettle(v, s.lndInv.amt), CALM);
      FinishReconcile(c, load + [Advance(0, CALM)], SettleAtLnd(s, v, s.lndInv.amt, CALM).s, v, w);
    } else {
      FinishReconcile(c, load, s, v, w);
    }
  }

  lemma HeldHasOneRow(s: Shared)
    requires Reachable(s) && |s.inv| == 2 && s.inv[1].WasHeld?
    ensures |RecvRows(s.rows)| == 1 && I.Grammar(s.inv)
  {
    ReachableIsCore(s);
    assert |Bodies(RecvRows(s.rows))| == |RecvRows(s.rows)|;
  }

  lemma FinishReconcile(c: Cell, steps: seq<Step>, s: Shared, v: I.InvoiceView, w: InvWrite)
    requires Run(c, steps) == Alone(Goto(s, InvTx(v, w, false, None)))
    requires |s.inv| == |v.events| && !IsPaymentSide(w.body)
    ensures var row := Row(s.nextSeq, s.hash, w.body);
            && RecvRows(s.rows + [row]) == RecvRows(s.rows) + [row]
            && Run(c, steps + [Draw(0)] + [Advance(0, CALM)]) ==
                 Cell(s.(nextSeq := s.nextSeq + 1, inv := s.inv + w.push, rows := s.rows + [row]), map[])
  {
    DrawAlone(c, steps, s, InvTx(v, w, false, None));
    AdvanceAlone(c, steps + [Draw(0)], s.(nextSeq := s.nextSeq + 1), InvTx(v, w, false, Some(s.nextSeq)), CALM);
    SidesOfAppend(s.rows, Row(s.nextSeq, s.hash, w.body));
  }
}
