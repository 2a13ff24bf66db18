/** The stores that runs of the gateway leave behind, and the handlers on them: between two calls the
    stored state is that of a run, and a handler's call is a run of its actor alone. */
module RunStores {
  import opened Primitives
  import opened Outbox
  import opened Commits
  import opened Protocol
  import opened Invariant
  import opened Theorems
  import opened World
  import opened Tickets
  import opened Stores
  import P = Payments
  import I = Invoices

  function StoreOf(w: World): Store {
    Store(map h | h in w.cells && w.cells[h].s.pay != [] :: w.cells[h].s.pay,
          map h | h in w.cells && w.cells[h].s.inv != [] :: w.cells[h].s.inv,
          w.outbox, w.nextSeq,
          map h | h in w.cells :: w.cells[h].s.lndInv)
  }

  /** The handlers' precondition holds after every run. */
  lemma RunStoreIsOk(steps: seq<WorldStep>)
    ensures StoreOk(StoreOf(Play(START, steps)))
  {
    hide Play;
    var w := Play(START, steps);
    PlayKeepsTickets(START, steps);
    forall h | h in w.cells
      ensures w.cells[h].s.pay != [] ==> P.Grammar(w.cells[h].s.pay)
      ensures w.cells[h].s.inv != [] ==> I.Grammar(w.cells[h].s.inv)
    {
      EveryHashIsReachable(steps, h);
      ReachableIsCore(CellOf(w, h).s);
    }
  }

  /** So does the sweep's: an invoice stored as Held is past Open at LND, so a reconcile that meets no
      fault resolves it. */
  lemma HeldResolves(steps: seq<WorldStep>, h: Hash)
    requires h in Held(StoreOf(Play(START, steps)))
    ensures Resolves(LndOf(StoreOf(Play(START, steps)), h), NoFault)
  {
    hide Play;
    EveryHashIsReachable(steps, h);
    InvoiceNeverContradictsLnd(CellOf(Play(START, steps), h).s);
  }

  /** A failure-free sweep after any run takes every listed held invoice out of Held. */
  lemma CleanSweepAfterRun(steps: seq<WorldStep>, hs: seq<Hash>, now: Timestamp)
    requires Distinct(hs) && forall h :: h in hs ==> h in Held(StoreOf(Play(START, steps)))
    ensures var st := StoreOf(Play(START, steps)); |Held(ReconcileAll(st, hs, map[], now))| == |Held(st)| - |hs|
  {
    hide Play, StoreOf, Held, ReconcileAll, StoreOk, LndOf;
    RunStoreIsOk(steps);
    forall h | h in hs
      ensures Resolves(LndOf(StoreOf(Play(START, steps)), h), NoFault)
    {
      HeldResolves(steps, h);
    }
    CleanSweepCounts(StoreOf(Play(START, steps)), hs, now);
  }

  lemma BodiesOfPublished(rows: seq<Row>, r: Row)
    ensures Bodies(rows + [r]) == Bodies(rows) + [r.body]
  {
  }

  /** What a store says about a hash is what its cell says. */
  lemma PartOfRun(steps: seq<WorldStep>, h: Hash)
    ensures var w := Play(START, steps);
            var s := CellOf(w, h).s;
            PartOf(StoreOf(w), h) == CellPart(s) && PayPartOf(StoreOf(w), h) == CellPayPart(s)
  {
    hide Play;
    EveryHashIsReachable(steps, h);
  }

  // ---- Solo runs ----

  function At(now: Timestamp): Env {
    CALM.(now := now)
  }

  lemma AdvanceGone(c: Cell, steps: seq<Step>, s: Shared, env: Env)
    requires Run(c, steps) == Alone(End(s))
    ensures Run(c, steps + [Advance(0, env)]) == Alone(End(s))
  {
    hide Move, Init;
    RunThen(c, steps, [Advance(0, env)]);
    assert Run(Alone(End(s)), [Advance(0, env)]) == Run(Do(Alone(End(s)), Advance(0, env)), []);
  }

  lemma DrawGone(c: Cell, steps: seq<Step>, s: Shared)
    requires Run(c, steps) == Alone(End(s))
    ensures Run(c, steps + [Draw(0)]) == Alone(End(s))
  {
    hide DrawTicket, Init;
    RunThen(c, steps, [Draw(0)]);
    assert Run(Alone(End(s)), [Draw(0)]) == Run(Do(Alone(End(s)), Draw(0)), []);
  }

  lemma DropAlone(c: Cell, steps: seq<Step>, r: After)
    requires Run(c, steps) == Alone(r)
    ensures Run(c, steps + [Drop(0)]) == Alone(End(r.s))
  {
    hide Init;
    RunThen(c, steps, [Drop(0)]);
    assert Run(Alone(r), [Drop(0)]) == Run(Do(Alone(r), Drop(0)), []);
    assert Do(Alone(r), Drop(0)).actors == map[];
  }

  /** The end of every solo run: draw a sequence and commit, or lose the transaction. */
  function Finishing(commits: bool, now: Timestamp): seq<Step> {
    [Draw(0)] + [if commits then Advance(0, At(now)) else Drop(0)]
  }

  lemma FinishGone(c: Cell, steps: seq<Step>, s: Shared, commits: bool, now: Timestamp)
    requires Run(c, steps) == Alone(End(s))
    ensures Run(c, steps + Finishing(commits, now)) == Alone(End(s))
  {
    hide Run;
    DrawGone(c, steps, s);
    var all := steps + [Draw(0)];
    if commits {
      AdvanceGone(c, all, s, At(now));
      assert all + [Advance(0, At(now))] == steps + Finishing(commits, now);
    } else {
      DropAlone(c, all, End(s));
      assert all + [Drop(0)] == steps + Finishing(commits, now);
    }
  }

  // ---- Invoices ----

  /** What a cell says about its invoice and its payment. */
  function CellPart(s: Shared): Part {
    Part(if s.inv == [] then None else Some(s.inv), s.lndInv, Bodies(s.rows))
  }

  function CellPayPart(s: Shared): PayPart {
    PayPart(if s.pay == [] then None else Some(s.pay), Bodies(s.rows))
  }

  /** The cell after a written event and row. */
  function Wrote(s: Shared, w: InvWrite, commits: bool): Shared {
    var s1 := s.(nextSeq := s.nextSeq + 1);
    if commits then s1.(inv := s.inv + w.push, rows := s.rows + [Row(s.nextSeq, s.hash, w.body)]) else s1
  }

  lemma FinishInv(c: Cell, steps: seq<Step>, s: Shared, v: I.InvoiceView, w: InvWrite, thenSettle: bool, commits: bool,
                  now: Timestamp)
    requires Run(c, steps) == Alone(Goto(s, InvTx(v, w, thenSettle, None))) && |s.inv| == |v.events|
    ensures var d := Wrote(s, w, commits);
            var r := if commits && thenSettle then Goto(d, HoldLoad) else End(d);
            Run(c, steps + Finishing(commits, now)) == Alone(r)
  {
    hide Run;
    DrawAlone(c, steps, s, InvTx(v, w, thenSettle, None));
    var s1, all := s.(nextSeq := s.nextSeq + 1), steps + [Draw(0)];
    var tx := InvTx(v, w, thenSettle, Some(s.nextSeq));
    if commits {
      AdvanceAlone(c, all, s1, tx, At(now));
      assert all + [Advance(0, At(now))] == steps + Finishing(commits, now);
    } else {
      DropAlone(c, all, Goto(s1, tx));
      assert all + [Drop(0)] == steps + Finishing(commits, now);
    }
  }

  /** `reconcile_held_invoice` (and `settle_hold_invoice`) from its load on, with one thing going wrong. */
  function ReconcileTail(fault: Fault, now: Timestamp): seq<Step> {
    [Advance(0, At(now))]
    + [Advance(0, At(now).(ok := !fault.LookupFails?))]
    + [Advance(0, At(now).(taken := !fault.SettleFails?, ok := !fault.AnswerLost?))]
    + Finishing(!fault.CommitFails?, now)
  }

  /** The actor once loaded and LND asked, or gone. */
  lemma TailLooksUp(c: Cell, steps: seq<Step>, s: Shared, fault: Fault, now: Timestamp) returns (r: After)
    requires Run(c, steps) == Alone(Goto(s, HoldLoad)) && (s.inv != [] ==> I.Grammar(s.inv))
    ensures Run(c, steps + [Advance(0, At(now))] + [Advance(0, At(now).(ok := !fault.LookupFails?))]) == Alone(r)
    ensures r.s == s
    ensures if !HeldLog(s.inv) || fault.LookupFails? || s.lndInv.Absent? || s.lndInv.LndOpen? then r == End(s)
            else
              && r.next.Some? && (r.next.value.InvTx? || r.next.value.HoldSettle?) && r.next.value.i.events == s.inv
              && (if s.lndInv.Accepted? then r.next == Some(HoldSettle(r.next.value.i, s.lndInv.amt))
                  else r.next == Some(InvTx(r.next.value.i, HeldWrite(s, now), false, None)))
              && CommitSettle(r.next.value.i, s.lndInv.amt, now) == Some(SettleWrite(s, now))
  {
    hide Run, I.Hydrate, I.Settle, I.Cancel, CommitSettle, CommitCancel;
    var look := At(now).(ok := !fault.LookupFails?);
    var loaded := steps + [Advance(0, At(now))];
    AdvanceAlone(c, steps, s, HoldLoad, At(now));
    I.NothingToHydrate();
    if s.inv != [] {
      I.StateOfGrammar(s.inv);
      InvoiceWriters(s.inv, if PastAccepted(s.lndInv) then s.lndInv.amt else 0, now);
    }
    if HeldLog(s.inv) {
      var v := I.Hydrate(s.inv).value;
      AdvanceAlone(c, loaded, s, HoldLookup(v), look);
      r := LookupHeld(s, v, look);
    } else {
      AdvanceGone(c, loaded, s, look);
      r := End(s);
    }
  }

  function SettleWrite(s: Shared, now: Timestamp): InvWrite
    requires HeldLog(s.inv) && PastAccepted(s.lndInv)
  {
    InvWrite([I.WasSettled(now)], InvoiceSettled(Sats(s.lndInv.amt), s.lndInv.amt, s.inv[1].parked))
  }

  /** The write that LND's state leads to. */
  function HeldWrite(s: Shared, now: Timestamp): InvWrite
    requires HeldLog(s.inv) && PastAccepted(s.lndInv)
  {
    var amt := s.lndInv.amt;
    if !s.lndInv.LndCanceled? then SettleWrite(s, now)
    else InvWrite([I.WasCanceled(now, I.Expired)], InvoiceCanceled(Sats(amt), amt, Some(s.inv[1].parked)))
  }

  /** Run alone, it makes of the cell what `ReconcilePart` says, for every fault at any time. */
  lemma TailReconciles(c: Cell, steps: seq<Step>, s: Shared, fault: Fault, now: Timestamp)
    requires Run(c, steps) == Alone(Goto(s, HoldLoad)) && (s.inv != [] ==> I.Grammar(s.inv))
    ensures var d := Run(c, steps + ReconcileTail(fault, now));
            d.actors == map[] && CellPart(d.s) == ReconcilePart(CellPart(s), fault, now) && d.s.pay == s.pay
  {
    hide Run, I.Grammar, CommitSettle, ReconcilePart, CellPart;
    var r := TailLooksUp(c, steps, s, fault, now);
    var looked := steps + [Advance(0, At(now))] + [Advance(0, At(now).(ok := !fault.LookupFails?))];
    var env := At(now).(taken := !fault.SettleFails?, ok := !fault.AnswerLost?);
    var asked := looked + [Advance(0, env)];
    assert asked + Finishing(!fault.CommitFails?, now) == steps + ReconcileTail(fault, now);
    if r.next.None? {
      AdvanceGone(c, looked, s, env);
      FinishGone(c, asked, s, !fault.CommitFails?, now);
      NothingReconciled(s, fault, now);
    } else if s.lndInv.Accepted? {
      AdvanceAlone(c, looked, s, r.next.value, env);
      TailSettles(c, asked, s, r.next.value.i, env, fault, now);
    } else {
      AdvanceAlone(c, looked, s, r.next.value, env);
      FinishInv(c, asked, s, r.next.value.i, HeldWrite(s, now), false, !fault.CommitFails?, now);
      WriteReconciles(s, s, fault, now);
    }
  }

  lemma NothingReconciled(s: Shared, fault: Fault, now: Timestamp)
    requires !HeldLog(s.inv) || fault.LookupFails? || s.lndInv.Absent? || s.lndInv.LndOpen?
    ensures ReconcilePart(CellPart(s), fault, now) == CellPart(s)
  {
  }

  /** LND has been told to settle. */
  lemma TailSettles(c: Cell, asked: seq<Step>, s: Shared, v: I.InvoiceView, env: Env, fault: Fault, now: Timestamp)
    requires HeldLog(s.inv) && s.lndInv.Accepted? && v.events == s.inv && !fault.LookupFails?
    requires CommitSettle(v, s.lndInv.amt, now) == Some(SettleWrite(s, now))
    requires env == At(now).(taken := !fault.SettleFails?, ok := !fault.AnswerLost?)
    requires Run(c, asked) == Alone(Move(s, 0, HoldSettle(v, s.lndInv.amt), env))
    ensures var d := Run(c, asked + Finishing(!fault.CommitFails?, now));
            d.actors == map[] && CellPart(d.s) == ReconcilePart(CellPart(s), fault, now) && d.s.pay == s.pay
  {
    hide Run, CommitSettle, ReconcilePart, CellPart;
    var s1 := SettleAtLnd(s, v, s.lndInv.amt, env).s;
    if fault.SettleFails? || fault.AnswerLost? {
      FinishGone(c, asked, s1, !fault.CommitFails?, now);
    } else {
      FinishInv(c, asked, s1, v, SettleWrite(s, now), false, !fault.CommitFails?, now);
    }
    WriteReconciles(s, s1, fault, now);
  }

  lemma WriteReconciles(s: Shared, s1: Shared, fault: Fault, now: Timestamp)
    requires HeldLog(s.inv) && PastAccepted(s.lndInv) && !fault.LookupFails?
    requires s1.inv == s.inv && s1.rows == s.rows && s1.hash == s.hash
    requires s1.lndInv == if s.lndInv.Accepted? && !fault.SettleFails? then LndSettled(s.lndInv.amt) else s.lndInv
    ensures var stops := s.lndInv.Accepted? && (fault.SettleFails? || fault.AnswerLost?);
            var d := if stops then s1 else Wrote(s1, HeldWrite(s, now), !fault.CommitFails?);
            CellPart(d) == ReconcilePart(CellPart(s), fault, now)
  {
    hide Sats;
    BodiesOfPublished(s.rows, Row(s1.nextSeq, s.hash, HeldWrite(s, now).body));
    hide Bodies;
  }

  /** `Reconcile` is the solo run of `reconcile_held_invoice` in the step system, after every run, for every
      fault, at any time. */
  lemma ReconcileIsSoloRun(steps: seq<WorldStep>, h: Hash, fault: Fault, now: Timestamp)
    ensures var w := Play(START, steps);
            var d := Run(Cell(CellOf(w, h).s, map[]), [HeldListed(0)] + ReconcileTail(fault, now));
            d.actors == map[] && PartOf(Reconcile(StoreOf(w), h, fault, now), h) == CellPart(d.s)
  {
    hide Play, Run, Reachable, Reconcile, StoreOk, ReconcileTail, ReconcilePart, PartOf, StoreOf, I.Grammar;
    var w := Play(START, steps);
    var s := CellOf(w, h).s;
    CellLogs(steps, h);
    PartOfRun(steps, h);
    RunStoreIsOk(steps);
    ReconcileIsLocal(StoreOf(w), h, fault, now);
    BeginAlone(s, HeldListed(0));
    TailReconciles(Cell(s, map[]), [HeldListed(0)], s, fault, now);
  }

  lemma CellLogs(steps: seq<WorldStep>, h: Hash)
    ensures var s := CellOf(Play(START, steps), h).s;
            (s.inv != [] ==> I.Grammar(s.inv)) && (s.pay != [] ==> P.Grammar(s.pay))
  {
    hide Play;
    EveryHashIsReachable(steps, h);
    ReachableIsCore(CellOf(Play(START, steps), h).s);
  }

  lemma TailGone(c: Cell, steps: seq<Step>, s: Shared, fault: Fault, now: Timestamp)
    requires Run(c, steps) == Alone(End(s))
    ensures Run(c, steps + ReconcileTail(fault, now)) == Alone(End(s))
  {
    hide Run;
    var look := At(now).(ok := !fault.LookupFails?);
    var ask := At(now).(taken := !fault.SettleFails?, ok := !fault.AnswerLost?);
    AdvanceGone(c, steps, s, At(now));
    AdvanceGone(c, steps + [Advance(0, At(now))], s, look);
    AdvanceGone(c, steps + [Advance(0, At(now))] + [Advance(0, look)], s, ask);
    var asked := steps + [Advance(0, At(now))] + [Advance(0, look)] + [Advance(0, ask)];
    FinishGone(c, asked, s, !fault.CommitFails?, now);
    assert asked + Finishing(!fault.CommitFails?, now) == steps + ReconcileTail(fault, now);
  }

  /** `handle_invoice_update` on LND's present report: the load, the handler's own transaction if it opens
      one, and for an Accepted the settle that follows. */
  function HandlePass(s: Shared, up: bool, fault: Fault, now: Timestamp): seq<Step> {
    [InvoiceReported(0)] + [Advance(0, At(now))]
    + (if s.lndInv.Accepted? && |s.inv| != 1 then [] else Finishing(up, now))
    + (if s.lndInv.Accepted? then ReconcileTail(fault, now) else [])
  }

  /** The first stage of the handler, read off the stored log. */
  lemma HandlerStarts(s: Shared, now: Timestamp) returns (r: After)
    requires !s.lndInv.Absent? && (s.inv != [] ==> I.Grammar(s.inv))
    ensures Run(Cell(s, map[]), [InvoiceReported(0)] + [Advance(0, At(now))]) == Alone(r) && r.s == s
    ensures if s.lndInv.Accepted? && |s.inv| == 1 then
              && r.next.Some? && r.next.value.InvTx? && r.next.value.i.events == s.inv
              && r.next == Some(InvTx(r.next.value.i, ParkWrite(s, now), true, None))
            else if s.lndInv.Accepted? && EverHeld(s.inv) then r == Goto(s, HoldLoad)
            else if s.lndInv.LndCanceled? && (|s.inv| == 1 || HeldLog(s.inv)) then
              && r.next.Some? && r.next.value.InvTx? && r.next.value.i.events == s.inv
              && r.next == Some(InvTx(r.next.value.i, CancelWrite(s, now), false, None))
            else r == End(s)
  {
    hide Run, I.Hydrate, I.Cancel, CommitCancel, CommitHeld;
    BeginReported(s);
    AdvanceAlone(Cell(s, map[]), [InvoiceReported(0)], s, InvUpdate(s.lndInv), At(now));
    r := HandleInvUpdate(s, s.lndInv, At(now));
    I.NothingToHydrate();
    if s.inv != [] {
      I.StateOfGrammar(s.inv);
      InvoiceWriters(s.inv, if PastAccepted(s.lndInv) then s.lndInv.amt else 0, now);
      assert forall i :: 0 <= i < |s.inv| ==> s.inv[i] in s.inv;
    }
  }

  lemma BeginReported(s: Shared)
    requires !s.lndInv.Absent?
    ensures Run(Cell(s, map[]), [InvoiceReported(0)]) == Alone(Goto(s, InvUpdate(s.lndInv)))
  {
    var d := Do(Cell(s, map[]), InvoiceReported(0));
    assert Run(Cell(s, map[]), [InvoiceReported(0)]) == Run(d, []);
    assert d.actors == map[0 := InvUpdate(s.lndInv)];
  }

  function ParkWrite(s: Shared, now: Timestamp): InvWrite
    requires s.lndInv.Accepted?
  {
    InvWrite([I.WasHeld(now, s.lndInv.amt)], HtlcHeld(Sats(s.lndInv.amt), s.lndInv.amt))
  }

  function CancelWrite(s: Shared, now: Timestamp): InvWrite
    requires s.lndInv.LndCanceled?
  {
    InvWrite([I.WasCanceled(now, I.Expired)], InvoiceCanceled(Sats(s.lndInv.amt), s.lndInv.amt, ParkedBefore(s.inv)))
  }

  lemma WrotePart(s: Shared, w: InvWrite, commits: bool)
    requires s.inv != []
    ensures CellPart(Wrote(s, w, commits)) ==
              if commits then Part(Some(s.inv + w.push), s.lndInv, Bodies(s.rows) + [w.body]) else CellPart(s)
  {
    BodiesOfPublished(s.rows, Row(s.nextSeq, s.hash, w.body));
  }

  lemma HandlerRuns(s: Shared, up: bool, fault: Fault, now: Timestamp)
    requires !s.lndInv.Absent? && (s.inv != [] ==> I.Grammar(s.inv))
    ensures var d := Run(Cell(s, map[]), HandlePass(s, up, fault, now));
            d.actors == map[] && CellPart(d.s) == HandlePart(CellPart(s), s.lndInv, up, fault, now)
  {
    hide Run, ReconcilePart, ReconcileTail, Finishing, Wrote, Sats, Bodies;
    var c, first := Cell(s, map[]), [InvoiceReported(0)] + [Advance(0, At(now))];
    var r := HandlerStarts(s, now);
    if s.lndInv.Accepted? {
      if |s.inv| == 1 {
        HandlerParks(c, first, s, r.next.value.i, up, fault, now);
      } else if EverHeld(s.inv) {
        TailReconciles(c, first, s, fault, now);
        assert first + [] + ReconcileTail(fault, now) == first + ReconcileTail(fault, now);
      } else {
        TailGone(c, first, s, fault, now);
        assert first + [] + ReconcileTail(fault, now) == first + ReconcileTail(fault, now);
      }
    } else {
      assert first + Finishing(up, now) + [] == first + Finishing(up, now);
      if r.next.Some? {
        FinishInv(c, first, s, r.next.value.i, CancelWrite(s, now), false, up, now);
        WrotePart(s, CancelWrite(s, now), up);
      } else {
        FinishGone(c, first, s, up, now);
      }
    }
  }

  lemma HandlerParks(c: Cell, first: seq<Step>, s: Shared, v: I.InvoiceView, up: bool, fault: Fault, now: Timestamp)
    requires s.lndInv.Accepted? && |s.inv| == 1 && I.Grammar(s.inv) && v.events == s.inv
    requires Run(c, first) == Alone(Goto(s, InvTx(v, ParkWrite(s, now), true, None)))
    ensures var d := Run(c, first + Finishing(up, now) + ReconcileTail(fault, now));
            d.actors == map[] && CellPart(d.s) == HandlePart(CellPart(s), s.lndInv, up, fault, now)
  {
    hide Run, ReconcilePart, ReconcileTail, Finishing, Sats, Bodies;
    FinishInv(c, first, s, v, ParkWrite(s, now), true, up, now);
    WrotePart(s, ParkWrite(s, now), up);
    var d := Wrote(s, ParkWrite(s, now), up);
    if up {
      TailReconciles(c, first + Finishing(up, now), d, fault, now);
    } else {
      TailGone(c, first + Finishing(up, now), d, fault, now);
    }
  }

  /** `HandleInvoice` is the solo run of `handle_invoice_update` on LND's present report. */
  lemma HandleInvoiceIsSoloRun(steps: seq<WorldStep>, h: Hash, up: bool, fault: Fault, now: Timestamp)
    requires !CellOf(Play(START, steps), h).s.lndInv.Absent?
    ensures var w := Play(START, steps);
            var s := CellOf(w, h).s;
            var d := Run(Cell(s, map[]), HandlePass(s, up, fault, now));
            && d.actors == map[]
            && PartOf(HandleInvoice(StoreOf(w), InvoiceUpdate(h, s.lndInv), up, fault, now), h) == CellPart(d.s)
  {
    hide Play, Run, Reachable, HandleInvoice, StoreOk, HandlePass, HandlePart, PartOf, StoreOf, I.Grammar;
    var w := Play(START, steps);
    var s := CellOf(w, h).s;
    CellLogs(steps, h);
    PartOfRun(steps, h);
    RunStoreIsOk(steps);
    HandleInvoiceIsLocal(StoreOf(w), InvoiceUpdate(h, s.lndInv), up, fault, now);
    HandlerRuns(s, up, fault, now);
  }

  // ---- Payments ----

  /** LND's state as a report, with or without its preimage. */
  function ReportOf(h: Hash, l: LndPayment, hasPreimage: bool): PaymentUpdate
    requires !l.Unknown?
  {
    match l
    case InFlight => PaymentUpdate(h, PaymentStatus.InFlight, None, 0, None)
    case Succeeded(preimage, fees) =>
      PaymentUpdate(h, PaymentStatus.Succeeded, if hasPreimage then Some(preimage) else None, fees, None)
    case LndFailed(reason) => PaymentUpdate(h, PaymentStatus.Failed, None, 0, Some(reason))
  }

  function OutcomeOf(l: LndPayment, hasPreimage: bool, now: Timestamp): (e: Option<P.PaymentEvent>)
    ensures e.Some? ==> IsTerminalEvent(e.value)
  {
    if l.Succeeded? && hasPreimage then Some(P.WasCompleted(now, l.preimage, l.fees))
    else if l.LndFailed? then Some(P.WasFailed(now, l.reason))
    else None
  }

  lemma OutcomeRuns(c: Cell, steps: seq<Step>, s: Shared, v: P.PaymentView, hasPreimage: bool, commits: bool,
                    now: Timestamp)
    requires P.Grammar(s.pay) && P.Hydrate(s.pay) == Some(v)
    requires Run(c, steps) == Alone(ApplyOutcome(s, v, s.lndPay, hasPreimage, now))
    ensures var d := Run(c, steps + Finishing(commits, now));
            var e := OutcomeOf(s.lndPay, hasPreimage, now);
            d.actors == map[] && CellPayPart(d.s) == (if commits then FinishPart(CellPayPart(s), e) else CellPayPart(s))
  {
    hide Run, P.Hydrate, P.Settle, P.Fail, CommitCompleted, CommitFailed, Finishing, Sats, Bodies;
    var (preimage, fees) := if s.lndPay.Succeeded? then (s.lndPay.preimage, s.lndPay.fees) else (0, 0);
    PaymentWriters(s.pay, preimage, fees, if s.lndPay.LndFailed? then s.lndPay.reason else Timeout, now);
    var e := OutcomeOf(s.lndPay, hasPreimage, now);
    if e.Some? && Unfinished(s.pay) {
      var w := PayWrite([e.value], Some(TerminalRow(s.pay[0].amount, e.value)));
      FinishPayRun(c, steps, s, v, w, commits, now);
    } else {
      FinishGone(c, steps, s, commits, now);
    }
  }

  lemma FinishPayRun(c: Cell, steps: seq<Step>, s: Shared, v: P.PaymentView, w: PayWrite, commits: bool, now: Timestamp)
    requires Run(c, steps) == Alone(Goto(s, PayTx(v, w, None))) && |s.pay| == |v.events| && s.pay != [] && w.body.Some?
    ensures var d := Run(c, steps + Finishing(commits, now));
            && d.actors == map[]
            && CellPayPart(d.s) ==
                 (if commits then PayPart(Some(s.pay + w.push), Bodies(s.rows) + [w.body.value]) else CellPayPart(s))
  {
    hide Run, Bodies;
    DrawAlone(c, steps, s, PayTx(v, w, None));
    var s1, all := s.(nextSeq := s.nextSeq + 1), steps + [Draw(0)];
    var tx := PayTx(v, w, Some(s.nextSeq));
    if commits {
      AdvanceAlone(c, all, s1, tx, At(now));
      assert all + [Advance(0, At(now))] == steps + Finishing(commits, now);
      BodiesOfPublished(s.rows, Row(s.nextSeq, s.hash, w.body.value));
    } else {
      DropAlone(c, all, Goto(s1, tx));
      assert all + [Drop(0)] == steps + Finishing(commits, now);
    }
  }

  /** `handle_payment_update` on LND's present report. */
  function UpdatePass(hasPreimage: bool, now: Timestamp): seq<Step> {
    [PaymentReported(0, hasPreimage)] + [Advance(0, At(now))] + Finishing(true, now)
  }

  lemma BeginUpdate(s: Shared, hasPreimage: bool)
    requires !s.lndPay.Unknown?
    ensures Run(Cell(s, map[]), [PaymentReported(0, hasPreimage)]) == Alone(Goto(s, PayUpdate(s.lndPay, hasPreimage)))
  {
    var d := Do(Cell(s, map[]), PaymentReported(0, hasPreimage));
    assert Run(Cell(s, map[]), [PaymentReported(0, hasPreimage)]) == Run(d, []);
    assert d.actors == map[0 := PayUpdate(s.lndPay, hasPreimage)];
  }

  lemma UpdateRuns(s: Shared, hasPreimage: bool, now: Timestamp)
    requires !s.lndPay.Unknown? && (s.pay != [] ==> P.Grammar(s.pay))
    ensures var d := Run(Cell(s, map[]), UpdatePass(hasPreimage, now));
            d.actors == map[] && CellPayPart(d.s) == FinishPart(CellPayPart(s), OutcomeOf(s.lndPay, hasPreimage, now))
  {
    hide Run, P.Hydrate, P.Grammar, ApplyOutcome, Finishing, Bodies;
    var c, begun := Cell(s, map[]), [PaymentReported(0, hasPreimage)];
    BeginUpdate(s, hasPreimage);
    AdvanceAlone(c, begun, s, PayUpdate(s.lndPay, hasPreimage), At(now));
    P.NothingToHydrate();
    if s.pay == [] {
      FinishGone(c, begun + [Advance(0, At(now))], s, true, now);
    } else {
      P.StateOfGrammar(s.pay);
      OutcomeRuns(c, begun + [Advance(0, At(now))], s, P.Hydrate(s.pay).value, hasPreimage, true, now);
    }
  }

  /** `HandleUpdate` is the solo run of `handle_payment_update` on LND's present report. */
  lemma HandleUpdateIsSoloRun(steps: seq<WorldStep>, h: Hash, hasPreimage: bool, now: Timestamp)
    requires !CellOf(Play(START, steps), h).s.lndPay.Unknown?
    ensures var w := Play(START, steps);
            var s := CellOf(w, h).s;
            var d := Run(Cell(s, map[]), UpdatePass(hasPreimage, now));
            && d.actors == map[]
            && PayPartOf(HandleUpdate(StoreOf(w), ReportOf(h, s.lndPay, hasPreimage), now), h) == CellPayPart(d.s)
  {
    hide Play, Run, Reachable, Finish, UpdatePass, FinishPart, PayPartOf, StoreOf, P.Grammar, CellPayPart;
    var w := Play(START, steps);
    var s := CellOf(w, h).s;
    CellLogs(steps, h);
    PartOfRun(steps, h);
    UpdateRuns(s, hasPreimage, now);
    var e := OutcomeOf(s.lndPay, hasPreimage, now);
    assert Verdict(ReportOf(h, s.lndPay, hasPreimage), TRACK_NO_REASON, now) == e;
    FinishIsLocal(StoreOf(w), h, e);
  }

  /** `reconcile_orphan_hold`, with the lookup answered or not. */
  function OrphanTail(ok: bool, hasPreimage: bool, commits: bool, now: Timestamp): seq<Step> {
    [OrphanListed(0)] + [Advance(0, At(now))] + [Advance(0, At(now).(ok := ok, hasPreimage := hasPreimage))]
    + Finishing(commits, now)
  }

  /** What that lookup gives; a payment LND does not know is not found. */
  function LookupSeen(h: Hash, l: LndPayment, ok: bool, hasPreimage: bool, commits: bool): Lookup {
    if !ok || l.Unknown? then NotFound else Found(ReportOf(h, l, hasPreimage), commits)
  }

  lemma OrphanIsFinish(s: Shared, ok: bool, hasPreimage: bool, commits: bool, now: Timestamp)
    requires s.pay != [] ==> P.Grammar(s.pay)
    ensures OrphanPart(CellPayPart(s), LookupSeen(s.hash, s.lndPay, ok, hasPreimage, commits), now) ==
              if s.pay != [] && InitiatedLog(s.pay) && ok && commits
              then FinishPart(CellPayPart(s), OutcomeOf(s.lndPay, hasPreimage, now))
              else CellPayPart(s)
  {
    hide Bodies, Sats;
  }

  lemma OrphanRuns(s: Shared, ok: bool, hasPreimage: bool, commits: bool, now: Timestamp)
    requires s.pay != [] ==> P.Grammar(s.pay)
    ensures var d := Run(Cell(s, map[]), OrphanTail(ok, hasPreimage, commits, now));
            var l := LookupSeen(s.hash, s.lndPay, ok, hasPreimage, commits);
            d.actors == map[] && CellPayPart(d.s) == OrphanPart(CellPayPart(s), l, now)
  {
    hide Run, P.Hydrate, ApplyOutcome, Finishing, FinishPart, OrphanPart, PartStranded, CellPayPart, LookupSeen;
    OrphanIsFinish(s, ok, hasPreimage, commits, now);
    var c, listed, env := Cell(s, map[]), [OrphanListed(0)], At(now).(ok := ok, hasPreimage := hasPreimage);
    BeginAlone(s, OrphanListed(0));
    AdvanceAlone(c, listed, s, OrphanLoad, At(now));
    var loaded := listed + [Advance(0, At(now))];
    var looked := loaded + [Advance(0, env)];
    P.NothingToHydrate();
    if s.pay != [] {
      P.StateOfGrammar(s.pay);
    }
    if s.pay == [] || !InitiatedLog(s.pay) {
      AdvanceGone(c, loaded, s, env);
      FinishGone(c, looked, s, commits, now);
    } else {
      var v := P.Hydrate(s.pay).value;
      AdvanceAlone(c, loaded, s, OrphanLookup(v), env);
      if ok {
        OutcomeRuns(c, looked, s, v, hasPreimage, commits, now);
      } else {
        FinishGone(c, looked, s, commits, now);
      }
    }
  }

  /** `ReconcileOrphan` is the solo run of `reconcile_orphan_hold`, whatever the lookup gives and whether or not
      the transaction is served. */
  lemma ReconcileOrphanIsSoloRun(steps: seq<WorldStep>, h: Hash, ok: bool, hasPreimage: bool, commits: bool,
                                 now: Timestamp)
    ensures var w := Play(START, steps);
            var s := CellOf(w, h).s;
            var d := Run(Cell(s, map[]), OrphanTail(ok, hasPreimage, commits, now));
            var l := LookupSeen(h, s.lndPay, ok, hasPreimage, commits);
            d.actors == map[] && PayPartOf(ReconcileOrphan(StoreOf(w), h, l, now), h) == CellPayPart(d.s)
  {
    hide Play, Run, Reachable, ReconcileOrphan, StoreOk, OrphanTail, OrphanPart, PayPartOf, StoreOf, P.Grammar,
      CellPayPart;
    var w := Play(START, steps);
    var s := CellOf(w, h).s;
    EveryHashIsReachable(steps, h);
    CellLogs(steps, h);
    PartOfRun(steps, h);
    RunStoreIsOk(steps);
    OrphanOutcome(StoreOf(w), h, LookupSeen(h, s.lndPay, ok, hasPreimage, commits), now, h);
    OrphanRuns(s, ok, hasPreimage, commits, now);
  }
}
