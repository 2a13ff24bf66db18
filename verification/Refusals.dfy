/** Fail closed on the intraledger rail: transfers that Symphony declines or fails to answer leave no trace
    in what is stored, published or held at LND, however they interleave with everything else. */
module Refusals {
  import opened Primitives
  import opened Amounts
  import opened Outbox
  import opened Commits
  import opened Protocol
  import opened Invariant
  import opened Steps
  import P = Payments
  import I = Invoices

  predicate Transfers(a: Actor) {
    a.TransferAuthorize? || a.TransferCancel? || a.TransferTx?
  }

  predicate AllRefused(calls: seq<Hold>) {
    forall t :: t in calls ==> !t.reply.Approved?
  }

  /** The cell without its transfers. */
  function Without(c: Cell): Cell {
    Cell(c.s.(transfers := []), map id | id in c.actors && !Transfers(c.actors[id]) :: c.actors[id])
  }

  /** No transfer has been let past AuthorizeSpend. */
  predicate NonePassed(c: Cell) {
    forall id :: id in c.actors && Transfers(c.actors[id]) ==> c.actors[id].TransferAuthorize?
  }

  // ---- Nobody reads the record of calls ----

  /** An await that is not a transfer's does the same whatever calls are on record. */
  predicate Ignores(s: Shared, id: nat, a: Actor, env: Env) {
    var r := Move(s, id, a, env);
    && Move(s.(transfers := []), id, a, env) == After(r.s.(transfers := []), r.next)
    && r.s.transfers == s.transfers
    && (r.next.Some? && Transfers(r.next.value) ==> r.next.value.TransferAuthorize? && r.s == s)
  }

  lemma RequestIgnores(s: Shared, id: nat, a: Actor, env: Env)
    requires a.Request?
    ensures Ignores(s, id, a, env)
  {
    hide I.Hydrate, P.TryNew, P.TryNewIntraledger, MaxFor, CommittedAmount;
  }

  lemma CreateIgnores(s: Shared, id: nat, a: Actor, env: Env)
    requires a.Creating?
    ensures Ignores(s, id, a, env)
  {
    hide P.Hydrate, P.IntoEvents, Sats, EncodeBigint;
  }

  lemma CallIgnores(s: Shared, id: nat, a: Actor, env: Env)
    requires a.Created? || a.Holding?
    ensures Ignores(s, id, a, env)
  {
    hide HoldSat, FailInline;
  }

  lemma StartIgnores(s: Shared, p: P.PaymentView, w: Option<PayWrite>)
    ensures var r := StartPay(s, p, w);
            && StartPay(s.(transfers := []), p, w) == After(r.s.(transfers := []), r.next)
            && r.s == s && (r.next.Some? ==> r.next.value.PayTx?)
  {
  }

  lemma HearIgnores(s: Shared, id: nat, a: Actor, env: Env)
    requires a.Sending?
    ensures Ignores(s, id, a, env)
  {
    hide CommitPending, SettleInline, FailInline, StartPay;
    var p, bad := a.p, s.(answerBad := true);
    match env.reply {
      case SendError(reason) => StartIgnores(bad, p, FailInline(p, reason, env.now));
      case WrongHash(_) => StartIgnores(bad, p, FailInline(p, Other("LND payment_hash mismatch"), env.now));
      case InFlightMessage => StartIgnores(s, p, CommitPending(p, env.now));
      case FirstMessage =>
        match s.lndPay
        case Unknown =>
        case InFlight => StartIgnores(s, p, CommitPending(p, env.now));
        case Succeeded(preimage, fees) => StartIgnores(s, p, SettleInline(p, preimage, fees, env.now));
        case LndFailed(reason) => StartIgnores(s, p, FailInline(p, reason, env.now));
    }
  }

  lemma PaymentIgnores(s: Shared, id: nat, a: Actor, env: Env)
    requires a.PayTx? || a.PayUpdate? || a.OrphanLoad? || a.OrphanLookup?
    ensures Ignores(s, id, a, env)
  {
    hide P.Hydrate, CommitCompleted, CommitFailed;
  }

  lemma ReportIgnores(s: Shared, id: nat, a: Actor, env: Env)
    requires a.InvUpdate? || a.InvTx?
    ensures Ignores(s, id, a, env)
  {
    hide I.Hydrate, I.MarkHeld, CommitHeld, CommitCancel;
  }

  lemma HoldIgnores(s: Shared, id: nat, a: Actor, env: Env)
    requires a.HoldLoad? || a.HoldLookup? || a.HoldSettle?
    ensures Ignores(s, id, a, env)
  {
    hide I.Hydrate, CommitSettle, CommitCancel;
  }

  lemma MoveIgnores(s: Shared, id: nat, a: Actor, env: Env)
    requires !Transfers(a)
    ensures Ignores(s, id, a, env)
  {
    hide Ignores;
    if a.Request? {
      RequestIgnores(s, id, a, env);
    } else if a.Creating? {
      CreateIgnores(s, id, a, env);
    } else if a.Created? || a.Holding? {
      CallIgnores(s, id, a, env);
    } else if a.Sending? {
      HearIgnores(s, id, a, env);
    } else if a.PayTx? || a.PayUpdate? || a.OrphanLoad? || a.OrphanLookup? {
      PaymentIgnores(s, id, a, env);
    } else if a.InvUpdate? || a.InvTx? {
      ReportIgnores(s, id, a, env);
    } else {
      HoldIgnores(s, id, a, env);
    }
  }

  /** A refused call: nothing but the record of it. */
  lemma RefusedEnds(s: Shared, id: nat, a: Actor, env: Env)
    requires a.TransferAuthorize?
    ensures var r := Move(s, id, a, env);
            && r.s == s.(transfers := s.transfers + [Hold(WholeSat(a.np.amount), env.auth)])
            && (!env.auth.Approved? ==> r.next.None?)
  {
  }

  // ---- The run without the transfers ----

  predicate Idle(c: Cell, id: nat) {
    id in c.actors && Transfers(c.actors[id])
  }

  /** The step that takes the place of `step` in the run without transfers: a transfer's own steps do
      nothing, and a request that would become one ends. */
  function Shadow(c: Cell, step: Step): Step {
    var nothing := OtherDraws(0);
    match step
    case Advance(id, env) =>
      if Idle(c, id) then nothing
      else if id in c.actors && Becomes(c, id, env) then Drop(id)
      else step
    case Draw(id) => if Idle(c, id) then nothing else step
    case SendRequest(id, _, _, _) => if Idle(c, id) then nothing else step
    case PaymentReported(id, _) => if Idle(c, id) then nothing else step
    case OrphanListed(id) => if Idle(c, id) then nothing else step
    case InvoiceReported(id) => if Idle(c, id) then nothing else step
    case HeldListed(id) => if Idle(c, id) then nothing else step
    case AddHoldInvoice => step
    case CreateInvoice(_, _, _, _) => step
    case HtlcArrives(_) => step
    case InvoiceExpires(_) => step
    case OperatorSettles => step
    case PaymentResolves(_) => step
    case ForeignSend => step
    case OtherDraws(_) => step
    case Crash => step
    case Drop(_) => step
  }

  predicate Becomes(c: Cell, id: nat, env: Env)
    requires id in c.actors
  {
    var next := Move(c.s, id, c.actors[id], env).next;
    next.Some? && Transfers(next.value)
  }

  lemma AdvanceShadow(c: Cell, id: nat, env: Env)
    requires NonePassed(c) && AllRefused(Do(c, Advance(id, env)).s.transfers)
    ensures Do(Without(c), Shadow(c, Advance(id, env))) == Without(Do(c, Advance(id, env)))
    ensures NonePassed(Do(c, Advance(id, env)))
  {
    hide Move, DrawTicket;
    if id !in c.actors {
      assert id !in Without(c).actors;
    } else if Transfers(c.actors[id]) {
      RefusedShadow(c, id, env);
    } else {
      hide Transfers;
      MoveIgnores(c.s, id, c.actors[id], env);
      assert id in Without(c).actors && Without(c).actors[id] == c.actors[id];
      assert Without(Do(c, Advance(id, env))).actors == Do(Without(c), Shadow(c, Advance(id, env))).actors;
    }
  }

  lemma RefusedShadow(c: Cell, id: nat, env: Env)
    requires NonePassed(c) && AllRefused(Do(c, Advance(id, env)).s.transfers)
    requires id in c.actors && Transfers(c.actors[id])
    ensures Do(Without(c), Shadow(c, Advance(id, env))) == Without(Do(c, Advance(id, env)))
    ensures NonePassed(Do(c, Advance(id, env)))
  {
    hide Move, DrawTicket;
    var a, d := c.actors[id], Do(c, Advance(id, env));
    RefusedEnds(c.s, id, a, env);
    assert Hold(WholeSat(a.np.amount), env.auth) in d.s.transfers;
    assert Without(d).actors == Without(c).actors;
  }

  lemma DrawShadow(c: Cell, id: nat)
    requires NonePassed(c)
    ensures Do(Without(c), Shadow(c, Draw(id))) == Without(Do(c, Draw(id)))
    ensures NonePassed(Do(c, Draw(id)))
  {
    hide Move;
    var step := Draw(id);
    if id in c.actors && !Transfers(c.actors[id]) {
      assert Without(c).actors[id] == c.actors[id];
    }
    assert Without(Do(c, step)).actors == Do(Without(c), Shadow(c, step)).actors;
  }

  predicate Starts(step: Step) {
    step.SendRequest? || step.PaymentReported? || step.OrphanListed? || step.InvoiceReported? || step.HeldListed?
  }

  lemma StartShadow(c: Cell, step: Step)
    requires NonePassed(c) && Starts(step)
    ensures Do(Without(c), Shadow(c, step)) == Without(Do(c, step))
    ensures NonePassed(Do(c, step))
  {
    FirstStageIgnores(c.s, step);
    StartsBegin(c, step);
    StartsBegin(Without(c), step);
    hide FirstStage, Do;
    assert step.id in Without(c).actors <==> step.id in c.actors && !Transfers(c.actors[step.id]);
    assert Without(Do(c, step)).actors == Do(Without(c), Shadow(c, step)).actors;
  }

  lemma StartsBegin(c: Cell, step: Step)
    requires Starts(step)
    ensures Do(c, step) == Begin(c, step.id, step)
  {
  }

  lemma FirstStageIgnores(s: Shared, step: Step)
    ensures FirstStage(s.(transfers := []), step) == FirstStage(s, step)
    ensures FirstStage(s, step).Some? ==> !Transfers(FirstStage(s, step).value)
  {
  }

  lemma SurroundingsIgnore(s: Shared, step: Step)
    ensures Surroundings(s.(transfers := []), step) == Surroundings(s, step).(transfers := [])
    ensures Surroundings(s, step).transfers == s.transfers
  {
  }

  lemma StepShadow(c: Cell, step: Step)
    requires NonePassed(c) && AllRefused(Do(c, step).s.transfers)
    ensures Do(Without(c), Shadow(c, step)) == Without(Do(c, step))
    ensures NonePassed(Do(c, step))
  {
    if step.Advance? {
      AdvanceShadow(c, step.id, step.env);
    } else if step.Draw? {
      DrawShadow(c, step.id);
    } else if Starts(step) {
      StartShadow(c, step);
    } else {
      hide Surroundings, Transfers;
      SurroundingsIgnore(c.s, step);
      assert Without(Do(c, step)).actors == Do(Without(c), step).actors;
    }
  }

  lemma StepRecords(c: Cell, step: Step)
    ensures c.s.transfers <= Do(c, step).s.transfers
  {
    hide Move;
    if step.Advance? && step.id in c.actors {
      var a := c.actors[step.id];
      if a.TransferAuthorize? {
        RefusedEnds(c.s, step.id, a, step.env);
      } else if Transfers(a) {
        TransferRecordsNothing(c.s, step.id, a, step.env);
      } else {
        MoveIgnores(c.s, step.id, a, step.env);
      }
    }
  }

  lemma TransferRecordsNothing(s: Shared, id: nat, a: Actor, env: Env)
    requires a.TransferCancel? || a.TransferTx?
    ensures Move(s, id, a, env).s.transfers == s.transfers
  {
    hide I.SettleIntraledger, EncodeBigint, Sats;
  }

  lemma {:induction false} RunRecords(c: Cell, steps: seq<Step>)
    ensures c.s.transfers <= Run(c, steps).s.transfers
    decreases |steps|
  {
    hide Do;
    if steps != [] {
      StepRecords(c, steps[0]);
      RunRecords(Do(c, steps[0]), steps[1..]);
    }
  }

  function Shadows(c: Cell, steps: seq<Step>): seq<Step>
    decreases |steps|
  {
    if steps == [] then [] else [Shadow(c, steps[0])] + Shadows(Do(c, steps[0]), steps[1..])
  }

  lemma {:induction false} RunShadow(c: Cell, steps: seq<Step>)
    requires NonePassed(c) && AllRefused(Run(c, steps).s.transfers)
    ensures Run(Without(c), Shadows(c, steps)) == Without(Run(c, steps))
    decreases |steps|
  {
    hide Do, Shadow, Without, NonePassed;
    if steps != [] {
      var d, rest := Do(c, steps[0]), steps[1..];
      RunRecords(d, rest);
      assert AllRefused(d.s.transfers);
      StepShadow(c, steps[0]);
      RunShadow(d, rest);
      assert Shadows(c, steps)[1..] == Shadows(d, rest);
    }
  }

  /** In every run whose transfers were all declined or not answered, everything stored, published, held at
      LND or done to it is as in a run in which no transfer was ever asked for. */
  lemma RefusedTransfersLeaveNoTrace(h: Hash, steps: seq<Step>) returns (others: seq<Step>)
    requires AllRefused(Run(Init(h), steps).s.transfers)
    ensures Run(Init(h), others).s == Run(Init(h), steps).s.(transfers := [])
  {
    hide Run, Do;
    RunShadow(Init(h), steps);
    assert Without(Init(h)) == Init(h);
    others := Shadows(Init(h), steps);
  }

  /** In every run a transfer that is past AuthorizeSpend was approved for exactly its amount, and so was
      one that is stored. */
  lemma TransfersWereApproved(h: Hash, steps: seq<Step>, id: nat)
    ensures var c := Run(Init(h), steps);
            && (id in c.actors && (c.actors[id].TransferCancel? || c.actors[id].TransferTx?) ==>
                  Hold(WholeSat(c.actors[id].np.amount), Approved) in c.s.transfers)
            && (IntraledgerLog(c.s.pay) ==> Hold(WholeSat(c.s.pay[0].amount), Approved) in c.s.transfers)
  {
    hide Run, PayCore, HistoryCore, LndPayCore, LndInvCore, RecvCore, RowsCore, TransferOk;
    InitIsInv(h);
    RunKeepsInv(Init(h), steps);
  }
}
