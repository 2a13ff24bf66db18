/** The `Payment` aggregate: event log, hydration, commands, and the mutable entity class whose
    methods are proved against the pure commands. */
module Payments {
  import opened Primitives
  import opened Amounts
  import opened Outbox

  datatype PaymentEvent =
    | WasInitiated(hash: Hash, wallet: Wallet, amount: U64, maxFee: U64, initiatedAt: Timestamp)
    | WentPending(sentAt: Timestamp)
    | WasCompleted(settledAt: Timestamp, preimage: Preimage, fees: U64)
    | WasFailed(failedAt: Timestamp, reason: FailureReason)
    | WasReversed(reversedAt: Timestamp, discrepancy: string)

  datatype PaymentState = Initiated | Pending | Completed | Failed | Reversed

  datatype PaymentError =
    | AmountOverspecified
    | AmountRequired
    | AmountMismatch
    | InvalidAmount
    | InvalidMaxFee
    | EmptyBoltInvoice

  // ---- Validating constructors ----

  datatype DecodedInvoice = DecodedInvoice(hash: Hash, amount: Option<U64>, bolt: string)

  /** The amount rounding of `decode_bolt11`. */
  function Decode(hash: Hash, invoiceMsat: Option<U64>, bolt: string): DecodedInvoice {
    DecodedInvoice(hash, if invoiceMsat.None? then None else Some(RoundUpToSat(invoiceMsat.value)), bolt)
  }

  /** A sub-satoshi invoice amount becomes the next whole satoshi, exactly up to the rounding limit. */
  lemma DecodedAmountIsCeiling(hash: Hash, msat: U64, bolt: string)
    ensures var d := Decode(hash, Some(msat), bolt);
            && d.hash == hash && d.bolt == bolt && d.amount.Some?
            && (IsSatCeiling(msat, d.amount.value) <==> msat <= ROUNDABLE_MAX)
    ensures Decode(hash, None, bolt) == DecodedInvoice(hash, None, bolt)
  {
    RoundUpIsCeilingExactlyWhenRoundable(msat);
  }

  datatype NewPayment = NewPayment(hash: Hash, wallet: Wallet, amount: U64, maxFee: U64, at: Timestamp)

  function TryNew(decoded: DecodedInvoice, wallet: Wallet, requested: Option<U64>, maxFee: U64, now: Timestamp)
    : (r: Result<NewPayment, PaymentError>)
    ensures r.Ok? <==>
      && decoded.amount.Some? != requested.Some?
      && decoded.amount != Some(0) && requested != Some(0)
      && maxFee != 0 && decoded.bolt != ""
    ensures r.Ok? ==> Some(r.value.amount) in {decoded.amount, requested}
    ensures r.Ok? ==> r.value.hash == decoded.hash && r.value.wallet == wallet
    ensures r.Ok? ==> r.value.maxFee == maxFee && r.value.at == now
    ensures r == Err(AmountOverspecified) <==> decoded.amount.Some? && requested.Some?
    ensures r == Err(AmountRequired) <==> decoded.amount.None? && requested.None?
    ensures decoded.amount.Some? != requested.Some? ==>
              (r == Err(InvalidAmount) <==> Some(0) in {decoded.amount, requested})
  {
    if decoded.amount.Some? && requested.Some? then Err(AmountOverspecified)
    else if decoded.amount.None? && requested.None? then Err(AmountRequired)
    else
      var amount := if decoded.amount.Some? then decoded.amount.value else requested.value;
      if amount == 0 then Err(InvalidAmount)
      else if maxFee == 0 then Err(InvalidMaxFee)
      else if decoded.bolt == "" then Err(EmptyBoltInvoice)
      else Ok(NewPayment(decoded.hash, wallet, amount, maxFee, now))
  }

  /** The recipient invoice's committed amount wins; a different sender amount is refused. */
  function TryNewIntraledger(decoded: DecodedInvoice, committed: Option<U64>, wallet: Wallet, now: Timestamp)
    : (r: Result<NewPayment, PaymentError>)
    ensures r.Ok? <==>
      && (committed.Some? || decoded.amount.Some?)
      && (committed.Some? && decoded.amount.Some? ==> committed == decoded.amount)
      && committed != Some(0) && decoded.amount != Some(0) && decoded.bolt != ""
    ensures r.Ok? ==> r.value.amount > 0 && r.value.maxFee == 0
    ensures r.Ok? && committed.Some? ==> Some(r.value.amount) == committed
    ensures r.Ok? && decoded.amount.Some? ==> Some(r.value.amount) == decoded.amount
    ensures committed.Some? && decoded.amount.Some? && committed != decoded.amount ==> r == Err(AmountMismatch)
    ensures committed.None? && decoded.amount.None? ==> r == Err(AmountRequired)
    ensures r.Ok? ==> r.value.hash == decoded.hash && r.value.wallet == wallet && r.value.at == now
  {
    if committed.Some? && decoded.amount.Some? && decoded.amount != committed then Err(AmountMismatch)
    else if committed.None? && decoded.amount.None? then Err(AmountRequired)
    else
      var amount := if committed.Some? then committed.value else decoded.amount.value;
      if amount == 0 then Err(InvalidAmount)
      else if decoded.bolt == "" then Err(EmptyBoltInvoice)
      else Ok(NewPayment(decoded.hash, wallet, amount, 0, now))
  }

  function IntoEvents(np: NewPayment): seq<PaymentEvent> {
    [WasInitiated(np.hash, np.wallet, np.amount, np.maxFee, np.at)]
  }

  // ---- Hydration ----

  datatype Header = Header(hash: Hash, wallet: Wallet, amount: U64, maxFee: U64, initiatedAt: Timestamp)

  /** The builder: required fields may still be unset. */
  datatype Draft = Draft(
    header: Option<Header>, state: PaymentState,
    fees: Option<U64>, preimage: Option<Preimage>, settledAt: Option<Timestamp>)

  const EMPTY_DRAFT := Draft(None, Initiated, None, None, None)

  datatype PaymentView = PaymentView(
    header: Header, state: PaymentState,
    fees: Option<U64>, preimage: Option<Preimage>, settledAt: Option<Timestamp>,
    events: seq<PaymentEvent>)

  function Apply(d: Draft, e: PaymentEvent): Draft {
    match e
    case WasInitiated(h, w, a, f, at) => d.(header := Some(Header(h, w, a, f, at)))
    case WentPending(_) => d.(state := Pending)
    case WasCompleted(at, p, f) => d.(state := Completed, settledAt := Some(at), preimage := Some(p), fees := Some(f))
    case WasFailed(_, _) => d.(state := Failed)
    case WasReversed(_, _) => d.(state := Reversed)
  }

  function DraftOf(events: seq<PaymentEvent>): Draft {
    if events == [] then EMPTY_DRAFT else Apply(DraftOf(events[..|events| - 1]), events[|events| - 1])
  }

  function Build(d: Draft, events: seq<PaymentEvent>): Option<PaymentView> {
    if d.header.None? then None
    else Some(PaymentView(d.header.value, d.state, d.fees, d.preimage, d.settledAt, events))
  }

  function Hydrate(events: seq<PaymentEvent>): Option<PaymentView> {
    Build(DraftOf(events), events)
  }

  lemma NothingToHydrate()
    ensures Hydrate([]) == None
  {
  }

  lemma DraftOfAppend(events: seq<PaymentEvent>, e: PaymentEvent)
    ensures DraftOf(events + [e]) == Apply(DraftOf(events), e)
  {
    assert (events + [e])[..|events|] == events;
  }

  // ---- Commands ----

  datatype Outcome = Executed(after: PaymentView) | AlreadyApplied | InvalidTransition(from: PaymentState)

  predicate HasPending(events: seq<PaymentEvent>) { exists e :: e in events && e.WentPending? }
  predicate HasCompleted(events: seq<PaymentEvent>) { exists e :: e in events && e.WasCompleted? }
  predicate HasFailed(events: seq<PaymentEvent>) { exists e :: e in events && e.WasFailed? }
  predicate HasReversed(events: seq<PaymentEvent>) { exists e :: e in events && e.WasReversed? }

  function Push(v: PaymentView, e: PaymentEvent): PaymentView {
    v.(events := v.events + [e])
  }

  function MarkPending(v: PaymentView, now: Timestamp): Outcome {
    match v.state
    case Initiated => Executed(Push(v, WentPending(now)).(state := Pending))
    case Pending =>
      if HasPending(v.events) then AlreadyApplied
      else Executed(Push(v, WentPending(now)).(state := Pending))
    case _ => InvalidTransition(v.state)
  }

  function Settle(v: PaymentView, preimage: Preimage, fees: U64, now: Timestamp): Outcome {
    if HasCompleted(v.events) then AlreadyApplied
    else if v.state != Initiated && v.state != Pending then InvalidTransition(v.state)
    else Executed(Push(v, WasCompleted(now, preimage, fees)).(
                    state := Completed, fees := Some(fees), preimage := Some(preimage), settledAt := Some(now)))
  }

  function Fail(v: PaymentView, reason: FailureReason, now: Timestamp): Outcome {
    if HasFailed(v.events) then AlreadyApplied
    else if v.state != Initiated && v.state != Pending then InvalidTransition(v.state)
    else Executed(Push(v, WasFailed(now, reason)).(state := Failed))
  }

  function Reverse(v: PaymentView, discrepancy: string, now: Timestamp): Outcome {
    if HasReversed(v.events) then AlreadyApplied
    else if v.state != Completed then InvalidTransition(v.state)
    else Executed(Push(v, WasReversed(now, discrepancy)).(state := Reversed))
  }

  // ---- The log grammar ----

  /** Initiated, optional Pending, then nothing, Failed, or Completed with optional Reversed. */
  predicate Grammar(events: seq<PaymentEvent>) {
    && |events| >= 1 && events[0].WasInitiated?
    && var k := if |events| > 1 && events[1].WentPending? then 2 else 1;
       || |events| == k
       || (|events| == k + 1 && (events[k].WasFailed? || events[k].WasCompleted?))
       || (|events| == k + 2 && events[k].WasCompleted? && events[k + 1].WasReversed?)
  }

  predicate Consistent(v: PaymentView) {
    Grammar(v.events) && Hydrate(v.events) == Some(v)
  }

  /** A log in the grammar determines every field: the state is read off the last event, what a
      settlement set off the Completed event, also when a Reversed follows it. */
  lemma StateOfGrammar(events: seq<PaymentEvent>)
    requires Grammar(events)
    ensures Hydrate(events).Some?
    ensures var v := Hydrate(events).value;
            && (forall e :: e in events && e.WasCompleted? ==>
                  v.fees == Some(e.fees) && v.preimage == Some(e.preimage) && v.settledAt == Some(e.settledAt))
            && ((forall e :: e in events ==> !e.WasCompleted?) ==>
                  v.fees.None? && v.preimage.None? && v.settledAt.None?)
    ensures var v := Hydrate(events).value;
            var last := events[|events| - 1];
            && v.events == events
            && v.header == (var e := events[0]; Header(e.hash, e.wallet, e.amount, e.maxFee, e.initiatedAt))
            && v.state == (match last
                           case WasInitiated(_, _, _, _, _) => Initiated
                           case WentPending(_) => Pending
                           case WasCompleted(_, _, _) => Completed
                           case WasFailed(_, _) => Failed
                           case WasReversed(_, _) => Reversed)
    decreases |events|
  {
    var front := events[..|events| - 1];
    if |events| == 1 {
      assert DraftOf(front) == EMPTY_DRAFT;
      assert DraftOf(events) == Apply(EMPTY_DRAFT, events[0]);
    } else {
      StateOfGrammar(front);
    }
  }

  datatype Command =
    | DoMarkPending(now: Timestamp)
    | DoSettle(preimage: Preimage, fees: U64, now: Timestamp)
    | DoFail(reason: FailureReason, now: Timestamp)
    | DoReverse(discrepancy: string, now: Timestamp)

  function Execute(v: PaymentView, c: Command): Outcome {
    match c
    case DoMarkPending(now) => MarkPending(v, now)
    case DoSettle(p, f, now) => Settle(v, p, f, now)
    case DoFail(r, now) => Fail(v, r, now)
    case DoReverse(d, now) => Reverse(v, d, now)
  }

  function ExecuteAll(v: PaymentView, cs: seq<Command>): PaymentView
    decreases |cs|
  {
    if cs == [] then v else
      var o := Execute(v, cs[0]);
      ExecuteAll(if o.Executed? then o.after else v, cs[1..])
  }

  /** A command's field updates are those of hydrating its event. */
  lemma ExecuteHydrates(v: PaymentView, c: Command)
    requires Hydrate(v.events) == Some(v)
    ensures var o := Execute(v, c);
            o.Executed? ==>
              && |o.after.events| == |v.events| + 1 && v.events <= o.after.events
              && Hydrate(o.after.events) == Some(o.after)
  {
    var o := Execute(v, c);
    if o.Executed? {
      DraftOfAppend(v.events, o.after.events[|v.events|]);
    }
  }

  lemma ExecuteKeepsConsistent(v: PaymentView, c: Command)
    requires Consistent(v)
    ensures var o := Execute(v, c);
            o.Executed? ==> Consistent(o.after) && |o.after.events| == |v.events| + 1 && v.events <= o.after.events
  {
    StateOfGrammar(v.events);
    ExecuteHydrates(v, c);
    hide Hydrate;
    assert v.events[0] in v.events && v.events[|v.events| - 1] in v.events;
    assert |v.events| > 1 ==> v.events[1] in v.events;
    assert |v.events| > 2 ==> v.events[2] in v.events;
  }

  /** After any commands on a fresh entity, in any order and with any repetition, hydrating the
      log gives back every in-memory field and the log is in the grammar. */
  lemma {:induction false} CommandsAgreeWithHydration(v: PaymentView, cs: seq<Command>)
    requires Consistent(v)
    ensures Consistent(ExecuteAll(v, cs))
    ensures v.events <= ExecuteAll(v, cs).events
    decreases |cs|
  {
    if cs != [] {
      ExecuteKeepsConsistent(v, cs[0]);
      var o := Execute(v, cs[0]);
      CommandsAgreeWithHydration(if o.Executed? then o.after else v, cs[1..]);
    }
  }

  /** The second `Pending` push in `mark_pending` cannot run. */
  lemma PendingPushedOnce(v: PaymentView, now: Timestamp)
    requires Consistent(v)
    ensures v.state == Pending ==> HasPending(v.events)
    ensures MarkPending(v, now).Executed? <==> v.state == Initiated
  {
    StateOfGrammar(v.events);
    assert v.events[|v.events| - 1] in v.events;
  }

  /** Which commands run, which are duplicates and which are refused, read off the last event of the log,
      and the event a command that runs appends. */
  lemma CommandTable(v: PaymentView, preimage: Preimage, fees: U64, reason: FailureReason, discrepancy: string,
                     now: Timestamp)
    requires Consistent(v)
    ensures var last := v.events[|v.events| - 1];
            var open := last.WasInitiated? || last.WentPending?;
            && Appends(v, MarkPending(v, now), last.WasInitiated?, last.WentPending?, WentPending(now))
            && Appends(v, Settle(v, preimage, fees, now), open, last.WasCompleted? || last.WasReversed?,
                       WasCompleted(now, preimage, fees))
            && Appends(v, Fail(v, reason, now), open, last.WasFailed?, WasFailed(now, reason))
            && Appends(v, Reverse(v, discrepancy, now), last.WasCompleted?, last.WasReversed?,
                       WasReversed(now, discrepancy))
  {
    StateOfGrammar(v.events);
    hide Hydrate;
    assert forall i :: 0 <= i < |v.events| ==> v.events[i] in v.events;
  }

  predicate Appends(v: PaymentView, o: Outcome, runs: bool, duplicate: bool, e: PaymentEvent) {
    if runs then o.Executed? && o.after.events == v.events + [e] && o.after.header == v.header
    else if duplicate then o == AlreadyApplied
    else o == InvalidTransition(v.state)
  }

  // ---- The entity ----

  datatype Verdict = Ran | Ignored | Refused(from: PaymentState)

  class Payment {
    const header: Header
    var state: PaymentState
    var fees: Option<U64>
    var preimage: Option<Preimage>
    var settledAt: Option<Timestamp>
    var events: seq<PaymentEvent>

    ghost function View(): PaymentView
      reads this
    {
      PaymentView(header, state, fees, preimage, settledAt, events)
    }

    constructor (header: Header, state: PaymentState, fees: Option<U64>, preimage: Option<Preimage>,
                 settledAt: Option<Timestamp>, events: seq<PaymentEvent>)
      ensures View() == PaymentView(header, state, fees, preimage, settledAt, events)
    {
      this.header, this.state, this.fees := header, state, fees;
      this.preimage, this.settledAt, this.events := preimage, settledAt, events;
    }

    /** `try_from_events`. */
    static method TryFromEvents(events: seq<PaymentEvent>) returns (p: Payment?)
      ensures p != null <==> Hydrate(events).Some?
      ensures p != null ==> fresh(p) && Hydrate(events) == Some(p.View())
    {
      var builder := EMPTY_DRAFT;
      for i := 0 to |events|
        invariant builder == DraftOf(events[..i])
      {
        DraftOfAppend(events[..i], events[i]);
        assert events[..i] + [events[i]] == events[..i + 1];
        match events[i] {
          case WasInitiated(h, w, a, f, at) => builder := builder.(header := Some(Header(h, w, a, f, at)));
          case WentPending(_) => builder := builder.(state := Pending);
          case WasCompleted(at, p, f) =>
            builder := builder.(state := Completed, settledAt := Some(at), preimage := Some(p), fees := Some(f));
          case WasFailed(_, _) => builder := builder.(state := Failed);
          case WasReversed(_, _) => builder := builder.(state := Reversed);
        }
      }
      assert events[..|events|] == events;
      if builder.header.None? {
        return null;
      }
      p := new Payment(builder.header.value, builder.state, builder.fees, builder.preimage, builder.settledAt, events);
    }

    twostate predicate Obeys(o: Outcome, r: Verdict)
      reads this
    {
      match o
      case Executed(after) => r == Ran && View() == after
      case AlreadyApplied => r == Ignored && View() == old(View())
      case InvalidTransition(from) => r == Refused(from) && View() == old(View())
    }

    method DoMarkPending(now: Timestamp) returns (r: Verdict)
      modifies this
      ensures Obeys(MarkPending(old(View()), now), r)
      ensures old(Consistent(View())) ==> Consistent(View())
    {
      ghost var before := View();
      if state == Initiated || (state == Pending && !HasPending(events)) {
        events := events + [WentPending(now)];
        state := Pending;
        r := Ran;
      } else if state == Pending {
        r := Ignored;
      } else {
        r := Refused(state);
      }
      if Consistent(before) {
        ExecuteKeepsConsistent(before, Command.DoMarkPending(now));
      }
    }

    method DoSettle(preimage: Preimage, fees: U64, now: Timestamp) returns (r: Verdict)
      modifies this
      ensures Obeys(Settle(old(View()), preimage, fees, now), r)
      ensures old(Consistent(View())) ==> Consistent(View())
    {
      ghost var before := View();
      if HasCompleted(events) {
        r := Ignored;
      } else if state != Initiated && state != Pending {
        r := Refused(state);
      } else {
        events := events + [WasCompleted(now, preimage, fees)];
        state := Completed;
        this.fees, this.preimage, settledAt := Some(fees), Some(preimage), Some(now);
        r := Ran;
      }
      if Consistent(before) {
        ExecuteKeepsConsistent(before, Command.DoSettle(preimage, fees, now));
      }
    }

    method DoFail(reason: FailureReason, now: Timestamp) returns (r: Verdict)
      modifies this
      ensures Obeys(Fail(old(View()), reason, now), r)
      ensures old(Consistent(View())) ==> Consistent(View())
    {
      ghost var before := View();
      if HasFailed(events) {
        r := Ignored;
      } else if state != Initiated && state != Pending {
        r := Refused(state);
      } else {
        events := events + [WasFailed(now, reason)];
        state := Failed;
        r := Ran;
      }
      if Consistent(before) {
        ExecuteKeepsConsistent(before, Command.DoFail(reason, now));
      }
    }

    method DoReverse(discrepancy: string, now: Timestamp) returns (r: Verdict)
      modifies this
      ensures Obeys(Reverse(old(View()), discrepancy, now), r)
      ensures old(Consistent(View())) ==> Consistent(View())
    {
      ghost var before := View();
      if HasReversed(events) {
        r := Ignored;
      } else if state != Completed {
        r := Refused(state);
      } else {
        events := events + [WasReversed(now, discrepancy)];
        state := Reversed;
        r := Ran;
      }
      if Consistent(before) {
        ExecuteKeepsConsistent(before, Command.DoReverse(discrepancy, now));
      }
    }
  }
}
