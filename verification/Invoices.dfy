/** The `Invoice` aggregate, in the same shape as `Payments`. */
module Invoices {
  import opened Primitives
  import opened Amounts

  datatype InvoiceEvent =
    | WasCreated(hash: Hash, preimage: Preimage, wallet: Wallet, amount: Option<U64>, expiryAt: Timestamp)
    | WasHeld(heldAt: Timestamp, parked: U64)
    | WasSettled(settledAt: Timestamp)
    | WasSettledIntraledger(settledAt: Timestamp)
    | WasCanceled(canceledAt: Timestamp, reason: CancelReason)

  datatype InvoiceState = Open | Held | Settled | Canceled

  datatype CancelReason = Expired

  // ---- Hydration ----

  datatype Header = Header(hash: Hash, preimage: Preimage, wallet: Wallet, amount: Option<U64>, expiryAt: Timestamp)

  datatype Draft = Draft(
    header: Option<Header>, state: InvoiceState, held: Option<U64>, canceled: Option<CancelReason>)

  const EMPTY_DRAFT := Draft(None, Open, None, None)

  datatype InvoiceView = InvoiceView(
    header: Header, state: InvoiceState, held: Option<U64>, canceled: Option<CancelReason>,
    events: seq<InvoiceEvent>)

  function Apply(d: Draft, e: InvoiceEvent): Draft {
    match e
    case WasCreated(h, p, w, a, x) => d.(header := Some(Header(h, p, w, a, x)))
    case WasHeld(_, parked) => d.(state := Held, held := Some(parked))
    case WasSettled(_) => d.(state := Settled)
    case WasSettledIntraledger(_) => d.(state := Settled)
    case WasCanceled(_, reason) => d.(state := Canceled, canceled := Some(reason))
  }

  function DraftOf(events: seq<InvoiceEvent>): Draft {
    if events == [] then EMPTY_DRAFT else Apply(DraftOf(events[..|events| - 1]), events[|events| - 1])
  }

  function Hydrate(events: seq<InvoiceEvent>): Option<InvoiceView> {
    var d := DraftOf(events);
    if d.header.None? then None
    else Some(InvoiceView(d.header.value, d.state, d.held, d.canceled, events))
  }

  lemma NothingToHydrate()
    ensures Hydrate([]) == None
  {
  }

  lemma DraftOfAppend(events: seq<InvoiceEvent>, e: InvoiceEvent)
    ensures DraftOf(events + [e]) == Apply(DraftOf(events), e)
  {
    assert (events + [e])[..|events|] == events;
  }

  // ---- Commands ----

  datatype Outcome = Executed(after: InvoiceView) | AlreadyApplied | InvalidTransition(from: InvoiceState)

  predicate HasHeld(events: seq<InvoiceEvent>) { exists e :: e in events && e.WasHeld? }
  predicate HasSettled(events: seq<InvoiceEvent>) { exists e :: e in events && e.WasSettled? }
  predicate HasIntraledger(events: seq<InvoiceEvent>) { exists e :: e in events && e.WasSettledIntraledger? }
  predicate HasCanceled(events: seq<InvoiceEvent>) { exists e :: e in events && e.WasCanceled? }

  function Push(v: InvoiceView, e: InvoiceEvent): InvoiceView {
    v.(events := v.events + [e])
  }

  function MarkHeld(v: InvoiceView, parked: U64, now: Timestamp): Outcome {
    if HasHeld(v.events) then AlreadyApplied
    else if v.state != Open then InvalidTransition(v.state)
    else Executed(Push(v, WasHeld(now, parked)).(state := Held, held := Some(parked)))
  }

  function Settle(v: InvoiceView, now: Timestamp): Outcome {
    if HasSettled(v.events) then AlreadyApplied
    else if v.state != Held then InvalidTransition(v.state)
    else Executed(Push(v, WasSettled(now)).(state := Settled))
  }

  function SettleIntraledger(v: InvoiceView, now: Timestamp): Outcome {
    if HasIntraledger(v.events) then AlreadyApplied
    else if v.state != Open then InvalidTransition(v.state)
    else Executed(Push(v, WasSettledIntraledger(now)).(state := Settled))
  }

  function Cancel(v: InvoiceView, reason: CancelReason, now: Timestamp): Outcome {
    if HasCanceled(v.events) then AlreadyApplied
    else if v.state != Open && v.state != Held then InvalidTransition(v.state)
    else Executed(Push(v, WasCanceled(now, reason)).(state := Canceled, canceled := Some(reason)))
  }

  // ---- The log grammar ----

  /** Created, then nothing, Held, Held Settled, Held Canceled, Canceled, or SettledIntraledger. */
  predicate Grammar(events: seq<InvoiceEvent>) {
    && |events| >= 1 && events[0].WasCreated?
    && (|events| == 1
        || (|events| == 2 && (events[1].WasHeld? || events[1].WasCanceled? || events[1].WasSettledIntraledger?))
        || (|events| == 3 && events[1].WasHeld? && (events[2].WasSettled? || events[2].WasCanceled?)))
  }

  predicate Consistent(v: InvoiceView) {
    Grammar(v.events) && Hydrate(v.events) == Some(v)
  }

  lemma StateOfGrammar(events: seq<InvoiceEvent>)
    requires Grammar(events)
    ensures Hydrate(events).Some?
    ensures var v := Hydrate(events).value;
            && v.events == events
            && v.header == (var e := events[0]; Header(e.hash, e.preimage, e.wallet, e.amount, e.expiryAt))
            && v.state == (match events[|events| - 1]
                           case WasCreated(_, _, _, _, _) => Open
                           case WasHeld(_, _) => Held
                           case WasSettled(_) => Settled
                           case WasSettledIntraledger(_) => Settled
                           case WasCanceled(_, _) => Canceled)
            && v.held == (if |events| > 1 && events[1].WasHeld? then Some(events[1].parked) else None)
            && (forall e :: e in events && e.WasCanceled? ==> v.canceled == Some(e.reason))
            && ((forall e :: e in events ==> !e.WasCanceled?) ==> v.canceled.None?)
    decreases |events|
  {
    var front := events[..|events| - 1];
    if |events| == 1 {
      assert DraftOf(front) == EMPTY_DRAFT;
      assert DraftOf(events) == Apply(EMPTY_DRAFT, events[0]);
    } else {
      StateOfGrammar(front);
    }
  }

  datatype Command =
    | DoMarkHeld(parked: U64, now: Timestamp)
    | DoSettle(now: Timestamp)
    | DoSettleIntraledger(now: Timestamp)
    | DoCancel(reason: CancelReason, now: Timestamp)

  function Execute(v: InvoiceView, c: Command): Outcome {
    match c
    case DoMarkHeld(parked, now) => MarkHeld(v, parked, now)
    case DoSettle(now) => Settle(v, now)
    case DoSettleIntraledger(now) => SettleIntraledger(v, now)
    case DoCancel(reason, now) => Cancel(v, reason, now)
  }

  function ExecuteAll(v: InvoiceView, cs: seq<Command>): InvoiceView
    decreases |cs|
  {
    if cs == [] then v else
      var o := Execute(v, cs[0]);
      ExecuteAll(if o.Executed? then o.after else v, cs[1..])
  }

  /** A command's field updates are those of hydrating its event. */
  lemma ExecuteHydrates(v: InvoiceView, c: Command)
    requires Hydrate(v.events) == Some(v)
    ensures var o := Execute(v, c);
            o.Executed? ==>
              && |o.after.events| == |v.events| + 1 && v.events <= o.after.events
              && Hydrate(o.after.events) == Some(o.after)
  {
    var o := Execute(v, c);
    if o.Executed? {
      DraftOfAppend(v.events, o.after.events[|v.events|]);
    }
  }

  lemma ExecuteKeepsConsistent(v: InvoiceView, c: Command)
    requires Consistent(v)
    ensures var o := Execute(v, c);
            o.Executed? ==> Consistent(o.after) && |o.after.events| == |v.events| + 1 && v.events <= o.after.events
  {
    StateOfGrammar(v.events);
    ExecuteHydrates(v, c);
    hide Hydrate;
    assert v.events[0] in v.events && v.events[|v.events| - 1] in v.events;
    assert |v.events| > 1 ==> v.events[1] in v.events;
    assert |v.events| > 2 ==> v.events[2] in v.events;
  }

  /** As for payments: any commands, hydration gives back every in-memory field. */
  lemma {:induction false} CommandsAgreeWithHydration(v: InvoiceView, cs: seq<Command>)
    requires Consistent(v)
    ensures Consistent(ExecuteAll(v, cs))
    ensures v.events <= ExecuteAll(v, cs).events
    decreases |cs|
  {
    if cs != [] {
      ExecuteKeepsConsistent(v, cs[0]);
      var o := Execute(v, cs[0]);
      CommandsAgreeWithHydration(if o.Executed? then o.after else v, cs[1..]);
    }
  }

  /** The `expect` in `commit_settle` cannot fail: a settle that runs finds the parked amount. */
  lemma SettleFindsParkedAmount(v: InvoiceView, now: Timestamp)
    requires Consistent(v)
    ensures Settle(v, now).Executed? ==>
              |v.events| == 2 && v.events[1].WasHeld? && Settle(v, now).after.held == Some(v.events[1].parked)
    ensures Settle(v, now).Executed? <==> v.state == Held
  {
    StateOfGrammar(v.events);
    assert v.events[|v.events| - 1] in v.events;
  }

  /** Which commands run, which are duplicates and which are refused, read off the stored log, and the
      event a command that runs appends. */
  lemma CommandTable(v: InvoiceView, parked: U64, reason: CancelReason, now: Timestamp)
    requires Consistent(v)
    ensures var n, last := |v.events|, v.events[|v.events| - 1];
            && Appends(v, MarkHeld(v, parked, now), n == 1, n > 1 && v.events[1].WasHeld?, WasHeld(now, parked))
            && Appends(v, Settle(v, now), last.WasHeld?, last.WasSettled?, WasSettled(now))
            && Appends(v, SettleIntraledger(v, now), n == 1, last.WasSettledIntraledger?, WasSettledIntraledger(now))
            && Appends(v, Cancel(v, reason, now), n == 1 || last.WasHeld?, last.WasCanceled?, WasCanceled(now, reason))
  {
    StateOfGrammar(v.events);
    hide Hydrate;
    assert forall i :: 0 <= i < |v.events| ==> v.events[i] in v.events;
  }

  predicate Appends(v: InvoiceView, o: Outcome, runs: bool, duplicate: bool, e: InvoiceEvent) {
    if runs then o.Executed? && o.after.events == v.events + [e] && o.after.header == v.header
    else if duplicate then o == AlreadyApplied
    else o == InvalidTransition(v.state)
  }

  // ---- The entity ----

  datatype Verdict = Ran | Ignored | Refused(from: InvoiceState)

  class Invoice {
    const header: Header
    var state: InvoiceState
    var held: Option<U64>
    var canceled: Option<CancelReason>
    var events: seq<InvoiceEvent>

    ghost function View(): InvoiceView
      reads this
    {
      InvoiceView(header, state, held, canceled, events)
    }

    constructor (header: Header, state: InvoiceState, held: Option<U64>, canceled: Option<CancelReason>,
                 events: seq<InvoiceEvent>)
      ensures View() == InvoiceView(header, state, held, canceled, events)
    {
      this.header, this.state, this.held, this.canceled, this.events := header, state, held, canceled, events;
    }

    /** `try_from_events`. */
    static method TryFromEvents(events: seq<InvoiceEvent>) returns (i: Invoice?)
      ensures i != null <==> Hydrate(events).Some?
      ensures i != null ==> fresh(i) && Hydrate(events) == Some(i.View())
    {
      var builder := EMPTY_DRAFT;
      for k := 0 to |events|
        invariant builder == DraftOf(events[..k])
      {
        DraftOfAppend(events[..k], events[k]);
        assert events[..k] + [events[k]] == events[..k + 1];
        match events[k] {
          case WasCreated(h, p, w, a, x) => builder := builder.(header := Some(Header(h, p, w, a, x)));
          case WasHeld(_, parked) => builder := builder.(state := Held, held := Some(parked));
          case WasSettled(_) => builder := builder.(state := Settled);
          case WasSettledIntraledger(_) => builder := builder.(state := Settled);
          case WasCanceled(_, reason) => builder := builder.(state := Canceled, canceled := Some(reason));
        }
      }
      assert events[..|events|] == events;
      if builder.header.None? {
        return null;
      }
      i := new Invoice(builder.header.value, builder.state, builder.held, builder.canceled, events);
    }

    twostate predicate Obeys(o: Outcome, r: Verdict)
      reads this
    {
      match o
      case Executed(after) => r == Ran && View() == after
      case AlreadyApplied => r == Ignored && View() == old(View())
      case InvalidTransition(from) => r == Refused(from) && View() == old(View())
    }

    method DoMarkHeld(parked: U64, now: Timestamp) returns (r: Verdict)
      modifies this
      ensures Obeys(MarkHeld(old(View()), parked, now), r)
      ensures old(Consistent(View())) ==> Consistent(View())
    {
      ghost var before := View();
      if HasHeld(events) {
        r := Ignored;
      } else if state != Open {
        r := Refused(state);
      } else {
        events := events + [WasHeld(now, parked)];
        state, held := Held, Some(parked);
        r := Ran;
      }
      if Consistent(before) {
        ExecuteKeepsConsistent(before, Command.DoMarkHeld(parked, now));
      }
    }

    method DoSettle(now: Timestamp) returns (r: Verdict)
      modifies this
      ensures Obeys(Settle(old(View()), now), r)
      ensures old(Consistent(View())) ==> Consistent(View())
    {
      ghost var before := View();
      if HasSettled(events) {
        r := Ignored;
      } else if state != Held {
        r := Refused(state);
      } else {
        events := events + [WasSettled(now)];
        state := Settled;
        r := Ran;
      }
      if Consistent(before) {
        ExecuteKeepsConsistent(before, Command.DoSettle(now));
      }
    }

    method DoSettleIntraledger(now: Timestamp) returns (r: Verdict)
      modifies this
      ensures Obeys(SettleIntraledger(old(View()), now), r)
      ensures old(Consistent(View())) ==> Consistent(View())
    {
      ghost var before := View();
      if HasIntraledger(events) {
        r := Ignored;
      } else if state != Open {
        r := Refused(state);
      } else {
        events := events + [WasSettledIntraledger(now)];
        state := Settled;
        r := Ran;
      }
      if Consistent(before) {
        ExecuteKeepsConsistent(before, Command.DoSettleIntraledger(now));
      }
    }

    method DoCancel(reason: CancelReason, now: Timestamp) returns (r: Verdict)
      modifies this
      ensures Obeys(Cancel(old(View()), reason, now), r)
      ensures old(Consistent(View())) ==> Consistent(View())
    {
      ghost var before := View();
      if HasCanceled(events) {
        r := Ignored;
      } else if state != Open && state != Held {
        r := Refused(state);
      } else {
        events := events + [WasCanceled(now, reason)];
        state, canceled := Canceled, Some(reason);
        r := Ran;
      }
      if Consistent(before) {
        ExecuteKeepsConsistent(before, Command.DoCancel(reason, now));
      }
    }
  }
}
